/**
 Settlement creation by any number of concurrent requests: the read of the idempotency record, the
 decision, the clock reading for the new record and the commit are separate steps, any transaction may
 roll back at any point, groups may be deleted, and no lock is assumed.
 */
module SettlementProtocol {
  import opened Common
  import opened Idempotency

  type RequestId = nat

  datatype Request = Request(key: Key, userId: User, body: Body)

  datatype Failure = Rejected(verdict: Verdict) | RolledBack | ReplyLost | ResourceGone | LockConflict

  datatype Response = Success(recordId: RecordId, settlementId: SettlementId, settlement: Body) | Failed(failure: Failure)

  datatype Stage =
    | Received
    | Read(found: Option<Record>)                     // findUnique has answered inside the transaction
    | Allowed(expired: Option<RecordId>)              // nothing found, or an expired record to delete by id
    | Stamped(expired: Option<RecordId>, claimedAt: int) // expiresAt computed; the writes have not been committed
    | Refused                                         // unique violation on the key: the transaction is undone
    | Reread(found: Option<Record>)                   // findUnique of the recovery
    | Replaying(record: Record)                       // the stored settlement is about to be looked up
    | Done(response: Response)

  datatype Ticket = Ticket(request: Request, stage: Stage)

  /** A committed creation. */
  datatype Creation = Creation(key: Key, userId: User, body: Body, settlementId: SettlementId,
                               replaced: Option<RecordId>, claimedAt: int, committedAt: int)

  /** records is keyed by the unique key column; log remembers every committed creation by its record id. */
  datatype State = State(now: int, records: map<Key, Record>, settlements: map<SettlementId, Body>,
                         log: map<RecordId, Creation>, usedSettlements: set<SettlementId>, tickets: map<RequestId, Ticket>)

  datatype Action =
    | Advance(ms: nat)
    | Receive(r: RequestId, request: Request)
    | LockBusy(r: RequestId)
    | Find(r: RequestId)
    | Decide(r: RequestId)
    | Stamp(r: RequestId)
    | Commit(r: RequestId, recordId: RecordId, settlementId: SettlementId, answered: bool) // the answer may be lost
    | RollBack(r: RequestId)
    | Fetch(r: RequestId)
    | DeleteGroup(groupId: string)

  function Found(s: State, key: Key): Option<Record> {
    if key in s.records then Some(s.records[key]) else None
  }

  function ContextOf(q: Request): Context { Context(q.key, q.userId, Digest(q.body)) }

  function WithoutExpired(records: map<Key, Record>, expired: Option<RecordId>): map<Key, Record> {
    map k | k in records && expired != Some(records[k].id) :: records[k]
  }

  predicate Enabled(s: State, a: Action) {
    match a
    case Advance(_) => true
    case Receive(r, _) => r !in s.tickets
    case DeleteGroup(_) => true
    case LockBusy(r) => r in s.tickets && s.tickets[r].stage.Received?
    case Find(r) => r in s.tickets && (s.tickets[r].stage.Received? || s.tickets[r].stage.Refused?)
    case Decide(r) => r in s.tickets && (s.tickets[r].stage.Read? || s.tickets[r].stage.Reread?)
    case Stamp(r) => r in s.tickets && s.tickets[r].stage.Allowed?
    case Commit(r, recordId, settlementId, _) =>
      r in s.tickets && s.tickets[r].stage.Stamped? && recordId !in s.log && settlementId !in s.usedSettlements
    case RollBack(r) => r in s.tickets && !s.tickets[r].stage.Done?
    case Fetch(r) => r in s.tickets && s.tickets[r].stage.Replaying?
  }

  function Move(s: State, r: RequestId, stage: Stage): State
    requires r in s.tickets
  {
    s.(tickets := s.tickets[r := s.tickets[r].(stage := stage)])
  }

  /** reconcileIdempotencyRecord inside the transaction: an expired record may be replaced. */
  function DecideFirst(found: Option<Record>, q: Request, now: int): Stage {
    match found
    case None => Allowed(None)
    case Some(record) =>
      match Reconcile(record, ContextOf(q), now)
      case Replay => Replaying(record)
      case Reuse => Allowed(Some(record.id))
      case verdict => Done(Failed(Rejected(verdict)))
  }

  /** The same decision after a lost race: anything but a replay is reported as a conflict. */
  function DecideAgain(found: Option<Record>, q: Request, now: int): Stage {
    match found
    case None => Done(Failed(Rejected(InProgress)))
    case Some(record) =>
      match Reconcile(record, ContextOf(q), now)
      case Replay => Replaying(record)
      case Reuse => Done(Failed(Rejected(InProgress)))
      case verdict => Done(Failed(Rejected(verdict)))
  }

  /** The transaction's writes, all or nothing: delete by id, insert under the unique key, settlement, completion. */
  function CommitOrRefuse(s: State, r: RequestId, recordId: RecordId, settlementId: SettlementId, answered: bool): State
    requires r in s.tickets && s.tickets[r].stage.Stamped?
  {
    var q := s.tickets[r].request;
    var Stamped(expired, claimedAt) := s.tickets[r].stage;
    var kept := WithoutExpired(s.records, expired);
    if q.key in kept then Move(s, r, Refused)
    else
      var record := Record(recordId, q.key, q.userId, Digest(q.body), Completed, Some(settlementId), claimedAt + RECORD_TTL_MS);
      Move(s, r, Done(if answered then Success(recordId, settlementId, q.body) else Failed(ReplyLost))).(
        records := kept[q.key := record],
        settlements := s.settlements[settlementId := q.body],
        usedSettlements := s.usedSettlements + {settlementId},
        log := s.log[recordId := Creation(q.key, q.userId, q.body, settlementId, expired, claimedAt, s.now)])
  }

  /** replaySettlement: the stored settlement, if it still exists. */
  function Replayed(settlements: map<SettlementId, Body>, record: Record): Response {
    if record.resourceId.None? then Failed(Rejected(InvalidState))
    else if record.resourceId.value !in settlements then Failed(ResourceGone)
    else Success(record.id, record.resourceId.value, settlements[record.resourceId.value])
  }

  function Next(s: State, a: Action): State
    requires Enabled(s, a)
  {
    match a
    case Advance(ms) => s.(now := s.now + ms)
    case Receive(r, request) => s.(tickets := s.tickets[r := Ticket(request, Received)])
    case LockBusy(r) => Move(s, r, Done(Failed(LockConflict)))
    case Find(r) =>
      var found := Found(s, s.tickets[r].request.key);
      Move(s, r, if s.tickets[r].stage.Received? then Read(found) else Reread(found))
    case Decide(r) =>
      var q, stage := s.tickets[r].request, s.tickets[r].stage;
      Move(s, r, if stage.Read? then DecideFirst(stage.found, q, s.now) else DecideAgain(stage.found, q, s.now))
    case Stamp(r) => Move(s, r, Stamped(s.tickets[r].stage.expired, s.now))
    case Commit(r, recordId, settlementId, answered) => CommitOrRefuse(s, r, recordId, settlementId, answered)
    case RollBack(r) => Move(s, r, Done(Failed(RolledBack)))
    case Fetch(r) => Move(s, r, Done(Replayed(s.settlements, s.tickets[r].stage.record)))
    case DeleteGroup(groupId) =>
      s.(settlements := map id | id in s.settlements && s.settlements[id].groupId != groupId :: s.settlements[id])
  }

  function Start(now: int): State {
    State(now, map[], map[], map[], {}, map[])
  }

  predicate CanRun(s: State, run: seq<Action>)
    decreases |run|
  {
    run != [] ==> Enabled(s, run[0]) && CanRun(Next(s, run[0]), run[1..])
  }

  function Run(s: State, run: seq<Action>): State
    requires CanRun(s, run)
    decreases |run|
  {
    if run == [] then s else Run(Next(s, run[0]), run[1..])
  }

  /******* What every step keeps *******/

  function RecordOf(id: RecordId, c: Creation): Record {
    Record(id, c.key, c.userId, Digest(c.body), Completed, Some(c.settlementId), c.claimedAt + RECORD_TTL_MS)
  }

  /** The record was committed by a creation under this key. */
  predicate Genuine(s: State, key: Key, record: Record) {
    record.id in s.log && s.log[record.id].key == key && record == RecordOf(record.id, s.log[record.id])
  }

  ghost predicate RecordsGenuine(s: State) {
    && (forall k <- s.records :: Genuine(s, k, s.records[k]))
    && (forall id <- s.log :: s.log[id].key in s.records)
  }

  predicate Precedes(c: Creation, d: Creation) {
    c.claimedAt + RECORD_TTL_MS <= d.claimedAt && c.committedAt <= d.committedAt
  }

  predicate Apart(c: Creation, d: Creation) { Precedes(c, d) || Precedes(d, c) }

  predicate Separate(c: Creation, d: Creation) {
    c.key == d.key ==> Apart(c, d) && c.replaced != d.replaced
  }

  /** Creations under one key are a record lifetime apart, replace different records, and the stored record is the latest. */
  ghost predicate LogSpaced(s: State) { PairsSeparate(s) && LatestStored(s) }

  ghost predicate PairsSeparate(s: State) {
    forall i <- s.log, j <- s.log :: i != j ==> Separate(s.log[i], s.log[j])
  }

  ghost predicate LatestStored(s: State) {
    forall i <- s.log :: s.log[i].key in s.records ==>
      var last := s.records[s.log[i].key].id;
      i == last || (last in s.log && s.log[i].claimedAt + RECORD_TTL_MS <= s.log[last].claimedAt)
  }

  ghost predicate LogSound(s: State) {
    forall i <- s.log ::
      && s.log[i].claimedAt <= s.log[i].committedAt <= s.now
      && s.log[i].settlementId in s.usedSettlements
      && (s.log[i].settlementId in s.settlements ==> s.settlements[s.log[i].settlementId] == s.log[i].body)
  }

  /** A replaced record had expired when its replacement was stamped. */
  ghost predicate ReplacedExpired(s: State) {
    forall i <- s.log :: Expired(s, s.log[i].key, s.log[i].replaced, s.log[i].claimedAt)
  }

  ghost predicate SettlementsFresh(s: State) {
    && s.settlements.Keys <= s.usedSettlements
    && (forall i <- s.log, j <- s.log :: i != j ==> s.log[i].settlementId != s.log[j].settlementId)
  }

  /** The record id belongs to a creation under this key that had expired at t. */
  predicate Expired(s: State, key: Key, id: Option<RecordId>, t: int) {
    id.Some? ==> id.value in s.log && s.log[id.value].key == key && s.log[id.value].claimedAt + RECORD_TTL_MS <= t
  }

  predicate StageSound(s: State, q: Request, stage: Stage) {
    match stage
    case Read(found) => found.Some? ==> Genuine(s, q.key, found.value)
    case Reread(found) => found.Some? ==> Genuine(s, q.key, found.value)
    case Allowed(expired) => Expired(s, q.key, expired, s.now)
    case Stamped(expired, t) => t <= s.now && Expired(s, q.key, expired, t)
    case Replaying(record) =>
      Genuine(s, q.key, record) && record.userId == q.userId && record.requestHash == Digest(q.body)
    case Done(Success(recordId, settlementId, body)) =>
      && recordId in s.log && body == q.body
      && s.log[recordId].key == q.key && s.log[recordId].userId == q.userId
      && s.log[recordId].settlementId == settlementId && s.log[recordId].body == q.body
    case _ => true
  }

  ghost predicate TicketsSound(s: State) {
    forall r <- s.tickets :: StageSound(s, s.tickets[r].request, s.tickets[r].stage)
  }

  ghost predicate Sound(s: State) {
    RecordsGenuine(s) && LogSpaced(s) && LogSound(s) && ReplacedExpired(s) && SettlementsFresh(s) && TicketsSound(s)
  }

  function Committed(s: State, a: Action): State
    requires a.Commit? && Enabled(s, a)
  {
    CommitOrRefuse(s, a.r, a.recordId, a.settlementId, a.answered)
  }

  lemma CommitRecords(s: State, a: Action)
    requires RecordsGenuine(s) && a.Commit? && Enabled(s, a) && StageSound(s, s.tickets[a.r].request, s.tickets[a.r].stage)
    ensures RecordsGenuine(Committed(s, a))
  {
  }

  /** A commit that goes through stamps a lifetime after every earlier creation under its key. */
  lemma CommitIsLater(s: State, a: Action, i: RecordId)
    requires RecordsGenuine(s) && LatestStored(s) && ReplacedExpired(s)
    requires a.Commit? && Enabled(s, a) && StageSound(s, s.tickets[a.r].request, s.tickets[a.r].stage)
    requires i in s.log && s.log[i].key == s.tickets[a.r].request.key && Committed(s, a).log != s.log
    ensures s.log[i].claimedAt + RECORD_TTL_MS <= s.tickets[a.r].stage.claimedAt
    ensures s.log[i].replaced != s.tickets[a.r].stage.expired
  {
    var key, stage := s.tickets[a.r].request.key, s.tickets[a.r].stage;
    assert key in s.records && stage.expired == Some(s.records[key].id);
    assert Expired(s, key, s.log[i].replaced, s.log[i].claimedAt);
  }

  lemma CommitSeparates(s: State, a: Action, i: RecordId)
    requires LogSound(s) && RecordsGenuine(s) && LatestStored(s) && ReplacedExpired(s)
    requires a.Commit? && Enabled(s, a) && StageSound(s, s.tickets[a.r].request, s.tickets[a.r].stage)
    requires i in s.log && Committed(s, a).log != s.log
    ensures
      var new' := Committed(s, a).log[a.recordId];
      Separate(s.log[i], new') && Separate(new', s.log[i])
  {
    if s.log[i].key == s.tickets[a.r].request.key { CommitIsLater(s, a, i); }
  }

  lemma CommitKeepsPairs(s: State, a: Action)
    requires LogSound(s) && RecordsGenuine(s) && LogSpaced(s) && ReplacedExpired(s)
    requires a.Commit? && Enabled(s, a) && StageSound(s, s.tickets[a.r].request, s.tickets[a.r].stage)
    ensures PairsSeparate(Committed(s, a))
  {
    var s' := Committed(s, a);
    if s'.log != s.log {
      forall i <- s'.log, j <- s'.log | i != j ensures Separate(s'.log[i], s'.log[j]) {
        if i == a.recordId { CommitSeparates(s, a, j); } else if j == a.recordId { CommitSeparates(s, a, i); }
      }
    }
  }

  lemma CommitStoresLatest(s: State, a: Action)
    requires RecordsGenuine(s) && LatestStored(s) && ReplacedExpired(s)
    requires a.Commit? && Enabled(s, a) && StageSound(s, s.tickets[a.r].request, s.tickets[a.r].stage)
    ensures LatestStored(Committed(s, a))
  {
    var s' := Committed(s, a);
    if s'.log != s.log {
      forall i <- s.log | s.log[i].key == s.tickets[a.r].request.key
        ensures s.log[i].claimedAt + RECORD_TTL_MS <= s.tickets[a.r].stage.claimedAt
      {
        CommitIsLater(s, a, i);
      }
    }
  }

  lemma CommitLog(s: State, a: Action)
    requires LogSound(s) && ReplacedExpired(s) && SettlementsFresh(s)
    requires a.Commit? && Enabled(s, a) && StageSound(s, s.tickets[a.r].request, s.tickets[a.r].stage)
    ensures LogSound(Committed(s, a)) && ReplacedExpired(Committed(s, a)) && SettlementsFresh(Committed(s, a))
  {
  }

  /** What a request knows stays true as the log grows and time passes. */
  lemma StageLasts(s: State, s': State, q: Request, stage: Stage)
    requires StageSound(s, q, stage) && s.now <= s'.now
    requires forall id <- s.log :: id in s'.log && s'.log[id] == s.log[id]
    ensures StageSound(s', q, stage)
  {
  }

  lemma CommitterSound(s: State, a: Action)
    requires a.Commit? && Enabled(s, a)
    ensures StageSound(Committed(s, a), s.tickets[a.r].request, Committed(s, a).tickets[a.r].stage)
  {
  }

  lemma CommitTickets(s: State, a: Action)
    requires Sound(s) && a.Commit? && Enabled(s, a)
    ensures TicketsSound(Committed(s, a))
  {
    var s' := Committed(s, a);
    CommitterSound(s, a);
    forall i <- s'.tickets ensures StageSound(s', s'.tickets[i].request, s'.tickets[i].stage) {
      if i != a.r {
        StageLasts(s, s', s.tickets[i].request, s.tickets[i].stage);
      }
    }
  }

  /** Steps of one request that write nothing. */
  lemma MoveSound(s: State, r: RequestId, stage: Stage)
    requires Sound(s) && r in s.tickets && StageSound(s, s.tickets[r].request, stage)
    ensures Sound(Move(s, r, stage))
  {
    var s' := Move(s, r, stage);
    forall i <- s'.tickets ensures StageSound(s', s'.tickets[i].request, s'.tickets[i].stage) {
      assert i == r || StageSound(s, s.tickets[i].request, s.tickets[i].stage);
    }
  }

  lemma DecideSound(s: State, r: RequestId)
    requires Sound(s) && Enabled(s, Decide(r))
    ensures StageSound(s, s.tickets[r].request, Next(s, Decide(r)).tickets[r].stage)
  {
    var q, stage := s.tickets[r].request, s.tickets[r].stage;
    assert StageSound(s, q, stage);
    if stage.found.Some? {
      ReconcileGrants(stage.found.value, ContextOf(q), s.now);
    }
  }

  lemma StepSound(s: State, a: Action)
    requires Sound(s) && Enabled(s, a)
    requires a.LockBusy? || a.Find? || a.Decide? || a.Stamp? || a.RollBack? || a.Fetch?
    ensures Next(s, a) == Move(s, a.r, Next(s, a).tickets[a.r].stage)
    ensures StageSound(s, s.tickets[a.r].request, Next(s, a).tickets[a.r].stage)
  {
    if a.Decide? {
      DecideSound(s, a.r);
    } else {
      assert StageSound(s, s.tickets[a.r].request, s.tickets[a.r].stage);
    }
  }

  lemma OutsideLog(s: State, a: Action)
    requires LogSound(s) && SettlementsFresh(s) && Enabled(s, a) && (a.Advance? || a.Receive? || a.DeleteGroup?)
    ensures LogSound(Next(s, a)) && SettlementsFresh(Next(s, a))
  {
  }

  lemma OutsideSound(s: State, a: Action)
    requires Sound(s) && Enabled(s, a) && (a.Advance? || a.Receive? || a.DeleteGroup?)
    ensures Sound(Next(s, a))
  {
    OutsideLog(s, a);
    OutsideTickets(s, a);
    SameLog(s, Next(s, a));
  }

  lemma SameLog(s: State, s': State)
    requires RecordsGenuine(s) && LogSpaced(s) && ReplacedExpired(s) && s'.log == s.log && s'.records == s.records
    ensures RecordsGenuine(s') && LogSpaced(s') && ReplacedExpired(s')
  {
    forall k <- s'.records ensures Genuine(s', k, s'.records[k]) { assert Genuine(s, k, s.records[k]); }
    forall i <- s'.log ensures Expired(s', s'.log[i].key, s'.log[i].replaced, s'.log[i].claimedAt) {
      assert Expired(s, s.log[i].key, s.log[i].replaced, s.log[i].claimedAt);
    }
  }

  lemma OutsideTickets(s: State, a: Action)
    requires TicketsSound(s) && Enabled(s, a) && (a.Advance? || a.Receive? || a.DeleteGroup?)
    ensures TicketsSound(Next(s, a))
  {
    var s' := Next(s, a);
    forall i <- s'.tickets ensures StageSound(s', s'.tickets[i].request, s'.tickets[i].stage) {
      if i in s.tickets {
        StageLasts(s, s', s.tickets[i].request, s.tickets[i].stage);
      }
    }
  }

  lemma NextSound(s: State, a: Action)
    requires Sound(s) && Enabled(s, a)
    ensures Sound(Next(s, a))
  {
    if a.Commit? {
      assert StageSound(s, s.tickets[a.r].request, s.tickets[a.r].stage);
      CommitRecords(s, a);
      CommitKeepsPairs(s, a);
      CommitStoresLatest(s, a);
      CommitLog(s, a);
      CommitTickets(s, a);
    } else if a.Advance? || a.Receive? || a.DeleteGroup? {
      OutsideSound(s, a);
    } else {
      StepSound(s, a);
      MoveSound(s, a.r, Next(s, a).tickets[a.r].stage);
    }
  }

  lemma {:induction false} RunSound(s: State, run: seq<Action>)
    requires Sound(s) && CanRun(s, run)
    ensures Sound(Run(s, run))
    decreases |run|
  {
    if run != [] {
      NextSound(s, run[0]);
      RunSound(Next(s, run[0]), run[1..]);
    }
  }

  /** Two creations under one key stamp their records a lifetime apart, never replace the same record, and the later one commits a lifetime after the earlier was stamped. */
  lemma CreationsApart(now: int, run: seq<Action>, i: RecordId, j: RecordId)
    requires CanRun(Start(now), run)
    requires
      var log := Run(Start(now), run).log;
      i in log && j in log && i != j && log[i].key == log[j].key && log[i].claimedAt <= log[j].claimedAt
    ensures
      var log := Run(Start(now), run).log;
      && log[i].claimedAt + RECORD_TTL_MS <= log[j].claimedAt <= log[j].committedAt
      && log[i].replaced != log[j].replaced
      && log[i].settlementId != log[j].settlementId
  {
    RunSound(Start(now), run);
  }

  /** Their commits come in the same order, a lifetime apart less the time the earlier one took from stamping to committing. */
  lemma CommitsApart(now: int, run: seq<Action>, i: RecordId, j: RecordId)
    requires CanRun(Start(now), run)
    requires
      var log := Run(Start(now), run).log;
      i in log && j in log && i != j && log[i].key == log[j].key && log[i].claimedAt <= log[j].claimedAt
    ensures
      var log := Run(Start(now), run).log;
      && log[i].committedAt <= log[j].committedAt
      && log[j].committedAt - log[i].committedAt >= RECORD_TTL_MS - (log[i].committedAt - log[i].claimedAt)
  {
    RunSound(Start(now), run);
    var s := Run(Start(now), run);
    assert Separate(s.log[i], s.log[j]);
  }

  /** Every success, fresh or replayed, names a settlement committed for the same key and user with exactly the request's body. */
  lemma SuccessIsFaithful(now: int, run: seq<Action>, r: RequestId)
    requires CanRun(Start(now), run) && r in Run(Start(now), run).tickets
    ensures
      var s := Run(Start(now), run);
      var q := s.tickets[r].request;
      match s.tickets[r].stage
      case Done(Success(recordId, settlementId, body)) =>
        && body == q.body && recordId in s.log
        && s.log[recordId].(replaced := None, claimedAt := 0, committedAt := 0)
           == Creation(q.key, q.userId, q.body, settlementId, None, 0, 0)
        && (settlementId in s.settlements ==> s.settlements[settlementId] == q.body)
      case _ => true
  {
    RunSound(Start(now), run);
    var s := Run(Start(now), run);
    assert StageSound(s, s.tickets[r].request, s.tickets[r].stage);
  }

  /** Successes for one key name the same settlement, unless their records lie a whole lifetime apart. */
  lemma SuccessesAgree(now: int, run: seq<Action>, r: RequestId, q: RequestId)
    requires CanRun(Start(now), run)
    requires
      var t := Run(Start(now), run).tickets;
      && r in t && q in t && t[r].request.key == t[q].request.key
      && t[r].stage.Done? && t[r].stage.response.Success? && t[q].stage.Done? && t[q].stage.response.Success?
    ensures
      var s := Run(Start(now), run);
      var a, b := s.tickets[r].stage.response, s.tickets[q].stage.response;
      && a.recordId in s.log && b.recordId in s.log
      && (a.settlementId == b.settlementId || Apart(s.log[a.recordId], s.log[b.recordId]))
  {
    RunSound(Start(now), run);
    var s := Run(Start(now), run);
    assert StageSound(s, s.tickets[r].request, s.tickets[r].stage);
    assert StageSound(s, s.tickets[q].request, s.tickets[q].stage);
  }

  /** No committed record is unfinished, lacks its resource or sits under another key. */
  lemma RecordsFinished(now: int, run: seq<Action>, key: Key)
    requires CanRun(Start(now), run) && key in Run(Start(now), run).records
    ensures
      var s := Run(Start(now), run);
      var record := s.records[key];
      && record.status == Completed && record.key == key && record.id in s.log
      && record.resourceId == Some(s.log[record.id].settlementId)
      && record.expiresAt == s.log[record.id].claimedAt + RECORD_TTL_MS
  {
    RunSound(Start(now), run);
    var s := Run(Start(now), run);
    assert Genuine(s, key, s.records[key]);
  }
}
