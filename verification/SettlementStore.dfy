/** createSettlement run alone, as an object over the two tables, and retries that find an earlier creation. */
module SettlementStore {
  import opened Common
  import opened Idempotency
  import opened SettlementProtocol

  datatype Tables = Tables(now: int, records: map<Key, Record>, settlements: map<SettlementId, Body>)

  function TablesOf(s: State): Tables { Tables(s.now, s.records, s.settlements) }

  function Inserted(db: Tables, q: Request, expired: Option<RecordId>, recordId: RecordId, settlementId: SettlementId): Tables {
    var record := Record(recordId, q.key, q.userId, Digest(q.body), Completed, Some(settlementId), db.now + RECORD_TTL_MS);
    Tables(db.now, WithoutExpired(db.records, expired)[q.key := record], db.settlements[settlementId := q.body])
  }

  /** The answer to a request that nobody interferes with, and the tables afterwards. */
  function CreatedAlone(db: Tables, q: Request, recordId: RecordId, settlementId: SettlementId): (Response, Tables) {
    var created := Success(recordId, settlementId, q.body);
    if q.key !in db.records then (created, Inserted(db, q, None, recordId, settlementId))
    else
      var record := db.records[q.key];
      match Reconcile(record, ContextOf(q), db.now)
      case Replay => (Replayed(db.settlements, record), db)
      case Reuse => (created, Inserted(db, q, Some(record.id), recordId, settlementId))
      case verdict => (Failed(Rejected(verdict)), db)
  }

  lemma RunFirst(s: State, a: Action, rest: seq<Action>)
    requires Enabled(s, a) && CanRun(Next(s, a), rest)
    ensures CanRun(s, [a] + rest) && Run(s, [a] + rest) == Run(Next(s, a), rest)
  {
    assert ([a] + rest)[1..] == rest;
  }

  /** The run leads from s to t. */
  predicate Leads(s: State, run: seq<Action>, t: State) {
    CanRun(s, run) && Run(s, run) == t
  }

  lemma LeadsFirst(s: State, a: Action, rest: seq<Action>, t: State)
    requires Enabled(s, a) && Leads(Next(s, a), rest, t)
    ensures Leads(s, [a] + rest, t)
  {
    RunFirst(s, a, rest);
  }

  lemma {:induction false} LeadsOn(s: State, first: seq<Action>, t: State, rest: seq<Action>, u: State)
    requires Leads(s, first, t) && Leads(t, rest, u)
    ensures Leads(s, first + rest, u)
    decreases |first|
  {
    if first == [] {
      assert first + rest == rest;
    } else {
      LeadsOn(Next(s, first[0]), first[1..], t, rest, u);
      LeadsFirst(s, first[0], first[1..] + rest, u);
      assert [first[0]] + (first[1..] + rest) == first + rest;
    }
  }

  function At(s: State, r: RequestId, q: Request, stage: Stage): State {
    s.(tickets := s.tickets[r := Ticket(q, stage)])
  }

  /** From receipt to the decision. */
  lemma SoloDecide(s: State, r: RequestId, q: Request) returns (run: seq<Action>, t: State)
    requires r !in s.tickets
    ensures t == At(s, r, q, DecideFirst(Found(s, q.key), q, s.now)) && Leads(s, run, t)
  {
    var s1 := Next(s, Receive(r, q));
    var s2 := Next(s1, Find(r));
    assert s2 == At(s, r, q, Read(Found(s, q.key)));
    t := Next(s2, Decide(r));
    assert t == At(s, r, q, DecideFirst(Found(s, q.key), q, s.now));
    LeadsFirst(s2, Decide(r), [], t);
    LeadsFirst(s1, Find(r), [Decide(r)] + [], t);
    LeadsFirst(s, Receive(r, q), [Find(r)] + ([Decide(r)] + []), t);
    run := [Receive(r, q)] + ([Find(r)] + ([Decide(r)] + []));
  }

  /** From the decision to create, over a pause before the commit, to the committed creation. */
  lemma SoloInsert(s: State, r: RequestId, q: Request, expired: Option<RecordId>, lag: nat, recordId: RecordId, settlementId: SettlementId)
    returns (run: seq<Action>, t: State)
    requires r in s.tickets && s.tickets[r] == Ticket(q, Allowed(expired))
    requires recordId !in s.log && settlementId !in s.usedSettlements && q.key !in WithoutExpired(s.records, expired)
    ensures Leads(s, run, t)
    ensures TablesOf(t) == Inserted(TablesOf(s), q, expired, recordId, settlementId).(now := s.now + lag)
    ensures t.tickets == s.tickets[r := Ticket(q, Done(Success(recordId, settlementId, q.body)))]
    ensures t.log == s.log[recordId := Creation(q.key, q.userId, q.body, settlementId, expired, s.now, s.now + lag)]
    ensures t.usedSettlements == s.usedSettlements + {settlementId}
  {
    var s1 := Next(s, Stamp(r));
    var s2 := Next(s1, Advance(lag));
    var commit := Commit(r, recordId, settlementId, true);
    t := Next(s2, commit);
    LeadsFirst(s2, commit, [], t);
    LeadsFirst(s1, Advance(lag), [commit] + [], t);
    LeadsFirst(s, Stamp(r), [Advance(lag)] + ([commit] + []), t);
    run := [Stamp(r)] + ([Advance(lag)] + ([commit] + []));
  }

  /** A request of the protocol, left alone, is answered as CreatedAlone says. */
  lemma SoloCreate(s: State, r: RequestId, q: Request, recordId: RecordId, settlementId: SettlementId)
    returns (run: seq<Action>, t: State)
    requires r !in s.tickets && recordId !in s.log && settlementId !in s.usedSettlements
    ensures Leads(s, run, t)
    ensures r in t.tickets && t.tickets[r].stage == Done(CreatedAlone(TablesOf(s), q, recordId, settlementId).0)
    ensures TablesOf(t) == CreatedAlone(TablesOf(s), q, recordId, settlementId).1
  {
    var first, s1 := SoloDecide(s, r, q);
    var rest: seq<Action> := [];
    t := s1;
    assert TablesOf(s1) == TablesOf(s);
    match s1.tickets[r].stage {
      case Allowed(expired) =>
        rest, t := SoloInsert(s1, r, q, expired, 0, recordId, settlementId);
      case Replaying(_) =>
        t := Next(s1, Fetch(r));
        LeadsFirst(s1, Fetch(r), [], t);
        rest := [Fetch(r)] + [];
      case Done(_) =>
    }
    LeadsOn(s, first, s1, rest, t);
    run := first + rest;
  }

  /** Within a record's lifetime only its own user and body get an answer, namely the settlement it names; afterwards its user may create anew. */
  lemma RetryReplays(s: State, q: Request, recordId: RecordId, settlementId: SettlementId)
    requires Sound(s) && q.key in s.records
    ensures
      var db := TablesOf(s);
      var (response, after) := CreatedAlone(db, q, recordId, settlementId);
      var first := s.log[s.records[q.key].id];
      if first.userId != q.userId then response == Failed(Rejected(KeyReusedByOtherUser)) && after == db
      else if first.claimedAt + RECORD_TTL_MS <= s.now then response == Success(recordId, settlementId, q.body)
      else if first.body != q.body then response == Failed(Rejected(KeyReusedWithOtherBody)) && after == db
      else
        && after == db
        && response == if first.settlementId in s.settlements
                       then Success(s.records[q.key].id, first.settlementId, q.body) else Failed(ResourceGone)
  {
    assert Genuine(s, q.key, s.records[q.key]);
  }

  class SettlementRepository {
    var db: Tables
    // The next generated ids.
    var nextRecord: RecordId
    var nextSettlement: SettlementId

    constructor (now: int)
      ensures db == Tables(now, map[], map[])
    {
      db, nextRecord, nextSettlement := Tables(now, map[], map[]), 0, 0;
    }

    /** createSettlement: the writes are collected and become visible together when the transaction commits. */
    method CreateSettlement(q: Request) returns (response: Response)
      modifies this
      ensures (response, db) == CreatedAlone(old(db), q, old(nextRecord), old(nextSettlement))
      ensures
        var records := old(db).records;
        var creates := q.key in records ==> records[q.key].userId == q.userId && records[q.key].expiresAt <= db.now;
        nextRecord - old(nextRecord) == nextSettlement - old(nextSettlement) == if creates then 1 else 0
    {
      var records := db.records;
      if q.key in records {
        var existing := records[q.key];
        var outcome := Reconcile(existing, ContextOf(q), db.now);
        if outcome == Replay {
          response := ReplaySettlement(existing);
          return;
        }
        if outcome != Reuse { return Failed(Rejected(outcome)); }
        records := map k | k in records && records[k].id != existing.id :: records[k];
        assert records == WithoutExpired(db.records, Some(existing.id));
      } else {
        assert records == WithoutExpired(records, None);
      }
      ghost var kept := records;
      var claim := Record(nextRecord, q.key, q.userId, Digest(q.body), Pending, None, db.now + RECORD_TTL_MS);
      assert q.key !in records;
      records := records[q.key := claim];
      var settlementId := nextSettlement;
      var settlements := db.settlements[settlementId := q.body];
      records := records[q.key := claim.(status := Completed, resourceId := Some(settlementId))];
      assert records == kept[q.key := claim.(status := Completed, resourceId := Some(settlementId))];
      db := db.(records := records, settlements := settlements);
      nextRecord, nextSettlement := nextRecord + 1, nextSettlement + 1;
      return Success(claim.id, settlementId, q.body);
    }

    /** The catch block after a unique violation on the key: the record is read again, outside the transaction. */
    method RecoverLostRace(q: Request) returns (response: Response)
      ensures
        if q.key !in db.records then response == Failed(Rejected(InProgress))
        else
          var record := db.records[q.key];
          if record.userId != q.userId then response == Failed(Rejected(KeyReusedByOtherUser))
          else if record.expiresAt <= db.now then response == Failed(Rejected(InProgress))
          else if record.requestHash != Digest(q.body) then response == Failed(Rejected(KeyReusedWithOtherBody))
          else if record.status == Pending then response == Failed(Rejected(InProgress))
          else if record.resourceId == None then response == Failed(Rejected(InvalidState))
          else
            var id := record.resourceId.value;
            response == if id in db.settlements then Success(record.id, id, db.settlements[id]) else Failed(ResourceGone)
    {
      if q.key in db.records {
        var existing := db.records[q.key];
        var outcome := Reconcile(existing, ContextOf(q), db.now);
        if outcome == Replay {
          response := ReplaySettlement(existing);
          return;
        }
        if outcome != Reuse { return Failed(Rejected(outcome)); }
      }
      return Failed(Rejected(InProgress));
    }

    method ReplaySettlement(record: Record) returns (response: Response)
      ensures response == Replayed(db.settlements, record)
    {
      if record.resourceId.None? { return Failed(Rejected(InvalidState)); }
      if record.resourceId.value !in db.settlements { return Failed(ResourceGone); }
      return Success(record.id, record.resourceId.value, db.settlements[record.resourceId.value]);
    }
  }

  /******* The spacing is one of clock readings *******/

  const REQUEST := Request("key-of-client", "user", Body("group", "payer", "payee", 5))

  /** Commits under one key can lie closer together than a record lifetime, by as much as the first was slow to commit. */
  lemma CommitsCanBeCloser(lag: nat) returns (run: seq<Action>)
    requires lag <= RECORD_TTL_MS
    ensures CanRun(Start(0), run)
    ensures
      var log := Run(Start(0), run).log;
      0 in log && 1 in log && log[0].key == log[1].key && log[1].committedAt - log[0].committedAt == RECORD_TTL_MS - lag
      && log[0].committedAt - log[0].claimedAt == lag
  {
    var run1, s1 := SoloDecide(Start(0), 0, REQUEST);
    var run2, s2 := SoloInsert(s1, 0, REQUEST, None, lag, 0, 0);
    assert s2.records == map[REQUEST.key := Record(0, REQUEST.key, "user", Digest(REQUEST.body), Completed, Some(0), RECORD_TTL_MS)];
    var wait := Advance(RECORD_TTL_MS - lag);
    var s3 := Next(s2, wait);
    var run4, s4 := SoloDecide(s3, 1, REQUEST);
    var run5, s5 := SoloInsert(s4, 1, REQUEST, Some(0), 0, 1, 1);
    LeadsOn(s3, run4, s4, run5, s5);
    LeadsFirst(s2, wait, run4 + run5, s5);
    LeadsOn(s1, run2, s2, [wait] + (run4 + run5), s5);
    LeadsOn(Start(0), run1, s1, run2 + ([wait] + (run4 + run5)), s5);
    run := run1 + (run2 + ([wait] + (run4 + run5)));
  }
}
