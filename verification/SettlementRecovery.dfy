/** What becomes of a request that loses the race for its key, and how long a committed settlement stays. */
module SettlementRecovery {
  import opened Common
  import opened Idempotency
  import opened SettlementProtocol
  import opened SettlementStore

  /******* A settlement stays until its group is deleted *******/

  lemma NextKeepsSettlement(s: State, a: Action, id: SettlementId)
    requires Sound(s) && Enabled(s, a) && id in s.usedSettlements
    ensures
      var t := Next(s, a);
      && id in t.usedSettlements
      && (id in t.settlements <==> id in s.settlements && a != DeleteGroup(s.settlements[id].groupId))
      && (id in t.settlements ==> t.settlements[id] == s.settlements[id])
  {
    if a.DeleteGroup? && id in s.settlements && s.settlements[id].groupId == a.groupId {
      assert a == DeleteGroup(s.settlements[id].groupId);
    }
  }

  lemma {:induction false} SettlementLastsIff(s: State, run: seq<Action>, id: SettlementId)
    requires Sound(s) && CanRun(s, run) && id in s.usedSettlements
    ensures
      var t := Run(s, run);
      && (id in t.settlements <==> id in s.settlements && DeleteGroup(s.settlements[id].groupId) !in run)
      && (id in t.settlements ==> t.settlements[id] == s.settlements[id])
    decreases |run|
  {
    if run != [] {
      assert run == [run[0]] + run[1..];
      NextSound(s, run[0]);
      NextKeepsSettlement(s, run[0], id);
      SettlementLastsIff(Next(s, run[0]), run[1..], id);
    }
  }

  /** In every run a commit that is not refused stores the requested settlement, which stays as it is for exactly as long as
      its group is not deleted. */
  lemma CommittedSettlementStaysIff(now: int, prefix: seq<Action>, a: Action, rest: seq<Action>)
    requires CanRun(Start(now), prefix) && a.Commit? && Enabled(Run(Start(now), prefix), a)
    requires CanRun(Next(Run(Start(now), prefix), a), rest)
    requires !Next(Run(Start(now), prefix), a).tickets[a.r].stage.Refused?
    ensures
      var s := Run(Start(now), prefix);
      var body := s.tickets[a.r].request.body;
      var t := Run(Next(s, a), rest);
      && (a.settlementId in t.settlements <==> DeleteGroup(body.groupId) !in rest)
      && (a.settlementId in t.settlements ==> t.settlements[a.settlementId] == body)
  {
    RunSound(Start(now), prefix);
    var s := Run(Start(now), prefix);
    NextSound(s, a);
    SettlementLastsIff(Next(s, a), rest, a.settlementId);
  }

  /******* A lost race *******/

  /** The request is about to be answered from the record, or has been, or its query failed. */
  predicate Recovering(s: State, r: RequestId, record: Record) {
    && r in s.tickets && Genuine(s, record.key, record) && record.resourceId.Some? && record.resourceId.value in s.usedSettlements
    && var id := record.resourceId.value;
       match s.tickets[r].stage
       case Replaying(found) => found == record
       case Done(Success(recordId, settlementId, _)) => recordId == record.id && settlementId == id
       case Done(Failed(RolledBack)) => true
       case Done(Failed(ResourceGone)) => id !in s.settlements
       case _ => false
  }

  lemma GenuineLasts(s: State, a: Action, record: Record)
    requires Enabled(s, a) && Genuine(s, record.key, record)
    ensures Genuine(Next(s, a), record.key, record)
  {
  }

  lemma WaiterMoves(s: State, a: Action, r: RequestId)
    requires Enabled(s, a) && r in s.tickets && (s.tickets[r].stage.Replaying? || s.tickets[r].stage.Done?)
    ensures r in Next(s, a).tickets
    ensures Next(s, a).tickets[r] == s.tickets[r] || (s.tickets[r].stage.Replaying? && (a == RollBack(r) || a == Fetch(r)))
  {
  }

  lemma NextRecovering(s: State, a: Action, r: RequestId, record: Record)
    requires Sound(s) && Enabled(s, a) && Recovering(s, r, record)
    ensures Recovering(Next(s, a), r, record)
    ensures s.tickets[r].stage.Done? ==> Next(s, a).tickets[r] == s.tickets[r]
    ensures s.tickets[r].stage.Replaying? && record.resourceId.value !in s.settlements ==>
              !(Next(s, a).tickets[r].stage.Done? && Next(s, a).tickets[r].stage.response.Success?)
  {
    NextKeepsSettlement(s, a, record.resourceId.value);
    GenuineLasts(s, a, record);
    WaiterMoves(s, a, r);
  }

  /** A settlement that is gone when the record is read again is no answer any more. */
  lemma {:induction false} RunRecovering(s: State, run: seq<Action>, r: RequestId, record: Record)
    requires Sound(s) && CanRun(s, run) && Recovering(s, r, record)
    ensures Recovering(Run(s, run), r, record)
    ensures s.tickets[r].stage.Replaying? && record.resourceId.value !in s.settlements ==>
              !(Run(s, run).tickets[r].stage.Done? && Run(s, run).tickets[r].stage.response.Success?)
    ensures s.tickets[r].stage.Done? ==> Run(s, run).tickets[r] == s.tickets[r]
    decreases |run|
  {
    if run != [] {
      NextSound(s, run[0]);
      NextRecovering(s, run[0], r, record);
      NextKeepsSettlement(s, run[0], record.resourceId.value);
      RunRecovering(Next(s, run[0]), run[1..], r, record);
    }
  }

  lemma {:induction false} DoneLasts(s: State, run: seq<Action>, r: RequestId)
    requires CanRun(s, run) && r in s.tickets && s.tickets[r].stage.Done?
    ensures r in Run(s, run).tickets && Run(s, run).tickets[r] == s.tickets[r]
    decreases |run|
  {
    if run != [] { DoneLasts(Next(s, run[0]), run[1..], r); }
  }

  /** The conflict that a second reading of the record leads to at once, if any. */
  function Conflict(found: Option<Record>, q: Request, now: int): Option<Verdict> {
    match found
    case None => Some(InProgress)
    case Some(record) =>
      if record.userId != q.userId then Some(KeyReusedByOtherUser)
      else if record.expiresAt <= now then Some(InProgress)
      else if record.requestHash != Digest(q.body) then Some(KeyReusedWithOtherBody)
      else None
  }

  lemma DecidesAgain(s: State, r: RequestId)
    requires Sound(s) && r in s.tickets && s.tickets[r].stage.Reread?
    ensures
      var found := s.tickets[r].stage.found;
      var t := Next(s, Decide(r));
      match Conflict(found, s.tickets[r].request, s.now)
      case Some(verdict) => t.tickets[r].stage == Done(Failed(Rejected(verdict)))
      case None => t.tickets[r].stage == Replaying(found.value) && Recovering(t, r, found.value)
  {
    var q, found := s.tickets[r].request, s.tickets[r].stage.found;
    assert StageSound(s, q, s.tickets[r].stage);
    if found.Some? { ReconcileGrants(found.value, ContextOf(q), s.now); }
  }

  /** What a recovering request is told, between s and t. */
  predicate Recovered(s: State, t: State, stage: Stage, record: Record, q: Request) {
    && record.resourceId.Some?
    && var id := record.resourceId.value;
       match stage
       case Replaying(found) => found == record
       case Done(Success(recordId, settlementId, body)) => recordId == record.id && settlementId == id && body == q.body && id in s.settlements
       case Done(Failed(ResourceGone)) => id !in t.settlements
       case Done(Failed(RolledBack)) => true
       case _ => false
  }

  lemma RecoveringIsAnswered(s: State, rest: seq<Action>, r: RequestId, record: Record)
    requires Sound(s) && CanRun(s, rest) && Recovering(s, r, record) && s.tickets[r].stage.Replaying?
    ensures
      var t := Run(s, rest);
      r in t.tickets && Recovered(s, t, t.tickets[r].stage, record, s.tickets[r].request)
  {
    RunRecovering(s, rest, r, record);
    RunSound(s, rest);
    RequestStays(s, rest, r);
    var t := Run(s, rest);
    assert StageSound(t, t.tickets[r].request, t.tickets[r].stage);
  }

  /** In every run, a request that lost the race is answered from the record it reads again: by that record's settlement
      if the record is unexpired and of the same user and body, as long as that settlement exists; otherwise by the
      conflict that fits. Only a failing query ends it differently. */
  lemma LostRaceIsAnswered(now: int, prefix: seq<Action>, r: RequestId, rest: seq<Action>)
    requires CanRun(Start(now), prefix)
    requires
      var s := Run(Start(now), prefix);
      r in s.tickets && s.tickets[r].stage.Reread? && CanRun(Next(s, Decide(r)), rest)
    ensures
      var s := Run(Start(now), prefix);
      var q, found := s.tickets[r].request, s.tickets[r].stage.found;
      var t := Run(Next(s, Decide(r)), rest);
      && r in t.tickets
      && match Conflict(found, q, s.now)
         case Some(verdict) => t.tickets[r].stage == Done(Failed(Rejected(verdict)))
         case None => Recovered(s, t, t.tickets[r].stage, found.value, q)
  {
    RunSound(Start(now), prefix);
    var s := Run(Start(now), prefix);
    DecidesAgain(s, r);
    NextSound(s, Decide(r));
    if Conflict(s.tickets[r].stage.found, s.tickets[r].request, s.now).Some? {
      DoneLasts(Next(s, Decide(r)), rest, r);
    } else {
      RecoveringIsAnswered(Next(s, Decide(r)), rest, r, s.tickets[r].stage.found.value);
    }
  }

  lemma {:induction false} RequestStays(s: State, run: seq<Action>, r: RequestId)
    requires CanRun(s, run) && r in s.tickets
    ensures r in Run(s, run).tickets && Run(s, run).tickets[r].request == s.tickets[r].request
    decreases |run|
  {
    if run != [] { RequestStays(Next(s, run[0]), run[1..], r); }
  }

  /** From the losing commit to the answer. */
  lemma SoloRecover(s: State, p: RequestId, q: Request, recordId: RecordId, settlementId: SettlementId) returns (run: seq<Action>, t: State)
    requires p in s.tickets && s.tickets[p] == Ticket(q, Allowed(None)) && q.key in s.records
    requires recordId !in s.log && settlementId !in s.usedSettlements
    requires Reconcile(s.records[q.key], ContextOf(q), s.now) == Replay
    ensures Leads(s, run, t)
    ensures p in t.tickets && t.tickets[p].stage == Done(Replayed(s.settlements, s.records[q.key])) 
    ensures t.tickets - {p} == s.tickets - {p} && t.log == s.log
  {
    var s1 := Next(s, Stamp(p));
    var commit := Commit(p, recordId, settlementId, true);
    assert WithoutExpired(s1.records, None) == s1.records;
    var s2 := Next(s1, commit);
    var s3 := Next(s2, Find(p));
    var s4 := Next(s3, Decide(p));
    t := Next(s4, Fetch(p));
    LeadsFirst(s4, Fetch(p), [], t);
    run := [Fetch(p)] + [];
    LeadsFirst(s3, Decide(p), run, t);
    run := [Decide(p)] + run;
    LeadsFirst(s2, Find(p), run, t);
    run := [Find(p)] + run;
    LeadsFirst(s1, commit, run, t);
    run := [commit] + run;
    LeadsFirst(s, Stamp(p), run, t);
    run := [Stamp(p)] + run;
  }

  /** Two equal requests that both find their key unused: there is a run in which the one that commits second is
      answered with the settlement of the first. */
  lemma LoserNamesWinnersSettlement(s: State, r: RequestId, p: RequestId, q: Request, recordId: RecordId, settlementId: SettlementId,
                                        unusedRecord: RecordId, unusedSettlement: SettlementId)
    returns (run: seq<Action>, t: State)
    requires r !in s.tickets && p !in s.tickets && r != p && q.key !in s.records
    requires recordId !in s.log && unusedRecord !in s.log && recordId != unusedRecord
    requires settlementId !in s.usedSettlements && unusedSettlement !in s.usedSettlements && settlementId != unusedSettlement
    ensures Leads(s, run, t) && r in t.tickets && p in t.tickets
    ensures t.tickets[r].stage == t.tickets[p].stage == Done(Success(recordId, settlementId, q.body))
    ensures t.log == s.log[recordId := Creation(q.key, q.userId, q.body, settlementId, None, s.now, s.now)]
  {
    var run1, s1 := SoloDecide(s, r, q);
    var run2, s2 := SoloDecide(s1, p, q);
    assert WithoutExpired(s2.records, None) == s2.records;
    var run3, s3 := SoloInsert(s2, r, q, None, 0, recordId, settlementId);
    var run4: seq<Action>;
    run4, t := SoloRecover(s3, p, q, unusedRecord, unusedSettlement);
    assert r in t.tickets - {p} && t.tickets[r] == s3.tickets[r];
    LeadsOn(s2, run3, s3, run4, t);
    LeadsOn(s1, run2, s2, run3 + run4, t);
    LeadsOn(s, run1, s1, run2 + (run3 + run4), t);
    run := run1 + (run2 + (run3 + run4));
  }
}
