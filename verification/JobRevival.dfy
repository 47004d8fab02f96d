/**
 How a job taken out of the queue comes back: exactly by the closing failures that reopen it. And two
 timely runs from the start that do so, and one in which two workers end up on one job.
 */
module JobRevival {
  import opened Common
  import opened JobTypes
  import opened JobProtocol
  import opened JobExclusion

  /******* The exact condition *******/

  /** The job was taken out, and is a member again. */
  predicate Back(s: State, job: JobId) { job in Removed(s.past) && job in s.store.queue }

  /** The run is timely, has no further closing failure that reopens the job, and ends with the job back. */
  ghost predicate Returns(cfg: Config, s: State, run: seq<Action>, job: JobId) {
    TimelyRun(cfg, s, run) && CanRun(cfg, s, run) && !Reopened(cfg, s, run, job) && Back(Run(cfg, s, run), job)
  }

  lemma ReturnsFirst(cfg: Config, s: State, a: Action, rest: seq<Action>, job: JobId)
    requires Timely(s) && Enabled(s, a) && !Reopens(cfg, s, a, job) && Returns(cfg, Next(cfg, s, a), rest, job)
    ensures Returns(cfg, s, [a] + rest, job)
  {
    assert ([a] + rest)[1..] == rest;
  }

  /** The catch block's three commands. */
  lemma RetryReturns(cfg: Config, s: State, w: Worker, job: JobId) returns (run: seq<Action>)
    requires Timely(s) && w in s.pcs && PcOf(s, w).Rereading? && PcOf(s, w).claim.job == job
    requires ReadEnvelope(s.store, job).Some? && job in Removed(s.past)
    ensures Returns(cfg, s, run, job)
  {
    var a := Command(w, s.store.now);
    var s1 := Next(cfg, s, a);
    var s2 := Next(cfg, s1, a);
    var s3 := Next(cfg, s2, a);
    assert PcOf(s1, w).Rewriting? && PcOf(s2, w).Rescheduling?;
    assert Timely(s1) && Timely(s2) && Timely(s3);
    assert Returns(cfg, s3, [], job);
    ReturnsFirst(cfg, s2, a, [], job);
    ReturnsFirst(cfg, s1, a, [a] + [], job);
    run := [a] + ([a] + ([a] + []));
    ReturnsFirst(cfg, s, a, [a] + ([a] + []), job);
  }

  lemma FaultReturns(cfg: Config, s: State, w: Worker, applied: bool, job: JobId) returns (run: seq<Action>)
    requires Exact(cfg, s) && Timely(s) && Enabled(s, Fault(w, applied)) && Reopens(cfg, s, Fault(w, applied), job)
    ensures Returns(cfg, Next(cfg, s, Fault(w, applied)), run, job)
  {
    var t := Next(cfg, s, Fault(w, applied));
    assert w in s.pcs && PcExact(cfg, s, s.pcs[w]);
    assert t.pcs[w].Rereading? && Timely(t);
    run := RetryReturns(cfg, t, w, job);
  }

  /** The worker has found the job before it was taken out; the payload outlives the lease, whose holder is gone. */
  ghost predicate Awaits(cfg: Config, s: State, v: Worker, job: JobId, until: int) {
    && v in s.pcs && s.pcs[v] == Found(job) && job in Removed(s.past) && Retriable(cfg, s, job)
    && (forall u <- s.pcs :: !On(s.pcs[u], job))
    && job in s.store.leases && s.store.leases[job].expiresAt == until
    && s.store.now <= until < s.store.data[job].expiresAt
  }

  /** The lease is granted at its expiry, the payload is read, the handler fails, and the job is put back. */
  lemma HandlerReturns(cfg: Config, s: State, v: Worker, job: JobId) returns (run: seq<Action>)
    requires Timely(s) && v in s.pcs && s.pcs[v].Leased? && s.pcs[v].claim.job == job
    requires Retriable(cfg, s, job) && job in Removed(s.past)
    ensures Returns(cfg, s, run, job)
  {
    var s1 := Next(cfg, s, Command(v, s.store.now));
    assert PcOf(s1, v).Running?;
    var s2 := Next(cfg, s1, Handler(v, Failure));
    assert Timely(s1) && Timely(s2);
    run := RetryReturns(cfg, s2, v, job);
    ReturnsFirst(cfg, s1, Handler(v, Failure), run, job);
    run := [Handler(v, Failure)] + run;
    ReturnsFirst(cfg, s, Command(v, s.store.now), run, job);
    run := [Command(v, s.store.now)] + run;
  }

  lemma WaitReturns(cfg: Config, s: State, v: Worker, job: JobId, until: int) returns (run: seq<Action>)
    requires Awaits(cfg, s, v, job, until) && forall u <- s.pcs :: !Holds(s.pcs[u])
    ensures Returns(cfg, s, run, job)
  {
    var wait := Advance(until - s.store.now);
    var s1 := Next(cfg, s, wait);
    var s2 := Next(cfg, s1, Command(v, until));
    assert s2.pcs[v].Leased? && Retriable(cfg, s2, job);
    assert Timely(s) && Timely(s1) && Timely(s2);
    run := HandlerReturns(cfg, s2, v, job);
    ReturnsFirst(cfg, s1, Command(v, until), run, job);
    run := [Command(v, until)] + run;
    ReturnsFirst(cfg, s, wait, run, job);
    run := [wait] + run;
  }

  /** Whoever else is at work may crash first, so that the wait is timely. */
  lemma {:induction false} CrashesReturn(cfg: Config, s: State, v: Worker, job: JobId, until: int, holders: set<Worker>)
    returns (run: seq<Action>)
    requires Awaits(cfg, s, v, job, until) && Timely(s)
    requires forall u <- s.pcs :: Holds(s.pcs[u]) ==> u in holders
    ensures Returns(cfg, s, run, job)
    decreases holders
  {
    if u :| u in s.pcs && Holds(s.pcs[u]) {
      var t := Next(cfg, s, Crash(u));
      assert Timely(t) && Awaits(cfg, t, v, job, until);
      run := CrashesReturn(cfg, t, v, job, until, holders - {u});
      ReturnsFirst(cfg, s, Crash(u), run, job);
      run := [Crash(u)] + run;
    } else {
      run := WaitReturns(cfg, s, v, job, until);
    }
  }

  lemma CrashReturns(cfg: Config, s: State, w: Worker, job: JobId) returns (run: seq<Action>)
    requires Exact(cfg, s) && Timely(s) && Enabled(s, Crash(w)) && Reopens(cfg, s, Crash(w), job)
    ensures Returns(cfg, Next(cfg, s, Crash(w)), run, job)
  {
    var t := Next(cfg, s, Crash(w));
    assert w in s.pcs && PcExact(cfg, s, s.pcs[w]) && Guarded(s, job);
    var v :| v in s.pcs && s.pcs[v] == Found(job);
    assert Timely(t) && Awaits(cfg, t, v, job, s.pcs[w].claim.until);
    run := CrashesReturn(cfg, t, v, job, s.pcs[w].claim.until, t.pcs.Keys);
  }

  /** A step lets a job that was taken out come back, without any further such failure, exactly when it reopens it. */
  lemma ReturnIsExact(cfg: Config, s: State, a: Action, job: JobId)
    requires Exact(cfg, s) && DelaysBounded(cfg, s) && Timely(s) && StaysOut(cfg, s, job) && Enabled(s, a)
    ensures (exists run :: Returns(cfg, Next(cfg, s, a), run, job)) <==> Reopens(cfg, s, a, job)
  {
    var t := Next(cfg, s, a);
    if Reopens(cfg, s, a, job) {
      if a.Fault? {
        var run := FaultReturns(cfg, s, a.w, a.applied, job);
      } else {
        var run := CrashReturns(cfg, s, a.w, job);
      }
    } else {
      forall run ensures !Returns(cfg, t, run, job) {
        if TimelyRun(cfg, t, run) && CanRun(cfg, t, run) && !Reopened(cfg, t, run, job) {
          NextExact(cfg, s, a);
          NextStaysOut(cfg, s, a, job);
          RunStaysOut(cfg, t, run, job);
        }
      }
    }
  }

  /** The same for all timely runs: every state they reach meets the requirements, up to the first such failure. */
  lemma FirstReturnIsExact(cfg: Config, now: int, run: seq<Action>, a: Action, job: JobId)
    requires TimelyRun(cfg, Start(now), run) && CanRun(cfg, Start(now), run) && !Reopened(cfg, Start(now), run, job)
    requires Enabled(Run(cfg, Start(now), run), a)
    ensures
      var s := Run(cfg, Start(now), run);
      (exists rest :: Returns(cfg, Next(cfg, s, a), rest, job)) <==> Reopens(cfg, s, a, job)
  {
    RunExact(cfg, Start(now), run);
    RunStaysOut(cfg, Start(now), run, job);
    ReturnIsExact(cfg, Run(cfg, Start(now), run), a, job);
  }

  lemma GivingUpTakesOut(cfg: Config, s: State, w: Worker, clock: int)
    requires PcOf(s, w).Removing?
    ensures
      var s3 := Execute(cfg, Execute(cfg, Execute(cfg, s, w, clock), w, clock), w, clock);
      PcOf(s, w).claim.job !in s3.store.queue
  {
    var s1 := Execute(cfg, s, w, clock);
    assert PcOf(s1, w).Clearing? && PcOf(Execute(cfg, s1, w, clock), w).Idle?;
  }

  lemma RetryingPutsBack(cfg: Config, s: State, w: Worker, clock: int)
    requires PcOf(s, w).Rereading?
    ensures
      var job := PcOf(s, w).claim.job;
      var s3 := Execute(cfg, Execute(cfg, Execute(cfg, s, w, clock), w, clock), w, clock);
      job in s3.store.queue <==> ReadEnvelope(s.store, job).Some?
  {
    var s1 := Execute(cfg, s, w, clock);
    var s2 := Execute(cfg, s1, w, clock);
    if ReadEnvelope(s.store, PcOf(s, w).claim.job).None? {
      assert PcOf(s1, w).Dropping? && PcOf(s2, w).Releasing?;
    } else {
      assert PcOf(s1, w).Rewriting? && PcOf(s2, w).Rescheduling?;
    }
  }

  /**
   A failing command of complete() or discard(), at either stage, for either reason, with or without
   having taken effect: after the worker's own next three commands the job is a member exactly when
   it was retriable and its payload has not been deleted.
   */
  lemma FailedClosePutsBack(cfg: Config, s: State, w: Worker, applied: bool, clock: int)
    requires Exact(cfg, s) && Enabled(s, Fault(w, applied))
    requires PcOf(s, w).Clearing? ==> PcOf(s, w).claim.job !in s.store.queue
    ensures
      var job := PcOf(s, w).claim.job;
      var s1 := Next(cfg, s, Fault(w, applied));
      var s4 := Execute(cfg, Execute(cfg, Execute(cfg, s1, w, clock), w, clock), w, clock);
      job in s4.store.queue <==> Retriable(cfg, s, job) && !(PcOf(s, w).Clearing? && applied)
  {
    var pc := PcOf(s, w);
    var job := pc.claim.job;
    var s1 := Next(cfg, s, Fault(w, applied));
    assert w in s.pcs && PcExact(cfg, s, s.pcs[w]);
    assert ReadEnvelope(s.store, job).Some? ==> ReadEnvelope(s.store, job).value.attempts == pc.why.env.attempts;
    if PcOf(s1, w).Removing? { GivingUpTakesOut(cfg, s1, w, clock); } else { RetryingPutsBack(cfg, s1, w, clock); }
  }

  /******* When two workers can be on one job *******/

  predicate Overlap(s: State, job: JobId) {
    exists v <- s.pcs, w <- s.pcs :: v != w && On(s.pcs[v], job) && On(s.pcs[w], job)
  }

  /** The run is timely, shares no lease of the job, and ends with two workers on it. */
  ghost predicate Overlaps(cfg: Config, s: State, run: seq<Action>, job: JobId) {
    TimelyRun(cfg, s, run) && CanRun(cfg, s, run) && !LeaseShared(cfg, s, run, job) && Overlap(Run(cfg, s, run), job)
  }

  lemma SharedReplyOverlaps(cfg: Config, s: State, a: Action, job: JobId) returns (run: seq<Action>)
    requires Timely(s) && Enabled(s, a) && Shares(s, a, job)
    ensures Overlaps(cfg, Next(cfg, s, a), run, job)
  {
    var v :| v in s.pcs && s.pcs[v] == Found(job);
    var t := Next(cfg, s, a);
    var claim := Command(v, t.store.now);
    var u := Next(cfg, t, claim);
    assert On(u.pcs[v], job) && On(u.pcs[a.w], job) && v != a.w;
    assert Timely(t) && Timely(u);
    run := [claim];
    assert run[1..] == [];
    assert TimelyRun(cfg, u, []) && CanRun(cfg, u, []) && !LeaseShared(cfg, u, [], job) && Run(cfg, u, []) == u;
    assert Run(cfg, t, run) == u && Overlap(u, job);
  }

  /** A step lets two workers be on one job later, without any further shared lease, exactly when it loses a DEL
      reply while another worker has already found the job. */
  lemma OverlapIsExact(cfg: Config, s: State, a: Action, job: JobId)
    requires Exact(cfg, s) && DelaysBounded(cfg, s) && Timely(s) && Single(s, job) && Enabled(s, a)
    ensures (exists run :: Overlaps(cfg, Next(cfg, s, a), run, job)) <==> Shares(s, a, job)
  {
    var t := Next(cfg, s, a);
    if Shares(s, a, job) {
      var run := SharedReplyOverlaps(cfg, s, a, job);
    } else {
      forall run ensures !Overlaps(cfg, t, run, job) {
        if TimelyRun(cfg, t, run) && CanRun(cfg, t, run) && !LeaseShared(cfg, t, run, job) {
          NextExact(cfg, s, a);
          NextSingle(cfg, s, a, job);
          RunSingle(cfg, t, run, job);
        }
      }
    }
  }

  /** The same for all timely runs from the start, up to the first such failure. */
  lemma FirstOverlapIsExact(cfg: Config, now: int, run: seq<Action>, a: Action, job: JobId)
    requires TimelyRun(cfg, Start(now), run) && CanRun(cfg, Start(now), run) && !LeaseShared(cfg, Start(now), run, job)
    requires Enabled(Run(cfg, Start(now), run), a)
    ensures
      var s := Run(cfg, Start(now), run);
      (exists rest :: Overlaps(cfg, Next(cfg, s, a), rest, job)) <==> Shares(s, a, job)
  {
    RunExact(cfg, Start(now), run);
    RunSingle(cfg, Start(now), run, job);
    OverlapIsExact(cfg, Run(cfg, Start(now), run), a, job);
  }

  /******* Runs from the start *******/

  const CFG: Config := Config(5, 100, 1000, 10, 100000)
  const ENV := Envelope(7, GROUP_SUMMARY_RECOMPUTE, "group", 0, "2024-01-01T00:00:00.000Z")

  lemma TimelyFirst(s: State, a: Action, rest: seq<Action>)
    requires Timely(s) && Enabled(s, a) && TimelyRun(CFG, Next(CFG, s, a), rest)
    ensures TimelyRun(CFG, s, [a] + rest) && CanRun(CFG, s, [a] + rest)
    ensures CanRun(CFG, Next(CFG, s, a), rest)
    ensures Run(CFG, s, [a] + rest) == Run(CFG, Next(CFG, s, a), rest)
  {
    assert ([a] + rest)[1..] == rest;
    TimelyRunsRun(CFG, Next(CFG, s, a), rest);
  }

  /** The run leads from s to t and is timely throughout. */
  ghost predicate Leads(s: State, run: seq<Action>, t: State) {
    TimelyRun(CFG, s, run) && CanRun(CFG, s, run) && Run(CFG, s, run) == t
  }

  lemma LeadsFirst(s: State, a: Action, rest: seq<Action>, t: State)
    requires Timely(s) && Enabled(s, a) && Leads(Next(CFG, s, a), rest, t)
    ensures Leads(s, [a] + rest, t)
  {
    TimelyFirst(s, a, rest);
  }

  lemma {:induction false} LeadsOn(s: State, first: seq<Action>, t: State, rest: seq<Action>, u: State)
    requires Leads(s, first, t) && Leads(t, rest, u)
    ensures Leads(s, first + rest, u)
    decreases |first|
  {
    if first == [] {
      assert first + rest == rest;
    } else {
      LeadsOn(Next(CFG, s, first[0]), first[1..], t, rest, u);
      LeadsFirst(s, first[0], first[1..] + rest, u);
      assert [first[0]] + (first[1..] + rest) == first + rest;
    }
  }

  /** Worker 0 has run job 7 to success and taken it out of the set; worker 1 had looked the job up before. */
  function Acknowledged(): State {
    State(Store(0, map[], map[7 := Entry(Serialize(ENV), 100000)], map[7 := Entry(0, 10)]),
          map[0 := Clearing(Claim(7, 0, 10), Succeeded(ENV)), 1 := Found(7)], {}, 1,
          History({7}, {7}, {7}, {}, {}, map[], map[]))
  }

  const SETUP := [EnqueueWrite(7, "group", "2024-01-01T00:00:00.000Z"), EnqueueAdd(7, 0), Poll(0, 0, Some(7)), Poll(1, 0, Some(7))]
  const WORK := [Command(0, 0), Command(0, 0), Handler(0, Succeed), Command(0, 0)]

  function Waiting(): State {
    State(Store(0, map[7 := 0], map[7 := Entry(Serialize(ENV), 100000)], map[]),
          map[0 := Found(7), 1 := Found(7)], {}, 0, History({7}, {7}, {}, {}, {}, map[], map[]))
  }

  lemma ReachWaiting()
    ensures Leads(Start(0), SETUP, Waiting())
  {
    var s1 := Next(CFG, Start(0), SETUP[0]);
    var s2 := Next(CFG, s1, SETUP[1]);
    var s3 := Next(CFG, s2, SETUP[2]);
    assert Next(CFG, s3, SETUP[3]) == Waiting();
    LeadsFirst(s3, SETUP[3], [], Waiting());
    LeadsFirst(s2, SETUP[2], SETUP[3..], Waiting());
    LeadsFirst(s1, SETUP[1], SETUP[2..], Waiting());
    LeadsFirst(Start(0), SETUP[0], SETUP[1..], Waiting());
  }

  function AtWork(): State {
    State(Store(0, map[7 := 0], map[7 := Entry(Serialize(ENV), 100000)], map[7 := Entry(0, 10)]),
          map[0 := Running(Claim(7, 0, 10), ENV), 1 := Found(7)], {}, 1, History({7}, {7}, {}, {}, {}, map[], map[]))
  }

  lemma ReachAtWork()
    ensures Leads(Waiting(), WORK[..2], AtWork())
  {
    var s1 := Next(CFG, Waiting(), WORK[0]);
    ParseInvertsSerialize(Serialize(ENV), GROUP_SUMMARY_RECOMPUTE, 7, ENV);
    assert Next(CFG, s1, WORK[1]) == AtWork();
    LeadsFirst(s1, WORK[1], [], AtWork());
    LeadsFirst(Waiting(), WORK[0], [WORK[1]] + [], AtWork());
    assert WORK[..2] == [WORK[0]] + ([WORK[1]] + []);
  }

  lemma ReachAcknowledged()
    ensures Leads(Start(0), SETUP + WORK, Acknowledged())
  {
    var s3 := Next(CFG, AtWork(), WORK[2]);
    assert Next(CFG, s3, WORK[3]) == Acknowledged();
    LeadsFirst(s3, WORK[3], [], Acknowledged());
    LeadsFirst(AtWork(), WORK[2], [WORK[3]] + [], Acknowledged());
    assert WORK == WORK[..2] + ([WORK[2]] + ([WORK[3]] + []));
    ReachAtWork();
    LeadsOn(Waiting(), WORK[..2], AtWork(), [WORK[2]] + ([WORK[3]] + []), Acknowledged());
    ReachWaiting();
    LeadsOn(Start(0), SETUP, Waiting(), WORK, Acknowledged());
  }

  /** The retry of a claim on job 7: GET, SET and ZADD put it back, whatever was acknowledged before. */
  lemma RetryPutsBack(s: State, w: Worker, c: Claim) returns (run: seq<Action>, t: State)
    requires Timely(s) && PcOf(s, w) == Rereading(c, 1) && w in s.pcs && c.job == 7 && s.store.now >= 0
    requires Live(s.store.data, 7, s.store.now) && s.store.data[7].value == Serialize(ENV) && 7 in s.past.acked
    ensures Leads(s, run, t) && (forall a <- run :: a.Command?)
    ensures 7 in t.past.acked && 7 in t.store.queue
  {
    ParseInvertsSerialize(Serialize(ENV), GROUP_SUMMARY_RECOMPUTE, 7, ENV);
    var a := Command(w, 0);
    var s1 := Next(CFG, s, a);
    assert PcOf(s1, w) == Rewriting(c, 1, ENV);
    var s2 := Next(CFG, s1, a);
    assert PcOf(s2, w) == Rescheduling(c, 1);
    t := Next(CFG, s2, a);
    assert PcOf(t, w) == Releasing(c);
    LeadsFirst(s2, a, [], t);
    LeadsFirst(s1, a, [a] + [], t);
    LeadsFirst(s, a, [a] + ([a] + []), t);
    run := [a] + ([a] + ([a] + []));
  }

  /** A command that fails inside complete(), after its ZREM, sends the worker into the retry path. */
  lemma FailedCompleteRevives() returns (run: seq<Action>)
    ensures TimelyRun(CFG, Start(0), run) && CanRun(CFG, Start(0), run) && (forall a <- run :: !a.Crash?)
    ensures 7 in Run(CFG, Start(0), run).past.acked && 7 in Run(CFG, Start(0), run).store.queue
  {
    ReachAcknowledged();
    var s := Next(CFG, Acknowledged(), Fault(0, false));
    var rest, t := RetryPutsBack(s, 0, Claim(7, 0, 10));
    LeadsFirst(Acknowledged(), Fault(0, false), rest, t);
    run := (SETUP + WORK) + ([Fault(0, false)] + rest);
    LeadsOn(Start(0), SETUP + WORK, Acknowledged(), [Fault(0, false)] + rest, t);
  }

  /** Worker 0 crashed before its DEL and its lease has run out; worker 1 still means to claim job 7. */
  function Abandoned(): State {
    State(Store(10, map[], map[7 := Entry(Serialize(ENV), 100000)], map[7 := Entry(0, 10)]),
          map[0 := Idle, 1 := Found(7)], {}, 1, History({7}, {7}, {7}, {}, {}, map[], map[]))
  }

  lemma ReachAbandoned()
    ensures Leads(Start(0), (SETUP + WORK) + [Crash(0), Advance(10)], Abandoned())
  {
    var s1 := Next(CFG, Acknowledged(), Crash(0));
    assert Next(CFG, s1, Advance(10)) == Abandoned();
    LeadsFirst(s1, Advance(10), [], Abandoned());
    LeadsFirst(Acknowledged(), Crash(0), [Advance(10)], Abandoned());
    assert [Crash(0)] + [Advance(10)] == [Crash(0), Advance(10)];
    ReachAcknowledged();
    LeadsOn(Start(0), SETUP + WORK, Acknowledged(), [Crash(0), Advance(10)], Abandoned());
  }

  lemma AbandonedRetries() returns (run: seq<Action>, t: State)
    ensures Leads(Abandoned(), run, t) && (forall a <- run :: !a.Fault?)
    ensures 7 in t.past.acked && 7 in t.store.queue
  {
    ParseInvertsSerialize(Serialize(ENV), GROUP_SUMMARY_RECOMPUTE, 7, ENV);
    var a := Command(1, 0);
    var s1 := Next(CFG, Abandoned(), a);
    assert PcOf(s1, 1) == Leased(Claim(7, 1, 20));
    var s2 := Next(CFG, s1, a);
    assert PcOf(s2, 1) == Running(Claim(7, 1, 20), ENV);
    var rest, u := RetryPutsBack(Next(CFG, s2, Handler(1, Failure)), 1, Claim(7, 1, 20));
    t := u;
    LeadsFirst(s2, Handler(1, Failure), rest, t);
    run := [Handler(1, Failure)] + rest;
    LeadsFirst(s1, a, run, t);
    run := [a] + run;
    LeadsFirst(Abandoned(), a, run, t);
    run := [a] + run;
  }

  /** A crash between ZREM and DEL leaves the payload behind; a worker that had found the job earlier then runs it again. */
  lemma CrashedClosingRevives() returns (run: seq<Action>)
    ensures TimelyRun(CFG, Start(0), run) && CanRun(CFG, Start(0), run) && (forall a <- run :: !a.Fault?)
    ensures 7 in Run(CFG, Start(0), run).past.acked && 7 in Run(CFG, Start(0), run).store.queue
  {
    var rest, t := AbandonedRetries();
    ReachAbandoned();
    run := (SETUP + WORK) + [Crash(0), Advance(10)] + rest;
    LeadsOn(Start(0), (SETUP + WORK) + [Crash(0), Advance(10)], Abandoned(), rest, t);
  }

  lemma LostReplyLeads() returns (run: seq<Action>, t: State)
    ensures Leads(Acknowledged(), run, t) && 0 in t.pcs && 1 in t.pcs && On(t.pcs[0], 7) && On(t.pcs[1], 7)
  {
    var s1 := Next(CFG, Acknowledged(), Fault(0, true));
    t := Next(CFG, s1, Command(1, 0));
    assert PcOf(s1, 0) == Rereading(Claim(7, 0, 10), 1) && PcOf(t, 1) == Leased(Claim(7, 1, 10));
    LeadsFirst(s1, Command(1, 0), [], t);
    LeadsFirst(Acknowledged(), Fault(0, true), [Command(1, 0)] + [], t);
    run := [Fault(0, true)] + ([Command(1, 0)] + []);
  }

  /** Worker 0's DEL has taken effect but was reported as failed; worker 1 is granted the lease meanwhile. */
  lemma LostReplyOverlaps() returns (run: seq<Action>)
    ensures TimelyRun(CFG, Start(0), run) && CanRun(CFG, Start(0), run) && Overlap(Run(CFG, Start(0), run), 7)
  {
    var rest, t := LostReplyLeads();
    ReachAcknowledged();
    run := (SETUP + WORK) + rest;
    LeadsOn(Start(0), SETUP + WORK, Acknowledged(), rest, t);
  }
}
