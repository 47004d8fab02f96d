/**
 What holds when claims end before their leases do: exact attempt counts and bounded delay in every run;
 one worker at a time on a job, and no return of a job that was taken out of the queue, up to the one
 kind of closing failure that undoes each.
 */
module JobExclusion {
  import opened Common
  import opened JobTypes
  import opened JobProtocol

  /** Every worker's current claim ends later than now. */
  ghost predicate Timely(s: State) {
    forall w <- s.pcs :: Holds(s.pcs[w]) ==> s.store.now < s.pcs[w].claim.until
  }

  ghost predicate TimelyRun(cfg: Config, s: State, run: seq<Action>)
    decreases |run|
  {
    Timely(s) && (run != [] ==> Enabled(s, run[0]) && TimelyRun(cfg, Next(cfg, s, run[0]), run[1..]))
  }

  lemma {:induction false} TimelyRunsRun(cfg: Config, s: State, run: seq<Action>)
    requires TimelyRun(cfg, s, run)
    ensures CanRun(cfg, s, run)
    decreases |run|
  {
    if run != [] { TimelyRunsRun(cfg, Next(cfg, s, run[0]), run[1..]); }
  }

  function Removed(past: History): set<JobId> { past.acked + past.dropped }

  function Failures(s: State, job: JobId): nat { Lookup(s.past.failures, job, 0) }

  function Delayed(s: State, job: JobId): int { Lookup(s.past.delayed, job, 0) }

  predicate On(pc: Pc, job: JobId) { Holds(pc) && pc.claim.job == job }

  /******* Closing failures *******/

  /** The DEL of a job's payload and lease takes effect but is reported as failed: its worker goes on without the lease. */
  predicate LosesLease(s: State, a: Action, job: JobId) {
    a.Fault? && a.applied && PcOf(s, a.w).Clearing? && PcOf(s, a.w).claim.job == job
  }

  /** The job's payload can be read and leaves room for another failure. */
  predicate Retriable(cfg: Config, s: State, job: JobId) {
    ReadEnvelope(s.store, job).Some? && ReadEnvelope(s.store, job).value.attempts + 1 < cfg.maxAttempts
  }

  /**
   The closing stops where the ZREM has taken effect and the DEL has not, while the job is retriable:
   by a command that fails inside the try block, or by a crash when another worker has already found
   the job and the payload outlives the lease left behind.
   */
  predicate Reopens(cfg: Config, s: State, a: Action, job: JobId) {
    match a
    case Fault(w, applied) =>
      var pc := PcOf(s, w);
      (pc.Removing? || pc.Clearing?) && pc.claim.job == job && (pc.Removing? <==> applied) && Retriable(cfg, s, job)
    case Crash(w) =>
      var pc := PcOf(s, w);
      && pc.Clearing? && pc.claim.job == job && Retriable(cfg, s, job)
      && pc.claim.until < s.store.data[job].expiresAt
      && exists v <- s.pcs :: s.pcs[v] == Found(job)
    case _ => false
  }

  /** A DEL reply of this job is lost while another worker has already found the job. */
  predicate Shares(s: State, a: Action, job: JobId) {
    LosesLease(s, a, job) && exists v <- s.pcs :: s.pcs[v] == Found(job)
  }

  /** Some step of the run is such a failure. */
  ghost predicate LeaseShared(cfg: Config, s: State, run: seq<Action>, job: JobId)
    requires CanRun(cfg, s, run)
    decreases |run|
  {
    run != [] && (Shares(s, run[0], job) || LeaseShared(cfg, Next(cfg, s, run[0]), run[1..], job))
  }

  ghost predicate Reopened(cfg: Config, s: State, run: seq<Action>, job: JobId)
    requires CanRun(cfg, s, run)
    decreases |run|
  {
    run != [] && (Reopens(cfg, s, run[0], job) || Reopened(cfg, Next(cfg, s, run[0]), run[1..], job))
  }

  /******* One worker on a job *******/

  /** At most one worker works on the job, and the lease key holds its token. */
  ghost predicate ExclusiveOn(s: State, job: JobId) {
    && (forall v <- s.pcs, w <- s.pcs :: v != w && On(s.pcs[v], job) ==> !On(s.pcs[w], job))
    && (forall w <- s.pcs :: On(s.pcs[w], job) ==>
          job in s.store.leases && s.store.leases[job] == Entry(s.pcs[w].claim.token, s.pcs[w].claim.until))
  }

  /** The worker neither runs the job's handler nor carries its payload: it has not read it, or is done with it. */
  predicate Blind(pc: Pc) {
    && !pc.Running? && !pc.Rewriting? && !pc.Rescheduling?
    && (pc.Removing? || pc.Clearing? ==> !pc.why.Succeeded? && !pc.why.Invalid?)
  }

  /** The payload is deleted and nobody is left who could write it again. */
  ghost predicate Gone(s: State, job: JobId) {
    && job in s.past.queued && job !in s.store.data
    && (forall w <- s.pcs :: On(s.pcs[w], job) ==> Blind(s.pcs[w]))
  }

  ghost predicate Guarded(s: State, job: JobId) { Gone(s, job) || ExclusiveOn(s, job) }

  ghost predicate AllGuarded(s: State) { forall j :: Guarded(s, j) }

  /** The stored count is the number of recorded failures. */
  ghost predicate AttemptsExact(s: State) {
    forall j <- s.store.data ::
      var env := ParseEnvelope(s.store.data[j].value, GROUP_SUMMARY_RECOMPUTE, j);
      env.Some? && env.value.attempts == Failures(s, j)
  }

  ghost predicate BudgetKept(cfg: Config, s: State) {
    && (forall j <- s.past.failures :: s.past.failures[j] < cfg.maxAttempts && j in s.past.used)
    && (forall j <- s.past.delayed :: j in s.past.used)
  }

  predicate PcExact(cfg: Config, s: State, pc: Pc) {
    match pc
    case Idle => true
    case Found(job) => job in s.past.queued
    case Leased(c) => c.job in s.past.queued
    case Running(c, env) => c.job in s.past.queued && env.attempts == Failures(s, c.job)
    case Removing(c, why) =>
      && c.job in s.past.queued
      && (why.Unreadable? ==> !Live(s.store.data, c.job, s.store.now))
      && (why.Succeeded? || why.Invalid? ==> why.env.attempts == Failures(s, c.job))
    case Clearing(c, why) =>
      && c.job in s.past.queued && c.job in Removed(s.past)
      && (why.Succeeded? || why.Invalid? ==> why.env.attempts == Failures(s, c.job))
    case Rereading(c, n) => c.job in s.past.queued && n == Failures(s, c.job) + 1 && n < cfg.maxAttempts
    case Rewriting(c, n, env) =>
      && c.job in s.past.queued && n == Failures(s, c.job) + 1 && n < cfg.maxAttempts
      && env.jobId == c.job && env.jobType == GROUP_SUMMARY_RECOMPUTE
    case Rescheduling(c, n) => c.job in s.past.queued && n == Failures(s, c.job) && n > 0
    case Dropping(c) => c.job in s.past.queued && !Live(s.store.data, c.job, s.store.now)
    case Releasing(c) => c.job in s.past.queued
  }

  ghost predicate PcsExact(cfg: Config, s: State) {
    forall w <- s.pcs :: PcExact(cfg, s, s.pcs[w])
  }

  predicate DelayBounded(cfg: Config, s: State, job: JobId) {
    Delayed(s, job) <= TotalDelay(cfg, Failures(s, job))
  }

  /** A worker that has rewritten the payload but not yet scheduled the retry owes one delay. */
  predicate OwesDelay(cfg: Config, s: State, pc: Pc) {
    pc.Rescheduling? ==> pc.attempts > 0 && Delayed(s, pc.claim.job) <= TotalDelay(cfg, pc.attempts - 1)
  }

  ghost predicate DelaysBounded(cfg: Config, s: State) {
    && (forall j :: DelayBounded(cfg, s, j))
    && (forall w <- s.pcs :: OwesDelay(cfg, s, s.pcs[w]))
  }

  predicate Members(s: State) {
    && s.store.queue.Keys <= s.past.queued
    && s.past.queued <= s.past.used
    && s.pending !! s.past.queued
    && s.pending <= s.past.used
    && s.store.data.Keys <= s.past.used
    && Removed(s.past) <= s.past.queued
  }

  ghost predicate Exact(cfg: Config, s: State) {
    AllGuarded(s) && AttemptsExact(s) && BudgetKept(cfg, s) && PcsExact(cfg, s) && Members(s)
  }

  /** A worker's command touches its own job only. */
  lemma ExecuteFrame(cfg: Config, s: State, w: Worker, clock: int, job: JobId)
    requires !On(PcOf(s, w), job)
    ensures
      var s' := Execute(cfg, s, w, clock);
      && s'.past.queued == s.past.queued && s'.store.now == s.store.now
      && (job in s'.store.data <==> job in s.store.data)
      && (job in s.store.data ==> s'.store.data[job] == s.store.data[job])
      && (job in s'.store.queue <==> job in s.store.queue)
      && Failures(s', job) == Failures(s, job) && Delayed(s', job) == Delayed(s, job)
      && (job in Removed(s'.past) <==> job in Removed(s.past))
  {
    match PcOf(s, w)
    case Found(_) =>
    case Removing(_, _) =>
    case Dropping(_) =>
    case _ =>
  }

  lemma ExecuteExclusiveOn(cfg: Config, s: State, w: Worker, clock: int, job: JobId)
    requires ExclusiveOn(s, job) && Timely(s)
    ensures ExclusiveOn(Execute(cfg, s, w, clock), job)
  {
    match PcOf(s, w)
    case Found(_) =>
    case Clearing(_, _) =>
    case Releasing(_) =>
    case Leased(_) =>
    case Rereading(_, _) =>
    case _ =>
  }

  lemma ExecuteGone(cfg: Config, s: State, w: Worker, clock: int, job: JobId)
    requires Gone(s, job)
    ensures Gone(Execute(cfg, s, w, clock), job)
  {
    var pc := PcOf(s, w);
    if On(pc, job) { assert Blind(pc); } else { ExecuteFrame(cfg, s, w, clock, job); }
    match pc
    case Found(_) =>
    case Leased(_) =>
    case Rereading(_, _) =>
    case Removing(_, _) =>
    case _ =>
  }

  lemma ExecuteGuarded(cfg: Config, s: State, w: Worker, clock: int)
    requires AllGuarded(s) && Timely(s)
    ensures AllGuarded(Execute(cfg, s, w, clock))
  {
    forall j ensures Guarded(Execute(cfg, s, w, clock), j) {
      assert Guarded(s, j);
      if Gone(s, j) { ExecuteGone(cfg, s, w, clock, j); } else { ExecuteExclusiveOn(cfg, s, w, clock, j); }
    }
  }

  lemma ExecuteAttempts(cfg: Config, s: State, w: Worker, clock: int)
    requires AttemptsExact(s) && PcExact(cfg, s, PcOf(s, w))
    ensures AttemptsExact(Execute(cfg, s, w, clock))
  {
    var pc := PcOf(s, w);
    if pc.Rewriting? {
      var env := pc.env.(attempts := pc.attempts);
      ParseInvertsSerialize(Serialize(env), GROUP_SUMMARY_RECOMPUTE, pc.claim.job, env);
    }
  }

  lemma ExecuteBooks(cfg: Config, s: State, w: Worker, clock: int)
    requires BudgetKept(cfg, s) && Members(s) && PcExact(cfg, s, PcOf(s, w))
    ensures BudgetKept(cfg, Execute(cfg, s, w, clock)) && Members(Execute(cfg, s, w, clock))
  {
    match PcOf(s, w)
    case Removing(_, _) =>
    case Dropping(_) =>
    case Rewriting(_, _, _) =>
    case Rescheduling(_, _) =>
    case _ =>
  }

  lemma ExecuteOwnPc(cfg: Config, s: State, w: Worker, clock: int)
    requires AttemptsExact(s) && PcExact(cfg, s, PcOf(s, w))
    ensures PcExact(cfg, Execute(cfg, s, w, clock), PcOf(Execute(cfg, s, w, clock), w))
  {
    match PcOf(s, w)
    case Leased(_) =>
    case Removing(_, _) =>
    case Rereading(_, _) =>
    case Rewriting(_, _, _) =>
    case _ =>
  }

  /** Where two workers are on one job, its payload is gone and the other's command leaves what this one relies on. */
  lemma ExecuteOtherPc(cfg: Config, s: State, w: Worker, clock: int, v: Worker)
    requires AllGuarded(s) && v != w && v in s.pcs && w in s.pcs && PcExact(cfg, s, s.pcs[v])
    ensures PcExact(cfg, Execute(cfg, s, w, clock), s.pcs[v])
  {
    var pc := s.pcs[v];
    if Holds(pc) {
      var job := pc.claim.job;
      assert Guarded(s, job);
      if On(PcOf(s, w), job) {
        assert Blind(PcOf(s, w)) && Blind(pc) && job !in s.store.data;
        ExecuteBlind(cfg, s, w, clock, job);
      } else {
        ExecuteFrame(cfg, s, w, clock, job);
      }
    }
  }

  lemma ExecuteBlind(cfg: Config, s: State, w: Worker, clock: int, job: JobId)
    requires On(PcOf(s, w), job) && Blind(PcOf(s, w)) && job !in s.store.data
    ensures
      var s' := Execute(cfg, s, w, clock);
      && s'.past.queued == s.past.queued && job !in s'.store.data
      && Failures(s', job) == Failures(s, job) && Delayed(s', job) == Delayed(s, job)
      && (job in Removed(s.past) ==> job in Removed(s'.past))
  {
    match PcOf(s, w)
    case Leased(_) =>
    case Removing(_, _) =>
    case Clearing(_, _) =>
    case Dropping(_) =>
    case _ =>
  }

  lemma ExecutePcs(cfg: Config, s: State, w: Worker, clock: int)
    requires Exact(cfg, s)
    ensures PcsExact(cfg, Execute(cfg, s, w, clock))
  {
    var s' := Execute(cfg, s, w, clock);
    forall v <- s'.pcs ensures PcExact(cfg, s', s'.pcs[v]) {
      if v == w {
        ExecuteOwnPc(cfg, s, w, clock);
      } else if w in s.pcs {
        ExecuteOtherPc(cfg, s, w, clock, v);
      }
    }
  }

  lemma ExecuteExact(cfg: Config, s: State, w: Worker, clock: int)
    requires Exact(cfg, s) && Timely(s)
    ensures Exact(cfg, Execute(cfg, s, w, clock))
  {
    assert PcExact(cfg, s, PcOf(s, w));
    ExecuteGuarded(cfg, s, w, clock);
    ExecuteAttempts(cfg, s, w, clock);
    ExecuteBooks(cfg, s, w, clock);
    ExecutePcs(cfg, s, w, clock);
  }

  /******* Delays *******/

  lemma ExecuteDelay(cfg: Config, s: State, w: Worker, clock: int, job: JobId)
    requires DelayBounded(cfg, s, job) && OwesDelay(cfg, s, PcOf(s, w)) && PcExact(cfg, s, PcOf(s, w))
    ensures DelayBounded(cfg, Execute(cfg, s, w, clock), job)
    ensures OwesDelay(cfg, Execute(cfg, s, w, clock), PcOf(Execute(cfg, s, w, clock), w)) || !On(PcOf(s, w), job)
  {
    var pc := PcOf(s, w);
    if !On(pc, job) {
      ExecuteFrame(cfg, s, w, clock, job);
    } else if pc.Rewriting? {
      BackoffPositive(cfg, pc.attempts);
    }
  }

  lemma ExecuteOwesDelay(cfg: Config, s: State, w: Worker, clock: int, v: Worker)
    requires AllGuarded(s) && v in s.pcs && w in s.pcs && v != w && OwesDelay(cfg, s, s.pcs[v])
    ensures OwesDelay(cfg, Execute(cfg, s, w, clock), s.pcs[v])
  {
    if s.pcs[v].Rescheduling? {
      var job := s.pcs[v].claim.job;
      assert Guarded(s, job);
      ExecuteFrame(cfg, s, w, clock, job);
    }
  }

  lemma ExecuteDelays(cfg: Config, s: State, w: Worker, clock: int)
    requires Exact(cfg, s) && DelaysBounded(cfg, s)
    ensures DelaysBounded(cfg, Execute(cfg, s, w, clock))
  {
    var s' := Execute(cfg, s, w, clock);
    var pc := PcOf(s, w);
    assert PcExact(cfg, s, pc) && OwesDelay(cfg, s, pc);
    forall j ensures DelayBounded(cfg, s', j) {
      assert DelayBounded(cfg, s, j);
      ExecuteDelay(cfg, s, w, clock, j);
    }
    forall v <- s'.pcs ensures OwesDelay(cfg, s', s'.pcs[v]) {
      if v != w {
        if w in s.pcs { ExecuteOwesDelay(cfg, s, w, clock, v); }
      } else if Holds(pc) {
        assert DelayBounded(cfg, s, pc.claim.job);
        ExecuteDelay(cfg, s, w, clock, pc.claim.job);
      }
    }
  }

  /******* Every step *******/

  /** Steps that change neither the store nor the history, only one worker's place. */
  predicate Follows(s: State, w: Worker, pc: Pc) {
    && (Holds(pc) ==> Holds(PcOf(s, w)) && pc.claim == PcOf(s, w).claim)
    && (Holds(pc) && Blind(PcOf(s, w)) ==> Blind(pc))
  }

  lemma GotoExclusiveOn(s: State, w: Worker, pc: Pc, job: JobId)
    requires ExclusiveOn(s, job) && Follows(s, w, pc)
    ensures ExclusiveOn(Goto(s, w, pc), job)
  {
  }

  lemma GotoExact(cfg: Config, s: State, w: Worker, pc: Pc)
    requires Exact(cfg, s) && DelaysBounded(cfg, s)
    requires PcExact(cfg, s, pc) && !pc.Rescheduling? && Follows(s, w, pc)
    ensures Exact(cfg, Goto(s, w, pc)) && DelaysBounded(cfg, Goto(s, w, pc))
  {
    var s' := Goto(s, w, pc);
    forall j ensures Guarded(s', j) && DelayBounded(cfg, s', j) {
      assert Guarded(s, j) && DelayBounded(cfg, s, j);
      if !Gone(s, j) { GotoExclusiveOn(s, w, pc, j); }
    }
    forall v <- s'.pcs ensures PcExact(cfg, s', s'.pcs[v]) && OwesDelay(cfg, s', s'.pcs[v]) {
      assert v == w || (PcExact(cfg, s, s.pcs[v]) && OwesDelay(cfg, s, s.pcs[v]));
    }
  }

  predicate Outside(a: Action) { a.Advance? || a.EnqueueWrite? || a.EnqueueAdd? }

  lemma OutsideGuarded(cfg: Config, s: State, a: Action)
    requires AllGuarded(s) && Members(s) && Enabled(s, a) && Outside(a)
    ensures AllGuarded(Next(cfg, s, a))
  {
    var s' := Next(cfg, s, a);
    forall j ensures Guarded(s', j) {
      assert Guarded(s, j);
      assert ExclusiveOn(s, j) ==> ExclusiveOn(s', j);
      assert Gone(s, j) ==> Gone(s', j);
    }
  }

  /** Steps that move no worker: time passing and producers. */
  lemma OutsideExact(cfg: Config, s: State, a: Action)
    requires Exact(cfg, s) && Enabled(s, a) && Outside(a)
    ensures Exact(cfg, Next(cfg, s, a))
  {
    var s' := Next(cfg, s, a);
    OutsideGuarded(cfg, s, a);
    if a.EnqueueWrite? {
      var env := Envelope(a.job, GROUP_SUMMARY_RECOMPUTE, a.payload, 0, a.createdAt);
      ParseInvertsSerialize(Serialize(env), GROUP_SUMMARY_RECOMPUTE, a.job, env);
    }
    forall w <- s'.pcs ensures PcExact(cfg, s', s'.pcs[w]) {
      assert PcExact(cfg, s, s.pcs[w]);
    }
  }

  lemma OutsideDelays(cfg: Config, s: State, a: Action)
    requires DelaysBounded(cfg, s) && Enabled(s, a) && Outside(a)
    ensures DelaysBounded(cfg, Next(cfg, s, a))
  {
    var s' := Next(cfg, s, a);
    forall j ensures DelayBounded(cfg, s', j) {
      assert DelayBounded(cfg, s, j);
    }
    forall w <- s'.pcs ensures OwesDelay(cfg, s', s'.pcs[w]) {
      assert OwesDelay(cfg, s, s.pcs[w]);
    }
  }

  /** A failing command that had no effect only moves the worker into the catch block. */
  lemma CatchExact(cfg: Config, s: State, w: Worker)
    requires Exact(cfg, s) && DelaysBounded(cfg, s) && Enabled(s, Fault(w, false))
    ensures
      var s' := Goto(s, w, Catch(cfg, PcOf(s, w).claim, PcOf(s, w).why.env));
      Exact(cfg, s') && DelaysBounded(cfg, s')
  {
    assert PcExact(cfg, s, PcOf(s, w));
    GotoExact(cfg, s, w, Catch(cfg, PcOf(s, w).claim, PcOf(s, w).why.env));
  }

  /** At the ZREM, the catch block is entered from the place after it. */
  lemma RemovingFaultExact(cfg: Config, s: State, w: Worker)
    requires Exact(cfg, s) && DelaysBounded(cfg, s) && Timely(s) && Enabled(s, Fault(w, true)) && PcOf(s, w).Removing?
    ensures Exact(cfg, Next(cfg, s, Fault(w, true))) && DelaysBounded(cfg, Next(cfg, s, Fault(w, true)))
  {
    var t := Execute(cfg, s, w, s.store.now);
    assert PcExact(cfg, s, PcOf(s, w));
    ExecuteExact(cfg, s, w, s.store.now);
    ExecuteDelays(cfg, s, w, s.store.now);
    assert PcOf(t, w) == Clearing(PcOf(s, w).claim, PcOf(s, w).why) && Enabled(t, Fault(w, false));
    CatchExact(cfg, t, w);
  }

  /** At the DEL, the payload and the lease are gone and nobody else is on the job. */
  lemma ClearingFaultGuarded(cfg: Config, s: State, w: Worker)
    requires AllGuarded(s) && PcsExact(cfg, s) && Timely(s) && Enabled(s, Fault(w, true)) && PcOf(s, w).Clearing?
    ensures AllGuarded(Next(cfg, s, Fault(w, true)))
  {
    var s' := Next(cfg, s, Fault(w, true));
    var job := PcOf(s, w).claim.job;
    assert PcExact(cfg, s, PcOf(s, w)) && Guarded(s, job) && !Blind(PcOf(s, w));
    forall j ensures Guarded(s', j) {
      assert Guarded(s, j);
      if j == job {
        assert Gone(s', j);
      } else if Gone(s, j) {
        assert Gone(s', j);
      } else {
        assert ExclusiveOn(s', j);
      }
    }
  }

  lemma ClearingFaultExact(cfg: Config, s: State, w: Worker)
    requires Exact(cfg, s) && DelaysBounded(cfg, s) && Timely(s) && Enabled(s, Fault(w, true)) && PcOf(s, w).Clearing?
    ensures Exact(cfg, Next(cfg, s, Fault(w, true))) && DelaysBounded(cfg, Next(cfg, s, Fault(w, true)))
  {
    var s' := Next(cfg, s, Fault(w, true));
    assert PcExact(cfg, s, PcOf(s, w));
    ClearingFaultGuarded(cfg, s, w);
    ExecutePcs(cfg, s, w, s.store.now);
    ExecuteDelays(cfg, s, w, s.store.now);
    var t := Execute(cfg, s, w, s.store.now);
    forall v <- s'.pcs ensures PcExact(cfg, s', s'.pcs[v]) && OwesDelay(cfg, s', s'.pcs[v]) {
      assert v == w || (PcExact(cfg, t, t.pcs[v]) && OwesDelay(cfg, t, t.pcs[v]));
    }
    forall j ensures DelayBounded(cfg, s', j) {
      assert DelayBounded(cfg, t, j);
    }
  }

  lemma NextExact(cfg: Config, s: State, a: Action)
    requires Exact(cfg, s) && DelaysBounded(cfg, s) && Timely(s) && Enabled(s, a)
    ensures Exact(cfg, Next(cfg, s, a)) && DelaysBounded(cfg, Next(cfg, s, a))
  {
    match a
    case Command(w, clock) =>
      ExecuteExact(cfg, s, w, clock);
      ExecuteDelays(cfg, s, w, clock);
    case Poll(w, _, pick) => GotoExact(cfg, s, w, if pick.Some? then Found(pick.value) else Idle);
    case Handler(w, outcome) => HandlerExact(cfg, s, w, outcome);
    case Crash(w) => GotoExact(cfg, s, w, Idle);
    case Fault(w, applied) =>
      if !applied {
        CatchExact(cfg, s, w);
      } else if PcOf(s, w).Removing? {
        RemovingFaultExact(cfg, s, w);
      } else {
        ClearingFaultExact(cfg, s, w);
      }
    case _ =>
      OutsideExact(cfg, s, a);
      OutsideDelays(cfg, s, a);
  }

  lemma HandlerExact(cfg: Config, s: State, w: Worker, outcome: Outcome)
    requires Exact(cfg, s) && DelaysBounded(cfg, s) && Enabled(s, Handler(w, outcome))
    ensures Exact(cfg, Next(cfg, s, Handler(w, outcome))) && DelaysBounded(cfg, Next(cfg, s, Handler(w, outcome)))
  {
    var pc := PcOf(s, w);
    assert PcExact(cfg, s, pc);
    GotoExact(cfg, s, w, AfterHandler(cfg, pc.claim, pc.env, outcome));
  }

  lemma {:induction false} RunExact(cfg: Config, s: State, run: seq<Action>)
    requires Exact(cfg, s) && DelaysBounded(cfg, s) && TimelyRun(cfg, s, run)
    ensures CanRun(cfg, s, run)
    ensures Exact(cfg, Run(cfg, s, run)) && DelaysBounded(cfg, Run(cfg, s, run)) && Timely(Run(cfg, s, run))
    decreases |run|
  {
    if run != [] {
      NextExact(cfg, s, run[0]);
      RunExact(cfg, Next(cfg, s, run[0]), run[1..]);
    }
  }

  /******* One worker at a time *******/

  lemma NextExclusiveOn(cfg: Config, s: State, a: Action, job: JobId)
    requires ExclusiveOn(s, job) && Timely(s) && Enabled(s, a) && !LosesLease(s, a, job)
    ensures ExclusiveOn(Next(cfg, s, a), job)
  {
    match a
    case Command(w, clock) => ExecuteExclusiveOn(cfg, s, w, clock, job);
    case Fault(w, applied) => ExecuteExclusiveOn(cfg, s, w, s.store.now, job);
    case _ =>
  }

  /** Whoever is about to delete the job's keys has taken it out of the set. */
  predicate ClearsOut(s: State, job: JobId) {
    forall w <- s.pcs :: s.pcs[w].Clearing? && s.pcs[w].claim.job == job ==> job !in s.store.queue
  }

  /** The payload is gone, and nobody can join the one worker that may still be on the job. */
  ghost predicate Lonely(s: State, job: JobId) {
    && Gone(s, job) && job !in s.store.queue
    && (forall v <- s.pcs :: s.pcs[v] != Found(job))
    && (forall v <- s.pcs, w <- s.pcs :: v != w && On(s.pcs[v], job) ==> !On(s.pcs[w], job))
  }

  lemma LostReplyIsLonely(cfg: Config, s: State, a: Action, job: JobId)
    requires Exact(cfg, s) && ExclusiveOn(s, job) && ClearsOut(s, job) && Enabled(s, a)
    requires LosesLease(s, a, job) && !Shares(s, a, job)
    ensures Lonely(Next(cfg, s, a), job)
  {
    assert a.w in s.pcs && PcExact(cfg, s, s.pcs[a.w]);
  }

  lemma ExecuteLonely(cfg: Config, s: State, w: Worker, clock: int, job: JobId)
    requires Lonely(s, job)
    ensures Lonely(Execute(cfg, s, w, clock), job)
  {
    ExecuteGone(cfg, s, w, clock, job);
    if On(PcOf(s, w), job) {
      assert Blind(PcOf(s, w));
      ExecuteBlindQueue(cfg, s, w, clock, job);
    } else {
      ExecuteFrame(cfg, s, w, clock, job);
    }
    ExecuteStays(cfg, s, w, clock, job);
  }

  lemma ExecuteBlindQueue(cfg: Config, s: State, w: Worker, clock: int, job: JobId)
    requires On(PcOf(s, w), job) && Blind(PcOf(s, w)) && job !in s.store.queue
    ensures job !in Execute(cfg, s, w, clock).store.queue
  {
  }

  /** Nobody comes to a job by a command who has not found it. */
  lemma ExecuteStays(cfg: Config, s: State, w: Worker, clock: int, job: JobId)
    requires PcOf(s, w) != Found(job)
    ensures
      var s' := Execute(cfg, s, w, clock);
      && (forall v <- s'.pcs :: v != w ==> v in s.pcs && s'.pcs[v] == s.pcs[v])
      && (w in s'.pcs ==> (On(s'.pcs[w], job) ==> On(PcOf(s, w), job)) && s'.pcs[w] != Found(job))
  {
  }

  lemma GotoLonely(s: State, w: Worker, pc: Pc, job: JobId)
    requires Lonely(s, job) && Follows(s, w, pc) && pc != Found(job)
    ensures Lonely(Goto(s, w, pc), job)
  {
  }

  lemma FaultLonely(cfg: Config, s: State, w: Worker, applied: bool, job: JobId)
    requires Lonely(s, job) && Enabled(s, Fault(w, applied))
    ensures Lonely(Next(cfg, s, Fault(w, applied)), job)
  {
    assert !On(PcOf(s, w), job);
    ExecuteLonely(cfg, s, w, s.store.now, job);
    var t := if applied then Execute(cfg, s, w, s.store.now) else s;
    assert forall v <- t.pcs :: v != w ==> v in s.pcs && t.pcs[v] == s.pcs[v];
  }

  lemma NextLonely(cfg: Config, s: State, a: Action, job: JobId)
    requires Members(s) && Lonely(s, job) && Enabled(s, a)
    ensures Lonely(Next(cfg, s, a), job)
  {
    match a
    case Command(w, clock) => ExecuteLonely(cfg, s, w, clock, job);
    case Fault(w, applied) => FaultLonely(cfg, s, w, applied, job);
    case Poll(w, _, pick) => GotoLonely(s, w, if pick.Some? then Found(pick.value) else Idle, job);
    case Handler(w, outcome) => GotoLonely(s, w, AfterHandler(cfg, PcOf(s, w).claim, PcOf(s, w).env, outcome), job);
    case Crash(w) => GotoLonely(s, w, Idle, job);
    case _ =>
  }

  lemma ExecuteClearsOut(cfg: Config, s: State, w: Worker, clock: int, job: JobId)
    requires ExclusiveOn(s, job) && ClearsOut(s, job)
    ensures ClearsOut(Execute(cfg, s, w, clock), job)
  {
    if !On(PcOf(s, w), job) { ExecuteFrame(cfg, s, w, clock, job); }
    match PcOf(s, w)
    case Removing(_, _) =>
    case Rescheduling(_, _) =>
    case _ =>
  }

  lemma NextClearsOut(cfg: Config, s: State, a: Action, job: JobId)
    requires Exact(cfg, s) && ExclusiveOn(s, job) && ClearsOut(s, job) && Enabled(s, a)
    ensures ClearsOut(Next(cfg, s, a), job)
  {
    match a
    case Command(w, clock) => ExecuteClearsOut(cfg, s, w, clock, job);
    case Fault(w, applied) => ExecuteClearsOut(cfg, s, w, s.store.now, job);
    case EnqueueAdd(j, _) =>
      forall w <- s.pcs ensures s.pcs[w].Clearing? && s.pcs[w].claim.job == job ==> job != j { assert PcExact(cfg, s, s.pcs[w]); }
    case _ =>
  }

  /** One worker at a time: it holds the lease, or nobody can join it any more. */
  ghost predicate Single(s: State, job: JobId) { (ExclusiveOn(s, job) && ClearsOut(s, job)) || Lonely(s, job) }

  lemma NextSingle(cfg: Config, s: State, a: Action, job: JobId)
    requires Exact(cfg, s) && Timely(s) && Enabled(s, a) && Single(s, job) && !Shares(s, a, job)
    ensures Single(Next(cfg, s, a), job)
  {
    if Lonely(s, job) {
      NextLonely(cfg, s, a, job);
    } else if LosesLease(s, a, job) {
      LostReplyIsLonely(cfg, s, a, job);
    } else {
      NextExclusiveOn(cfg, s, a, job);
      NextClearsOut(cfg, s, a, job);
    }
  }

  lemma {:induction false} RunSingle(cfg: Config, s: State, run: seq<Action>, job: JobId)
    requires Exact(cfg, s) && DelaysBounded(cfg, s) && Single(s, job)
    requires TimelyRun(cfg, s, run) && CanRun(cfg, s, run) && !LeaseShared(cfg, s, run, job)
    ensures Single(Run(cfg, s, run), job)
    decreases |run|
  {
    if run != [] {
      NextExact(cfg, s, run[0]);
      NextSingle(cfg, s, run[0], job);
      RunSingle(cfg, Next(cfg, s, run[0]), run[1..], job);
    }
  }

  /******* No return *******/

  predicate Spent(cfg: Config, s: State, job: JobId) { Failures(s, job) + 1 >= cfg.maxAttempts }

  predicate Seeks(pc: Pc, job: JobId) { pc == Found(job) || On(pc, job) }

  /** Nobody works on the job, and its payload ends no later than the lease left on it. */
  ghost predicate Covered(s: State, job: JobId) {
    && (forall w <- s.pcs :: !On(s.pcs[w], job))
    && job in s.store.leases && job in s.store.data && s.store.data[job].expiresAt <= s.store.leases[job].expiresAt
  }

  /** Why a payload that can still be read does no harm: the next failure is the last, or it is about to be
      deleted, or nobody will look at it, or nobody can before it expires. */
  ghost predicate Dormant(cfg: Config, s: State, job: JobId) {
    Live(s.store.data, job, s.store.now) ==>
      || Spent(cfg, s, job)
      || (exists w <- s.pcs :: s.pcs[w].Clearing? && s.pcs[w].claim.job == job)
      || (forall w <- s.pcs :: !Seeks(s.pcs[w], job))
      || Covered(s, job)
  }

  /** No worker on the job is on its way to put it back. */
  predicate Harmless(cfg: Config, s: State, pc: Pc, job: JobId) {
    On(pc, job) ==>
      match pc
      case Running(_, _) => Spent(cfg, s, job)
      case Removing(_, why) => why.Succeeded? || why.Invalid? ==> Spent(cfg, s, job)
      case Rereading(_, _) => !Live(s.store.data, job, s.store.now)
      case Rewriting(_, _, _) => false
      case Rescheduling(_, _) => false
      case _ => true
  }

  ghost predicate StaysOut(cfg: Config, s: State, job: JobId) {
    job in Removed(s.past) ==>
      && job !in s.store.queue && Dormant(cfg, s, job)
      && forall w <- s.pcs :: Harmless(cfg, s, s.pcs[w], job)
  }

  /** A worker that does not look at the job leaves everything about it alone. */
  lemma ElsewhereStaysOut(cfg: Config, s: State, w: Worker, clock: int, job: JobId)
    requires StaysOut(cfg, s, job) && !Seeks(PcOf(s, w), job)
    ensures StaysOut(cfg, Execute(cfg, s, w, clock), job)
  {
    var s' := Execute(cfg, s, w, clock);
    ExecuteFrame(cfg, s, w, clock, job);
    ExecuteLeaseFrame(cfg, s, w, clock, job);
    if job in Removed(s.past) {
      forall v <- s'.pcs ensures Harmless(cfg, s', s'.pcs[v], job) {
        assert v != w ==> Harmless(cfg, s, s.pcs[v], job);
      }
      if v :| v in s.pcs && s.pcs[v].Clearing? && s.pcs[v].claim.job == job {
        assert s'.pcs[v].Clearing?;
      }
    }
  }

  lemma ExecuteLeaseFrame(cfg: Config, s: State, w: Worker, clock: int, job: JobId)
    requires !Seeks(PcOf(s, w), job)
    ensures
      var s' := Execute(cfg, s, w, clock);
      && (job in s'.store.leases <==> job in s.store.leases)
      && (job in s.store.leases ==> s'.store.leases[job] == s.store.leases[job])
      && (w in s'.pcs ==> !Seeks(s'.pcs[w], job))
      && (forall v <- s.pcs :: v in s'.pcs && (v != w ==> s'.pcs[v] == s.pcs[v]))
      && (forall v <- s'.pcs :: v != w ==> v in s.pcs)
  {
    match PcOf(s, w)
    case Found(_) =>
    case Leased(_) =>
    case Clearing(_, _) =>
    case Releasing(_) =>
    case _ =>
  }

  /** A lease on a removed job whose payload is still readable is granted only when its budget is spent. */
  lemma FoundStaysOut(cfg: Config, s: State, w: Worker, clock: int, job: JobId)
    requires AllGuarded(s) && Timely(s) && StaysOut(cfg, s, job) && PcOf(s, w) == Found(job)
    ensures StaysOut(cfg, Execute(cfg, s, w, clock), job)
  {
    var s' := Execute(cfg, s, w, clock);
    if job in Removed(s.past) {
      assert w in s.pcs && Seeks(s.pcs[w], job);
      assert Guarded(s, job);
      if Live(s.store.data, job, s.store.now) && !Spent(cfg, s, job) {
        assert Live(s.store.leases, job, s.store.now);
        if v :| v in s.pcs && s.pcs[v].Clearing? && s.pcs[v].claim.job == job {
          assert s'.pcs[v].Clearing?;
        }
      }
      forall v <- s'.pcs ensures Harmless(cfg, s', s'.pcs[v], job) {
        assert v != w ==> Harmless(cfg, s, s.pcs[v], job);
      }
    }
  }

  /** A worker on the job takes it out, goes on without a payload, or runs it on a spent budget. */
  lemma OwnerStaysOut(cfg: Config, s: State, w: Worker, clock: int, job: JobId)
    requires Exact(cfg, s) && StaysOut(cfg, s, job) && On(PcOf(s, w), job) && job in Removed(s.past)
    ensures StaysOut(cfg, Execute(cfg, s, w, clock), job)
  {
    var s' := Execute(cfg, s, w, clock);
    assert w in s.pcs && Harmless(cfg, s, s.pcs[w], job) && PcExact(cfg, s, s.pcs[w]);
    assert Guarded(s, job);
    OwnerKeepsOut(cfg, s, w, clock, job);
    forall v <- s'.pcs ensures Harmless(cfg, s', s'.pcs[v], job) {
      assert v != w ==> Harmless(cfg, s, s.pcs[v], job);
    }
  }

  lemma OwnerKeepsOut(cfg: Config, s: State, w: Worker, clock: int, job: JobId)
    requires AttemptsExact(s) && Guarded(s, job) && StaysOut(cfg, s, job) && job in Removed(s.past)
    requires w in s.pcs && On(PcOf(s, w), job) && PcExact(cfg, s, PcOf(s, w))
    ensures
      var s' := Execute(cfg, s, w, clock);
      && job in Removed(s'.past) && job !in s'.store.queue && Failures(s', job) == Failures(s, job)
      && s'.store.now == s.store.now && (Live(s'.store.data, job, s'.store.now) ==> Live(s.store.data, job, s.store.now))
      && Dormant(cfg, s', job) && Harmless(cfg, s', PcOf(s', w), job)
  {
    assert Harmless(cfg, s, s.pcs[w], job);
    assert Seeks(s.pcs[w], job);
    match PcOf(s, w)
    case Leased(_) =>
    case Removing(_, _) =>
    case Clearing(_, _) =>
    case Rereading(_, _) =>
    case Dropping(_) =>
    case _ =>
  }

  /** At the moment it is taken out, nobody else is on the job with its payload. */
  lemma TakenOutStaysOut(cfg: Config, s: State, w: Worker, clock: int, job: JobId)
    requires Exact(cfg, s) && On(PcOf(s, w), job) && job !in Removed(s.past)
    ensures StaysOut(cfg, Execute(cfg, s, w, clock), job)
  {
    var s' := Execute(cfg, s, w, clock);
    assert w in s.pcs && PcExact(cfg, s, s.pcs[w]);
    assert Guarded(s, job);
    if job in Removed(s'.past) {
      assert PcOf(s, w).Removing? || PcOf(s, w).Dropping?;
      assert s'.pcs[w].Clearing? || !Live(s'.store.data, job, s'.store.now);
    }
  }

  lemma ExecuteStaysOut(cfg: Config, s: State, w: Worker, clock: int, job: JobId)
    requires Exact(cfg, s) && Timely(s) && StaysOut(cfg, s, job)
    ensures StaysOut(cfg, Execute(cfg, s, w, clock), job)
  {
    if !Seeks(PcOf(s, w), job) {
      ElsewhereStaysOut(cfg, s, w, clock, job);
    } else if PcOf(s, w).Found? {
      FoundStaysOut(cfg, s, w, clock, job);
    } else if job in Removed(s.past) {
      OwnerStaysOut(cfg, s, w, clock, job);
    } else {
      TakenOutStaysOut(cfg, s, w, clock, job);
    }
  }

  /** Moves of one worker that leave the store alone and drop neither a deletion nor a lease that matters. */
  lemma GotoStaysOut(cfg: Config, s: State, w: Worker, pc: Pc, job: JobId)
    requires StaysOut(cfg, s, job) && Follows(s, w, pc)
    requires job in Removed(s.past) ==>
      && Harmless(cfg, s, pc, job)
      && (Seeks(pc, job) ==> Seeks(PcOf(s, w), job))
      && (PcOf(s, w).Clearing? && PcOf(s, w).claim.job == job ==> Dormant(cfg, Goto(s, w, pc), job))
    ensures StaysOut(cfg, Goto(s, w, pc), job)
  {
    var s' := Goto(s, w, pc);
    if job in Removed(s.past) {
      forall v <- s'.pcs ensures Harmless(cfg, s', s'.pcs[v], job) {
        assert v != w ==> Harmless(cfg, s, s.pcs[v], job);
      }
      if !(PcOf(s, w).Clearing? && PcOf(s, w).claim.job == job) {
        if v :| v in s.pcs && s.pcs[v].Clearing? && s.pcs[v].claim.job == job {
          assert s'.pcs[v].Clearing?;
        }
      }
    }
  }

  lemma CrashStaysOut(cfg: Config, s: State, w: Worker, job: JobId)
    requires Exact(cfg, s) && StaysOut(cfg, s, job) && Enabled(s, Crash(w)) && !Reopens(cfg, s, Crash(w), job)
    ensures StaysOut(cfg, Goto(s, w, Idle), job)
  {
    var pc := PcOf(s, w);
    if job in Removed(s.past) && pc.Clearing? && pc.claim.job == job {
      assert w in s.pcs && Guarded(s, job);
      assert Live(s.store.data, job, s.store.now) ==> ReadEnvelope(s.store, job).Some?;
    }
    GotoStaysOut(cfg, s, w, Idle, job);
  }

  /** The catch block is harmless when the budget is spent or the payload cannot be read. */
  lemma CatchStaysOut(cfg: Config, s: State, w: Worker, job: JobId)
    requires Exact(cfg, s) && StaysOut(cfg, s, job) && Enabled(s, Fault(w, false))
    requires On(PcOf(s, w), job) && job in Removed(s.past) ==> !Retriable(cfg, s, job)
    ensures StaysOut(cfg, Goto(s, w, Catch(cfg, PcOf(s, w).claim, PcOf(s, w).why.env)), job)
  {
    var pc := PcOf(s, w);
    assert w in s.pcs && PcExact(cfg, s, pc);
    if On(pc, job) && job in Removed(s.past) {
      assert Live(s.store.data, job, s.store.now) ==> ReadEnvelope(s.store, job).Some? && Spent(cfg, s, job);
    }
    GotoStaysOut(cfg, s, w, Catch(cfg, pc.claim, pc.why.env), job);
  }

  lemma AppliedFaultStaysOut(cfg: Config, s: State, w: Worker, job: JobId)
    requires Exact(cfg, s) && DelaysBounded(cfg, s) && Timely(s) && StaysOut(cfg, s, job)
    requires Enabled(s, Fault(w, true)) && !Reopens(cfg, s, Fault(w, true), job)
    ensures StaysOut(cfg, Next(cfg, s, Fault(w, true)), job)
  {
    var t := Execute(cfg, s, w, s.store.now);
    ExecuteStaysOut(cfg, s, w, s.store.now, job);
    ExecuteExact(cfg, s, w, s.store.now);
    if PcOf(s, w).Removing? {
      CatchStaysOut(cfg, t, w, job);
    } else {
      ClearingFaultStaysOut(cfg, s, w, job);
    }
  }

  /** Once the payload is deleted, the worker in the catch block finds nothing. */
  lemma ClearingFaultStaysOut(cfg: Config, s: State, w: Worker, job: JobId)
    requires Exact(cfg, s) && StaysOut(cfg, s, job) && Enabled(s, Fault(w, true)) && PcOf(s, w).Clearing?
    requires StaysOut(cfg, Execute(cfg, s, w, s.store.now), job)
    ensures StaysOut(cfg, Next(cfg, s, Fault(w, true)), job)
  {
    var t, s' := Execute(cfg, s, w, s.store.now), Next(cfg, s, Fault(w, true));
    assert w in s.pcs && PcExact(cfg, s, PcOf(s, w));
    if job in Removed(t.past) {
      forall v <- s'.pcs ensures Harmless(cfg, s', s'.pcs[v], job) {
        assert v != w ==> Harmless(cfg, t, t.pcs[v], job);
      }
      if v :| v in t.pcs && t.pcs[v].Clearing? && t.pcs[v].claim.job == job {
        assert s'.pcs[v].Clearing?;
      }
    }
  }

  lemma OutsideStaysOut(cfg: Config, s: State, a: Action, job: JobId)
    requires Members(s) && StaysOut(cfg, s, job) && Enabled(s, a) && Outside(a)
    ensures StaysOut(cfg, Next(cfg, s, a), job)
  {
    var s' := Next(cfg, s, a);
    forall w <- s'.pcs ensures job in Removed(s.past) ==> Harmless(cfg, s', s'.pcs[w], job) {
      assert job in Removed(s.past) ==> Harmless(cfg, s, s.pcs[w], job);
    }
  }

  lemma NextStaysOut(cfg: Config, s: State, a: Action, job: JobId)
    requires Exact(cfg, s) && DelaysBounded(cfg, s) && Timely(s) && Enabled(s, a)
    requires StaysOut(cfg, s, job) && !Reopens(cfg, s, a, job)
    ensures StaysOut(cfg, Next(cfg, s, a), job)
  {
    match a
    case Command(w, clock) => ExecuteStaysOut(cfg, s, w, clock, job);
    case Poll(w, _, pick) => GotoStaysOut(cfg, s, w, if pick.Some? then Found(pick.value) else Idle, job);
    case Handler(w, outcome) =>
      var pc := PcOf(s, w);
      assert w in s.pcs && PcExact(cfg, s, pc) && (job in Removed(s.past) ==> Harmless(cfg, s, pc, job));
      GotoStaysOut(cfg, s, w, AfterHandler(cfg, pc.claim, pc.env, outcome), job);
    case Crash(w) => CrashStaysOut(cfg, s, w, job);
    case Fault(w, applied) =>
      if applied {
        AppliedFaultStaysOut(cfg, s, w, job);
      } else {
        FaultStaysOut(cfg, s, w, job);
      }
    case _ => OutsideStaysOut(cfg, s, a, job);
  }

  lemma FaultStaysOut(cfg: Config, s: State, w: Worker, job: JobId)
    requires Exact(cfg, s) && StaysOut(cfg, s, job) && Enabled(s, Fault(w, false)) && !Reopens(cfg, s, Fault(w, false), job)
    ensures StaysOut(cfg, Next(cfg, s, Fault(w, false)), job)
  {
    var pc := PcOf(s, w);
    assert w in s.pcs && PcExact(cfg, s, pc) && (job in Removed(s.past) ==> Harmless(cfg, s, pc, job));
    CatchStaysOut(cfg, s, w, job);
  }

  lemma {:induction false} RunStaysOut(cfg: Config, s: State, run: seq<Action>, job: JobId)
    requires Exact(cfg, s) && DelaysBounded(cfg, s) && StaysOut(cfg, s, job)
    requires TimelyRun(cfg, s, run) && CanRun(cfg, s, run) && !Reopened(cfg, s, run, job)
    ensures StaysOut(cfg, Run(cfg, s, run), job)
    decreases |run|
  {
    if run != [] {
      NextExact(cfg, s, run[0]);
      NextStaysOut(cfg, s, run[0], job);
      RunStaysOut(cfg, Next(cfg, s, run[0]), run[1..], job);
    }
  }

  lemma ExactClaims(cfg: Config, s: State, job: JobId)
    requires Exact(cfg, s) && DelaysBounded(cfg, s)
    ensures
      && Failures(s, job) < cfg.maxAttempts
      && (ReadEnvelope(s.store, job).Some? ==> ReadEnvelope(s.store, job).value.attempts == Failures(s, job))
      && Delayed(s, job) <= Min(cfg.baseBackoffMs * (Pow2(cfg.maxAttempts - 1) - 1), (cfg.maxAttempts - 1) * cfg.maxBackoffMs)
    ensures forall v <- s.pcs, w <- s.pcs :: v != w && On(s.pcs[v], job) && On(s.pcs[w], job) ==>
              job !in s.store.data && Blind(s.pcs[v]) && Blind(s.pcs[w])
  {
    assert DelayBounded(cfg, s, job) && Guarded(s, job);
    TotalDelayMonotone(cfg, Failures(s, job), cfg.maxAttempts - 1);
    TotalDelayBounds(cfg, cfg.maxAttempts - 1);
  }

  /** The guarantees of every run in which claims end before their leases. */
  lemma TimelyClaims(cfg: Config, now: int, run: seq<Action>, job: JobId)
    requires TimelyRun(cfg, Start(now), run)
    ensures CanRun(cfg, Start(now), run)
    ensures
      var s := Run(cfg, Start(now), run);
      var env := ReadEnvelope(s.store, job);
      && Failures(s, job) < cfg.maxAttempts
      && (env.Some? ==> env.value.attempts == Failures(s, job))
      && Delayed(s, job) <= Min(cfg.baseBackoffMs * (Pow2(cfg.maxAttempts - 1) - 1), (cfg.maxAttempts - 1) * cfg.maxBackoffMs)
      && (forall v <- s.pcs, w <- s.pcs :: v != w && On(s.pcs[v], job) && On(s.pcs[w], job) ==>
            job !in s.store.data && Blind(s.pcs[v]) && Blind(s.pcs[w]))
      && (!LeaseShared(cfg, Start(now), run, job) ==>
            forall v <- s.pcs, w <- s.pcs :: v != w && On(s.pcs[v], job) ==> !On(s.pcs[w], job))
      && (!Reopened(cfg, Start(now), run, job) ==> job in s.past.acked || job in s.past.dropped ==> job !in s.store.queue)
  {
    RunExact(cfg, Start(now), run);
    ExactClaims(cfg, Run(cfg, Start(now), run), job);
    if !LeaseShared(cfg, Start(now), run, job) { RunSingle(cfg, Start(now), run, job); }
    if !Reopened(cfg, Start(now), run, job) { RunStaysOut(cfg, Start(now), run, job); }
  }

  /** In every such run, the n-th failure of a job makes it due the n-th wait of the schedule after the worker's clock. */
  lemma RetryWaits(cfg: Config, now: int, run: seq<Action>, w: Worker, clock: int, waits: seq<int>)
    requires TimelyRun(cfg, Start(now), run) && CanRun(cfg, Start(now), run) && IsSchedule(cfg, waits)
    requires
      var s := Run(cfg, Start(now), run);
      Enabled(s, Command(w, clock)) && PcOf(s, w).Rescheduling? && Failures(s, PcOf(s, w).claim.job) <= |waits|
    ensures
      var s := Run(cfg, Start(now), run);
      var t := Next(cfg, s, Command(w, clock));
      var job := PcOf(s, w).claim.job;
      && 0 < Failures(s, job) < cfg.maxAttempts
      && t.store.queue == s.store.queue[job := clock + waits[Failures(s, job) - 1]]
      && t.store.data == s.store.data && t.store.leases == s.store.leases
      && Delayed(t, job) == Delayed(s, job) + waits[Failures(s, job) - 1]
  {
    RunExact(cfg, Start(now), run);
    var s := Run(cfg, Start(now), run);
    assert PcExact(cfg, s, PcOf(s, w));
    BackoffFollowsSchedule(cfg, waits, Failures(s, PcOf(s, w).claim.job));
  }
}
