/** No job is lost: what every interleaving keeps, with crashes, faults and expiring leases allowed. */
module JobSafety {
  import opened Common
  import opened JobTypes
  import opened JobProtocol

  /** The job may rightly be missing. */
  predicate Excused(s: State, job: JobId) {
    job in s.past.acked || job in s.past.expired
  }

  /** The job is a member of the sorted set and its payload can be read. */
  predicate Delivered(s: State, job: JobId) {
    job in s.store.queue && ReadEnvelope(s.store, job).Some?
  }

  ghost predicate DataSound(s: State) {
    forall j <- s.store.data ::
      && j in s.past.used
      && ParseEnvelope(s.store.data[j].value, GROUP_SUMMARY_RECOMPUTE, j).Some?
      && (s.store.data[j].expiresAt <= s.store.now ==> j in s.past.expired)
  }

  ghost predicate LeasesShort(cfg: Config, s: State) {
    forall j <- s.store.leases :: s.store.leases[j].expiresAt <= s.store.now + cfg.leaseMs
  }

  predicate PcSound(s: State, pc: Pc) {
    match pc
    case Idle => true
    case Found(job) => job in s.past.queued
    case Removing(c, why) => c.job in s.past.queued && (why.Unreadable? ==> Excused(s, c.job))
    case Clearing(c, _) => c.job in s.past.queued && Excused(s, c.job)
    case Dropping(c) => c.job in s.past.queued && Excused(s, c.job)
    case Rewriting(c, _, env) =>
      c.job in s.past.queued && env.jobId == c.job && env.jobType == GROUP_SUMMARY_RECOMPUTE
    case _ => pc.claim.job in s.past.queued
  }

  ghost predicate Kept(s: State) {
    forall j <- s.past.queued :: Excused(s, j) || (j in s.store.queue && Live(s.store.data, j, s.store.now))
  }

  predicate Bookkept(s: State) {
    && s.past.queued <= s.past.used
    && s.store.queue.Keys <= s.past.queued
    && s.past.dropped <= s.past.acked + s.past.expired
  }

  ghost predicate PendingSound(s: State) {
    forall j <- s.pending :: j in s.past.used && j !in s.past.queued && j in s.store.data
  }

  ghost predicate PcsSound(s: State) {
    forall w <- s.pcs :: PcSound(s, s.pcs[w])
  }

  ghost predicate Safe(cfg: Config, s: State) {
    Kept(s) && Bookkept(s) && PendingSound(s) && DataSound(s) && LeasesShort(cfg, s) && PcsSound(s)
  }

  lemma StartSafe(cfg: Config, now: int)
    ensures Safe(cfg, Start(now))
  {
  }

  lemma ExecuteKeepsJobs(cfg: Config, s: State, w: Worker, clock: int)
    requires Safe(cfg, s)
    ensures Kept(Execute(cfg, s, w, clock))
  {
    match PcOf(s, w) {
      case Removing(_, _) =>
      case Dropping(_) =>
      case Rewriting(_, _, _) =>
      case Rescheduling(_, _) =>
      case _ =>
    }
  }

  lemma ExecuteKeepsBooks(cfg: Config, s: State, w: Worker, clock: int)
    requires Safe(cfg, s)
    ensures Bookkept(Execute(cfg, s, w, clock)) && PendingSound(Execute(cfg, s, w, clock))
  {
    match PcOf(s, w) {
      case Removing(_, _) =>
      case Dropping(_) =>
      case Rewriting(_, _, _) =>
      case Rescheduling(_, _) =>
      case _ =>
    }
  }

  lemma ExecuteKeepsLeases(cfg: Config, s: State, w: Worker, clock: int)
    requires LeasesShort(cfg, s)
    ensures LeasesShort(cfg, Execute(cfg, s, w, clock))
  {
    match PcOf(s, w)
    case Found(_) =>
    case Clearing(_, _) =>
    case Releasing(_) =>
    case _ =>
  }

  lemma ExecuteKeepsData(cfg: Config, s: State, w: Worker, clock: int)
    requires DataSound(s) && Bookkept(s) && PcsSound(s)
    ensures DataSound(Execute(cfg, s, w, clock))
  {
    var pc := PcOf(s, w);
    if pc.Rewriting? {
      var env := pc.env.(attempts := pc.attempts);
      ParseInvertsSerialize(Serialize(env), GROUP_SUMMARY_RECOMPUTE, pc.claim.job, env);
    }
  }

  lemma ExecuteKeepsOwnPc(cfg: Config, s: State, w: Worker, clock: int)
    requires DataSound(s) && Kept(s) && PcSound(s, PcOf(s, w))
    ensures PcSound(Execute(cfg, s, w, clock), PcOf(Execute(cfg, s, w, clock), w))
  {
    match PcOf(s, w)
    case Leased(_) =>
    case Removing(_, _) =>
    case Rereading(_, _) =>
    case _ =>
  }

  /** Excuses are only added. */
  lemma ExecuteKeepsExcuses(cfg: Config, s: State, w: Worker, clock: int)
    ensures
      var s' := Execute(cfg, s, w, clock);
      s'.past.queued == s.past.queued && s.past.acked <= s'.past.acked && s'.past.expired == s.past.expired
      && forall v <- s'.pcs :: v == w || (v in s.pcs && s'.pcs[v] == s.pcs[v])
  {
  }

  lemma ExecuteKeepsPcs(cfg: Config, s: State, w: Worker, clock: int)
    requires DataSound(s) && Kept(s) && PcsSound(s)
    ensures PcsSound(Execute(cfg, s, w, clock))
  {
    var s' := Execute(cfg, s, w, clock);
    ExecuteKeepsOwnPc(cfg, s, w, clock);
    ExecuteKeepsExcuses(cfg, s, w, clock);
    forall v <- s'.pcs ensures PcSound(s', s'.pcs[v]) {
      if v != w { assert PcSound(s, s.pcs[v]); }
    }
  }

  lemma ExecuteSafe(cfg: Config, s: State, w: Worker, clock: int)
    requires Safe(cfg, s)
    ensures Safe(cfg, Execute(cfg, s, w, clock))
  {
    ExecuteKeepsJobs(cfg, s, w, clock);
    ExecuteKeepsBooks(cfg, s, w, clock);
    ExecuteKeepsData(cfg, s, w, clock);
    ExecuteKeepsLeases(cfg, s, w, clock);
    ExecuteKeepsPcs(cfg, s, w, clock);
  }

  /** A step that moves one worker and nothing else. */
  lemma GotoSafe(cfg: Config, s: State, w: Worker, pc: Pc)
    requires Safe(cfg, s) && PcSound(s, pc)
    ensures Safe(cfg, Goto(s, w, pc))
  {
    var s' := Goto(s, w, pc);
    forall v <- s'.pcs ensures PcSound(s', s'.pcs[v]) {
      if v != w { assert PcSound(s, s.pcs[v]); }
    }
  }

  lemma FaultSafe(cfg: Config, s: State, w: Worker, applied: bool)
    requires Safe(cfg, s) && Enabled(s, Fault(w, applied))
    ensures Safe(cfg, Next(cfg, s, Fault(w, applied)))
  {
    var pc := PcOf(s, w);
    assert w in s.pcs && PcSound(s, pc);
    ExecuteSafe(cfg, s, w, s.store.now);
    GotoSafe(cfg, if applied then Execute(cfg, s, w, s.store.now) else s, w, Catch(cfg, pc.claim, pc.why.env));
  }

  lemma AdvanceSafe(cfg: Config, s: State, ms: nat)
    requires Safe(cfg, s)
    ensures Safe(cfg, Next(cfg, s, Advance(ms)))
  {
    var s' := Next(cfg, s, Advance(ms));
    forall w <- s'.pcs ensures PcSound(s', s'.pcs[w]) { assert PcSound(s, s.pcs[w]); }
  }

  lemma EnqueueSafe(cfg: Config, s: State, a: Action)
    requires Safe(cfg, s) && Enabled(s, a) && (a.EnqueueWrite? || a.EnqueueAdd?)
    ensures Safe(cfg, Next(cfg, s, a))
  {
    var s' := Next(cfg, s, a);
    if a.EnqueueWrite? {
      var env := Envelope(a.job, GROUP_SUMMARY_RECOMPUTE, a.payload, 0, a.createdAt);
      ParseInvertsSerialize(Serialize(env), GROUP_SUMMARY_RECOMPUTE, a.job, env);
    }
    forall w <- s'.pcs ensures PcSound(s', s'.pcs[w]) { assert PcSound(s, s.pcs[w]); }
  }

  lemma NextSafe(cfg: Config, s: State, a: Action)
    requires Safe(cfg, s) && Enabled(s, a)
    ensures Safe(cfg, Next(cfg, s, a))
  {
    match a
    case Command(w, clock) => ExecuteSafe(cfg, s, w, clock);
    case Fault(w, applied) => FaultSafe(cfg, s, w, applied);
    case Advance(ms) => AdvanceSafe(cfg, s, ms);
    case EnqueueWrite(_, _, _) => EnqueueSafe(cfg, s, a);
    case EnqueueAdd(_, _) => EnqueueSafe(cfg, s, a);
    case Poll(w, _, pick) => GotoSafe(cfg, s, w, if pick.Some? then Found(pick.value) else Idle);
    case Handler(w, outcome) =>
      assert w in s.pcs && PcSound(s, s.pcs[w]);
      GotoSafe(cfg, s, w, AfterHandler(cfg, PcOf(s, w).claim, PcOf(s, w).env, outcome));
    case Crash(w) => GotoSafe(cfg, s, w, Idle);
  }

  lemma {:induction false} RunSafe(cfg: Config, s: State, run: seq<Action>)
    requires Safe(cfg, s) && CanRun(cfg, s, run)
    ensures Safe(cfg, Run(cfg, s, run))
    decreases |run|
  {
    if run != [] {
      NextSafe(cfg, s, run[0]);
      RunSafe(cfg, Next(cfg, s, run[0]), run[1..]);
    }
  }

  /** Whatever the interleaving, a job whose enqueue returned is in the queue with a readable payload unless a worker decided its fate or its payload expired. */
  lemma NoJobIsLost(cfg: Config, now: int, run: seq<Action>, job: JobId)
    requires CanRun(cfg, Start(now), run)
    ensures
      var s := Run(cfg, Start(now), run);
      && (job in s.past.queued ==> job in s.past.acked || job in s.past.expired || Delivered(s, job))
      && (job in s.past.dropped ==> job in s.past.acked || job in s.past.expired)
      && (job in s.store.leases ==> s.store.leases[job].expiresAt <= s.store.now + cfg.leaseMs)
  {
    StartSafe(cfg, now);
    RunSafe(cfg, Start(now), run);
  }

  /**
   A job left behind by a crashed worker is claimable again: after one lease length some due job is
   found, its lease is granted, and if it is this job its payload is handed to the handler.
   */
  lemma ReclaimedAfterLease(cfg: Config, s: State, w: Worker, ms: nat, job: JobId, pick: Option<JobId>)
    requires Safe(cfg, s) && PcOf(s, w).Idle? && ms >= cfg.leaseMs
    requires
      var t := Next(cfg, s, Advance(ms));
      && job in s.past.queued && !Excused(t, job) && Lookup(t.store.queue, job, 0) <= t.store.now
      && IsEarliestDue(t.store.queue, t.store.now, pick)
    ensures pick.Some?
    ensures
      var t := Next(cfg, s, Advance(ms));
      var attempt := [Poll(w, t.store.now, pick), Command(w, t.store.now), Command(w, t.store.now)];
      && CanRun(cfg, t, attempt)
      && var pc := PcOf(Run(cfg, t, attempt), w);
      && Holds(pc) && pc.claim.job == pick.value
      && (pc.Running? || (pc.Removing? && Excused(t, pick.value)))
      && (pick.value == job ==> pc.Running? && Some(pc.env) == ReadEnvelope(t.store, job))
  {
    var t := Next(cfg, s, Advance(ms));
    NextSafe(cfg, s, Advance(ms));
    assert job in t.store.queue && t.store.queue[job] <= t.store.now;
    var now := t.store.now;
    var t1 := Next(cfg, t, Poll(w, now, pick));
    assert PcOf(t1, w) == Found(pick.value);
    assert !Live(t.store.leases, pick.value, now);
    var t2 := Next(cfg, t1, Command(w, now));
    assert PcOf(t2, w).Leased?;
    var t3 := Next(cfg, t2, Command(w, now));
    RunFirst(cfg, t2, Command(w, now), []);
    RunFirst(cfg, t1, Command(w, now), [Command(w, now)]);
    RunFirst(cfg, t, Poll(w, now, pick), [Command(w, now), Command(w, now)]);
    assert [Command(w, now)] + [Command(w, now)] == [Command(w, now), Command(w, now)];
    assert [Poll(w, now, pick)] + [Command(w, now), Command(w, now)] == [Poll(w, now, pick), Command(w, now), Command(w, now)];
  }
}
