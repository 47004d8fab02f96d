/** One worker's calls run without interference: what each call does as a whole, and how fast a queue drains. */
module JobSequential {
  import opened Common
  import opened JobTypes
  import opened JobProtocol

  datatype ClaimResult = Empty | Busy | Malformed(jobId: JobId) | Claimed(jobId: JobId, envelope: Envelope)

  /** The effect of complete and of discard: every trace of the job is gone. */
  function Finished(st: Store, job: JobId): Store {
    st.(queue := st.queue - {job}, data := st.data - {job}, leases := st.leases - {job})
  }

  function ClaimOutcome(st: Store, pick: Option<JobId>): ClaimResult {
    if pick.None? then Empty
    else if Live(st.leases, pick.value, st.now) then Busy
    else match ReadEnvelope(st, pick.value)
         case None => Malformed(pick.value)
         case Some(env) => Claimed(pick.value, env)
  }

  function AfterClaim(cfg: Config, st: Store, pick: Option<JobId>, token: Token): Store {
    match ClaimOutcome(st, pick)
    case Malformed(job) => Finished(st, job)
    case Claimed(job, _) => SetLease(cfg, st, job, token)
    case _ => st
  }

  /** retryAfterFailure: the payload rewritten with a fresh TTL and due after the delay, or the job dropped if the payload is unreadable. */
  function Retried(cfg: Config, st: Store, job: JobId, attempts: nat, delayMs: int): Store {
    match ReadEnvelope(st, job)
    case None => st.(queue := st.queue - {job}, leases := st.leases - {job})
    case Some(env) =>
      st.(queue := st.queue[job := st.now + delayMs],
          data := st.data[job := Entry(Serialize(env.(attempts := attempts)), st.now + cfg.payloadTtlMs)],
          leases := st.leases - {job})
  }

  /** The job is due before its payload expires. */
  predicate Outlives(st: Store, job: JobId) {
    job in st.queue && job in st.data && st.queue[job] < st.data[job].expiresAt
  }

  /** Whatever the store, a job put back by a retry is due before its rewritten payload expires, exactly when the TTL exceeds the backoff cap. */
  lemma PayloadOutlivesEveryRetry(cfg: Config)
    ensures (forall st, job, attempts: nat | attempts > 0 && ReadEnvelope(st, job).Some? ::
               Outlives(Retried(cfg, st, job, attempts, BackoffFor(cfg, attempts)), job))
            <==> cfg.maxBackoffMs < cfg.payloadTtlMs
  {
    BackoffsFitTtl(cfg);
    if cfg.maxBackoffMs >= cfg.payloadTtlMs {
      var attempts: nat :| attempts > 0 && BackoffFor(cfg, attempts) >= cfg.payloadTtlMs;
      var env := Envelope(0, GROUP_SUMMARY_RECOMPUTE, "", 0, "");
      var st := Store(0, map[], map[0 := Entry(Serialize(env), 1)], map[]);
      ParseInvertsSerialize(Serialize(env), GROUP_SUMMARY_RECOMPUTE, 0, env);
      assert ReadEnvelope(st, 0).Some? && !Outlives(Retried(cfg, st, 0, attempts, BackoffFor(cfg, attempts)), 0);
    } else {
      forall st, job, attempts: nat | attempts > 0 && ReadEnvelope(st, job).Some?
        ensures Outlives(Retried(cfg, st, job, attempts, BackoffFor(cfg, attempts)), job)
      {
        assert BackoffFor(cfg, attempts) < cfg.payloadTtlMs;
      }
    }
  }

  predicate Retries(cfg: Config, env: Envelope, outcome: Outcome) {
    outcome.Failure? && env.attempts + 1 < cfg.maxAttempts
  }

  /** One poll of the queue, with the handler (if it runs) ending in the given outcome. */
  function Ticked(cfg: Config, st: Store, pick: Option<JobId>, token: Token, outcome: Outcome): Store {
    match ClaimOutcome(st, pick)
    case Claimed(job, env) =>
      if Retries(cfg, env, outcome)
      then Retried(cfg, AfterClaim(cfg, st, pick, token), job, env.attempts + 1, BackoffFor(cfg, env.attempts + 1))
      else Finished(st, job)
    case _ => AfterClaim(cfg, st, pick, token)
  }

  /** How complete or discard ends inside the try block: well, or with a failing command that had taken effect or not. */
  datatype Closing = Closes | ZRemFails(applied: bool) | DelFails(applied: bool)

  function Closed(st: Store, job: JobId, closing: Closing): Store {
    match closing
    case Closes => Finished(st, job)
    case ZRemFails(applied) => if applied then ZRem(st, job) else st
    case DelFails(applied) => if applied then Finished(st, job) else ZRem(st, job)
  }

  /** The poll ends in the catch block's retry decision. */
  predicate Fails(outcome: Outcome, closing: Closing) {
    outcome.Failure? || ((outcome.Succeed? || outcome.InvalidPayload?) && !closing.Closes?)
  }

  /** The catch block: retry, or give up once the budget is used. */
  function AfterFailure(cfg: Config, st: Store, job: JobId, env: Envelope): Store {
    if env.attempts + 1 < cfg.maxAttempts
    then Retried(cfg, st, job, env.attempts + 1, BackoffFor(cfg, env.attempts + 1))
    else Finished(st, job)
  }

  /** From a claimed job's handler to idle. */
  function JobDone(cfg: Config, st: Store, job: JobId, env: Envelope, outcome: Outcome, closing: Closing): Store {
    if outcome.Failure? then AfterFailure(cfg, st, job, env)
    else if Fails(outcome, closing) then AfterFailure(cfg, Closed(st, job, closing), job, env)
    else Finished(st, job)
  }

  /** One poll in which the closing commands of the try block may fail. */
  function Processed(cfg: Config, st: Store, pick: Option<JobId>, token: Token, outcome: Outcome, closing: Closing): Store {
    match ClaimOutcome(st, pick)
    case Claimed(job, env) => JobDone(cfg, AfterClaim(cfg, st, pick, token), job, env, outcome, closing)
    case _ => AfterClaim(cfg, st, pick, token)
  }

  /** Without such a failure this is the plain poll. */
  lemma ProcessedWell(cfg: Config, st: Store, pick: Option<JobId>, token: Token, outcome: Outcome)
    ensures Processed(cfg, st, pick, token, outcome, Closes) == Ticked(cfg, st, pick, token, outcome)
  {
    match ClaimOutcome(st, pick)
    case Claimed(job, _) => assert Finished(AfterClaim(cfg, st, pick, token), job) == Finished(st, job);
    case _ =>
  }

  /******* What a poll leaves behind *******/

  /** Nothing but this job's keys may differ. */
  predicate OthersUntouched(st: Store, t: Store, job: JobId) {
    t.now == st.now && t.queue - {job} == st.queue - {job} && t.data - {job} == st.data - {job} && t.leases - {job} == st.leases - {job}
  }

  predicate NoTrace(st: Store, job: JobId) { job !in st.queue && job !in st.data && job !in st.leases }

  /** The job is due after the wait, with one more attempt in its payload, a fresh TTL and no lease. */
  predicate PutBack(cfg: Config, st: Store, t: Store, job: JobId, env: Envelope, wait: int) {
    && job in t.queue && t.queue[job] == st.now + wait
    && ReadEnvelope(t, job) == Some(env.(attempts := env.attempts + 1))
    && job in t.data && t.data[job].expiresAt == st.now + cfg.payloadTtlMs
    && job !in t.leases
  }

  /** There is a retry: budget is left, and the handler failed, or a closing command did and the payload is still there. */
  predicate ComesBack(cfg: Config, env: Envelope, outcome: Outcome, closing: Closing) {
    && env.attempts + 1 < cfg.maxAttempts
    && match outcome
       case Failure => true
       case PermanentFailure => false
       case _ => closing.ZRemFails? || (closing.DelFails? && !closing.applied)
  }

  lemma RetriedIsPutBack(cfg: Config, st: Store, job: JobId, env: Envelope, waits: seq<int>)
    requires ReadEnvelope(st, job) == Some(env) && IsSchedule(cfg, waits) && env.attempts < |waits|
    ensures
      var t := Retried(cfg, st, job, env.attempts + 1, BackoffFor(cfg, env.attempts + 1));
      PutBack(cfg, st, t, job, env, waits[env.attempts]) && OthersUntouched(st, t, job)
  {
    BackoffFollowsSchedule(cfg, waits, env.attempts + 1);
    var next := env.(attempts := env.attempts + 1);
    ParseInvertsSerialize(Serialize(next), GROUP_SUMMARY_RECOMPUTE, job, next);
  }

  /** The catch block: the job waits its turn in the schedule, or is gone. */
  lemma CatchIsExact(cfg: Config, st: Store, job: JobId, env: Envelope, waits: seq<int>)
    requires IsSchedule(cfg, waits)
    requires job in st.data ==> ReadEnvelope(st, job) == Some(env)
    ensures
      var t := AfterFailure(cfg, st, job, env);
      && OthersUntouched(st, t, job)
      && if job in st.data && env.attempts + 1 < cfg.maxAttempts
         then env.attempts < |waits| ==> PutBack(cfg, st, t, job, env, waits[env.attempts])
         else NoTrace(t, job)
  {
    if job in st.data && env.attempts < |waits| { RetriedIsPutBack(cfg, st, job, env, waits); }
  }

  /** From the handler of a claimed job on. */
  lemma JobIsExact(cfg: Config, st: Store, job: JobId, env: Envelope, outcome: Outcome, closing: Closing, waits: seq<int>)
    requires IsSchedule(cfg, waits) && ReadEnvelope(st, job) == Some(env)
    ensures
      var t := JobDone(cfg, st, job, env, outcome, closing);
      && OthersUntouched(st, t, job)
      && if ComesBack(cfg, env, outcome, closing)
         then env.attempts < |waits| ==> PutBack(cfg, st, t, job, env, waits[env.attempts])
         else NoTrace(t, job)
  {
    if outcome.Failure? {
      CatchIsExact(cfg, st, job, env, waits);
    } else if Fails(outcome, closing) {
      CatchIsExact(cfg, Closed(st, job, closing), job, env, waits);
    }
  }

  /** Every poll: nothing happens without a free due job, no trace is left of an unreadable or finished one, and a
      job comes back for exactly these failures, after the wait that the schedule has for it. */
  lemma PollIsExact(cfg: Config, st: Store, pick: Option<JobId>, token: Token, outcome: Outcome, closing: Closing, waits: seq<int>)
    requires IsSchedule(cfg, waits)
    ensures
      var t := Processed(cfg, st, pick, token, outcome, closing);
      if pick.None? || Live(st.leases, pick.value, st.now) then t == st
      else
        var job := pick.value;
        && OthersUntouched(st, t, job)
        && match ReadEnvelope(st, job)
           case None => NoTrace(t, job)
           case Some(env) =>
             if ComesBack(cfg, env, outcome, closing)
             then env.attempts < |waits| ==> PutBack(cfg, st, t, job, env, waits[env.attempts])
             else NoTrace(t, job)
  {
    if pick.Some? && !Live(st.leases, pick.value, st.now) && ReadEnvelope(st, pick.value).Some? {
      var job, env := pick.value, ReadEnvelope(st, pick.value).value;
      var leased := AfterClaim(cfg, st, pick, token);
      assert ReadEnvelope(leased, job) == Some(env) && OthersUntouched(st, leased, job);
      JobIsExact(cfg, leased, job, env, outcome, closing, waits);
    }
  }

  /******* The protocol's worker, left alone, does exactly this *******/

  /** The worker can issue n commands in a row from s, and they lead to t. */
  predicate Solo(cfg: Config, s: State, w: Worker, n: nat, t: State)
    decreases n
  {
    if n == 0 then s == t
    else !PcOf(s, w).Idle? && !PcOf(s, w).Running? && Solo(cfg, Execute(cfg, s, w, s.store.now), w, n - 1, t)
  }

  predicate By(w: Worker, a: Action) {
    (a.Poll? || a.Command? || a.Handler?) && a.w == w
  }

  lemma {:induction false} SoloThen(cfg: Config, s: State, w: Worker, n: nat, t: State, rest: seq<Action>) returns (run: seq<Action>)
    requires Solo(cfg, s, w, n, t) && CanRun(cfg, t, rest) && (forall a <- rest :: By(w, a))
    ensures CanRun(cfg, s, run) && Run(cfg, s, run) == Run(cfg, t, rest) && (forall a <- run :: By(w, a))
    decreases n
  {
    if n == 0 {
      run := rest;
    } else {
      var command := Command(w, s.store.now);
      var later := SoloThen(cfg, Execute(cfg, s, w, s.store.now), w, n - 1, t, rest);
      RunFirst(cfg, s, command, later);
      run := [command] + later;
    }
  }

  /** From the lease to the handler. */
  lemma SoloClaim(cfg: Config, s: State, w: Worker, job: JobId) returns (t: State, n: nat)
    requires PcOf(s, w) == Found(job)
    ensures Solo(cfg, s, w, n, t)
    ensures
      match ClaimOutcome(s.store, Some(job))
      case Claimed(j, env) =>
        PcOf(t, w) == Running(Claim(job, s.nextToken, s.store.now + cfg.leaseMs), env)
        && t.store == SetLease(cfg, s.store, job, s.nextToken)
      case _ => PcOf(t, w).Idle? && t.store == AfterClaim(cfg, s.store, Some(job), s.nextToken)
  {
    var now := s.store.now;
    var s1 := Execute(cfg, s, w, now);
    var s2 := Execute(cfg, s1, w, now);
    match ClaimOutcome(s.store, Some(job)) {
      case Busy => t, n := s1, 1;
      case Claimed(_, _) =>
        t, n := s2, 2;
        assert Solo(cfg, s1, w, 1, s2);
      case Malformed(_) =>
        var s3 := Execute(cfg, s2, w, now);
        var s4 := Execute(cfg, s3, w, now);
        t, n := s4, 4;
        assert Solo(cfg, s3, w, 1, s4);
        assert Solo(cfg, s2, w, 2, s4);
        assert Solo(cfg, s1, w, 3, s4);
        assert t.store == Finished(s.store, job);
    }
  }

  /** complete or discard: ZREM and DEL. */
  lemma SoloFinish(cfg: Config, s: State, w: Worker, claim: Claim, why: Why) returns (t: State)
    requires PcOf(s, w) == Removing(claim, why)
    ensures Solo(cfg, s, w, 2, t) && PcOf(t, w).Idle? && t.store == Finished(s.store, claim.job)
  {
    var s1 := Execute(cfg, s, w, s.store.now);
    t := Execute(cfg, s1, w, s.store.now);
    assert Solo(cfg, s1, w, 1, t);
  }

  /** retryAfterFailure: GET, SET, ZADD and DEL, or GET, ZREM and DEL. */
  lemma SoloRetry(cfg: Config, s: State, w: Worker, claim: Claim, attempts: nat) returns (t: State, n: nat)
    requires PcOf(s, w) == Rereading(claim, attempts) && attempts > 0
    ensures Solo(cfg, s, w, n, t) && PcOf(t, w).Idle?
    ensures t.store == Retried(cfg, s.store, claim.job, attempts, BackoffFor(cfg, attempts))
  {
    var now := s.store.now;
    var s1 := Execute(cfg, s, w, now);
    var s2 := Execute(cfg, s1, w, now);
    var s3 := Execute(cfg, s2, w, now);
    match ReadEnvelope(s.store, claim.job) {
      case None =>
        t, n := s3, 3;
        assert PcOf(s1, w) == Dropping(claim) && PcOf(s2, w) == Releasing(claim);
        assert Solo(cfg, s2, w, 1, s3);
        assert Solo(cfg, s1, w, 2, s3);
      case Some(env) =>
        t, n := Execute(cfg, s3, w, now), 4;
        assert PcOf(s1, w).Rewriting? && PcOf(s2, w).Rescheduling? && PcOf(s3, w).Releasing?;
        assert Solo(cfg, s3, w, 1, t);
        assert Solo(cfg, s2, w, 2, t);
        assert Solo(cfg, s1, w, 3, t);
    }
  }

  /** From the handler's end to idle again. */
  lemma SoloHandler(cfg: Config, s: State, w: Worker, outcome: Outcome) returns (run: seq<Action>)
    requires PcOf(s, w).Running?
    ensures CanRun(cfg, s, run) && (forall a <- run :: By(w, a)) && PcOf(Run(cfg, s, run), w).Idle?
    ensures
      var Running(claim, env) := PcOf(s, w);
      Run(cfg, s, run).store ==
        if Retries(cfg, env, outcome)
        then Retried(cfg, s.store, claim.job, env.attempts + 1, BackoffFor(cfg, env.attempts + 1))
        else Finished(s.store, claim.job)
  {
    var Running(claim, env) := PcOf(s, w);
    var handler := Handler(w, outcome);
    var s1 := Next(cfg, s, handler);
    var s2, n := s1, 0;
    if Retries(cfg, env, outcome) {
      s2, n := SoloRetry(cfg, s1, w, claim, env.attempts + 1);
    } else {
      s2 := SoloFinish(cfg, s1, w, claim, PcOf(s1, w).why);
      n := 2;
    }
    run := SoloThen(cfg, s1, w, n, s2, []);
    RunFirst(cfg, s, handler, run);
    run := [handler] + run;
  }

  /** The catch block, from its first command to idle again. */
  lemma SoloCatch(cfg: Config, s: State, w: Worker, claim: Claim, env: Envelope) returns (run: seq<Action>)
    requires PcOf(s, w) == Catch(cfg, claim, env)
    ensures CanRun(cfg, s, run) && (forall a <- run :: By(w, a)) && PcOf(Run(cfg, s, run), w).Idle?
    ensures Run(cfg, s, run).store == AfterFailure(cfg, s.store, claim.job, env)
  {
    var t, n := s, 2;
    if env.attempts + 1 < cfg.maxAttempts {
      t, n := SoloRetry(cfg, s, w, claim, env.attempts + 1);
    } else {
      t := SoloFinish(cfg, s, w, claim, GivenUp);
    }
    run := SoloThen(cfg, s, w, n, t, []);
  }

  lemma SoloFault(cfg: Config, s: State, w: Worker, applied: bool) returns (run: seq<Action>)
    requires Enabled(s, Fault(w, applied))
    ensures CanRun(cfg, s, run) && (forall a <- run :: By(w, a) || a == Fault(w, applied)) && PcOf(Run(cfg, s, run), w).Idle?
    ensures
      var pc := PcOf(s, w);
      var st := if applied then Execute(cfg, s, w, s.store.now).store else s.store;
      Run(cfg, s, run).store == AfterFailure(cfg, st, pc.claim.job, pc.why.env)
  {
    run := SoloCatch(cfg, Next(cfg, s, Fault(w, applied)), w, PcOf(s, w).claim, PcOf(s, w).why.env);
    RunFirst(cfg, s, Fault(w, applied), run);
    run := [Fault(w, applied)] + run;
  }

  /** A worker whose closing command fails ends as Processed says. */
  lemma SoloFailedClosing(cfg: Config, s: State, w: Worker, outcome: Outcome, closing: Closing) returns (run: seq<Action>)
    requires PcOf(s, w).Running? && (outcome.Succeed? || outcome.InvalidPayload?) && !closing.Closes?
    ensures CanRun(cfg, s, run) && (forall a <- run :: By(w, a) || a == Fault(w, closing.applied)) && PcOf(Run(cfg, s, run), w).Idle?
    ensures
      var Running(claim, env) := PcOf(s, w);
      Run(cfg, s, run).store == AfterFailure(cfg, Closed(s.store, claim.job, closing), claim.job, env)
  {
    var s1 := Next(cfg, s, Handler(w, outcome));
    if closing.DelFails? {
      run := SoloFault(cfg, Execute(cfg, s1, w, s1.store.now), w, closing.applied);
      RunFirst(cfg, s1, Command(w, s1.store.now), run);
      run := [Command(w, s1.store.now)] + run;
    } else {
      run := SoloFault(cfg, s1, w, closing.applied);
    }
    RunFirst(cfg, s, Handler(w, outcome), run);
    run := [Handler(w, outcome)] + run;
  }

  /** Undisturbed, a worker of the protocol polls, runs the handler and closes exactly as Ticked says. */
  lemma SoloTick(cfg: Config, s: State, w: Worker, pick: Option<JobId>, outcome: Outcome) returns (run: seq<Action>)
    requires PcOf(s, w).Idle? && IsEarliestDue(s.store.queue, s.store.now, pick)
    ensures CanRun(cfg, s, run) && (forall a <- run :: By(w, a))
    ensures Run(cfg, s, run).store == Ticked(cfg, s.store, pick, s.nextToken, outcome) && PcOf(Run(cfg, s, run), w).Idle?
  {
    var poll := Poll(w, s.store.now, pick);
    var s1 := Next(cfg, s, poll);
    run := [];
    if pick.Some? {
      var s2, n := SoloClaim(cfg, s1, w, pick.value);
      if ClaimOutcome(s.store, pick).Claimed? {
        run := SoloHandler(cfg, s2, w, outcome);
        ProcessedWell(cfg, s.store, pick, s.nextToken, outcome);
      }
      run := SoloThen(cfg, s1, w, n, s2, run);
    }
    RunFirst(cfg, s, poll, run);
    run := [poll] + run;
  }

  /******* Draining *******/

  function AttemptsLeft(cfg: Config, st: Store, job: JobId): int {
    match ReadEnvelope(st, job)
    case None => 0
    case Some(env) => cfg.maxAttempts - env.attempts
  }

  /** What the queued jobs may still cost. */
  ghost function Budget(cfg: Config, st: Store): int {
    Sum(st.queue.Keys, j => AttemptsLeft(cfg, st, j))
  }

  /** No payload has expired and no budget is used up. */
  ghost predicate Ready(cfg: Config, st: Store) {
    forall j <- st.queue :: AttemptsLeft(cfg, st, j) > 0
  }

  lemma FinishedBudget(cfg: Config, st: Store, job: JobId)
    requires Ready(cfg, st) && job in st.queue
    ensures Ready(cfg, Finished(st, job)) && Budget(cfg, Finished(st, job)) < Budget(cfg, st)
  {
    var t := Finished(st, job);
    var before, after := (j: JobId) => AttemptsLeft(cfg, st, j), (j: JobId) => AttemptsLeft(cfg, t, j);
    assert t.queue.Keys == st.queue.Keys - {job};
    SumRemove(st.queue.Keys, job, before);
    SumEqual(t.queue.Keys, before, after);
  }

  lemma RetriedBudget(cfg: Config, st: Store, job: JobId, env: Envelope)
    requires Ready(cfg, st) && job in st.queue
    requires ReadEnvelope(st, job) == Some(env) && env.attempts + 1 < cfg.maxAttempts
    ensures
      var t := Retried(cfg, st, job, env.attempts + 1, BackoffFor(cfg, env.attempts + 1));
      Ready(cfg, t) && Budget(cfg, t) == Budget(cfg, st) - 1
  {
    var t := Retried(cfg, st, job, env.attempts + 1, BackoffFor(cfg, env.attempts + 1));
    var next := env.(attempts := env.attempts + 1);
    ParseInvertsSerialize(Serialize(next), GROUP_SUMMARY_RECOMPUTE, job, next);
    var before, after := (j: JobId) => AttemptsLeft(cfg, st, j), (j: JobId) => AttemptsLeft(cfg, t, j);
    assert t.queue.Keys == st.queue.Keys;
    SumRemove(st.queue.Keys, job, before);
    SumRemove(st.queue.Keys, job, after);
    SumEqual(st.queue.Keys - {job}, before, after);
  }

  lemma LeaseCostsNothing(cfg: Config, st: Store, leased: Store)
    requires leased.queue == st.queue && leased.data == st.data && leased.now == st.now
    ensures Budget(cfg, leased) == Budget(cfg, st) && (Ready(cfg, st) ==> Ready(cfg, leased))
  {
    SumEqual(st.queue.Keys, j => AttemptsLeft(cfg, st, j), j => AttemptsLeft(cfg, leased, j));
  }

  lemma ClaimSpends(cfg: Config, st: Store, pick: Option<JobId>, token: Token, outcome: Outcome, job: JobId, env: Envelope)
    requires Ready(cfg, st) && IsEarliestDue(st.queue, st.now, pick) && ClaimOutcome(st, pick) == Claimed(job, env)
    ensures Ready(cfg, Ticked(cfg, st, pick, token, outcome))
    ensures Budget(cfg, Ticked(cfg, st, pick, token, outcome)) < Budget(cfg, st)
  {
    var leased := AfterClaim(cfg, st, pick, token);
    LeaseCostsNothing(cfg, st, leased);
    assert ReadEnvelope(leased, job) == Some(env);
    if Retries(cfg, env, outcome) {
      RetriedBudget(cfg, leased, job, env);
    } else {
      FinishedBudget(cfg, st, job);
    }
  }

  /** Every poll that reaches a handler spends budget, however the handler ends. */
  lemma ClaimedTickSpends(cfg: Config, st: Store, pick: Option<JobId>, token: Token, outcome: Outcome)
    requires Ready(cfg, st) && IsEarliestDue(st.queue, st.now, pick)
    ensures Ready(cfg, Ticked(cfg, st, pick, token, outcome))
    ensures ClaimOutcome(st, pick).Claimed? ==> Budget(cfg, Ticked(cfg, st, pick, token, outcome)) < Budget(cfg, st)
    ensures !ClaimOutcome(st, pick).Claimed? ==> Ticked(cfg, st, pick, token, outcome) == st
  {
    match ClaimOutcome(st, pick) {
      case Claimed(job, env) =>
        ClaimSpends(cfg, st, pick, token, outcome, job, env);
      case _ =>
    }
  }

  /** No lease is alive, as when every earlier poll has run to its end. */
  ghost predicate Quiet(st: Store) {
    forall j <- st.leases :: !Live(st.leases, j, st.now)
  }

  /** A pause followed by a poll. */
  datatype Tick = Tick(wait: nat, pick: Option<JobId>, token: Token, outcome: Outcome)

  function Later(st: Store, wait: nat): Store { st.(now := st.now + wait) }

  function AfterTick(cfg: Config, st: Store, tick: Tick): Store {
    Ticked(cfg, Later(st, tick.wait), tick.pick, tick.token, tick.outcome)
  }

  /** Polls in which every queued job still has a live payload and budget when the poll starts. */
  ghost predicate Ticks(cfg: Config, st: Store, ticks: seq<Tick>)
    decreases |ticks|
  {
    ticks != [] ==>
      var now := Later(st, ticks[0].wait);
      && Ready(cfg, now) && IsEarliestDue(now.queue, now.now, ticks[0].pick)
      && Ticks(cfg, AfterTick(cfg, st, ticks[0]), ticks[1..])
  }

  function AfterTicks(cfg: Config, st: Store, ticks: seq<Tick>): Store
    decreases |ticks|
  {
    if ticks == [] then st else AfterTicks(cfg, AfterTick(cfg, st, ticks[0]), ticks[1..])
  }

  /** The polls that found a due job. */
  function Hits(ticks: seq<Tick>): nat {
    if ticks == [] then 0 else (if ticks[0].pick.Some? then 1 else 0) + Hits(ticks[1..])
  }

  lemma QuietTick(cfg: Config, st: Store, tick: Tick)
    requires Quiet(st) && Ready(cfg, Later(st, tick.wait))
    requires IsEarliestDue(st.queue, st.now + tick.wait, tick.pick)
    ensures Quiet(AfterTick(cfg, st, tick))
    ensures tick.pick.Some? ==> ClaimOutcome(Later(st, tick.wait), tick.pick).Claimed?
  {
    var now := Later(st, tick.wait);
    if tick.pick.Some? {
      assert AttemptsLeft(cfg, now, tick.pick.value) > 0;
      assert !Live(now.leases, tick.pick.value, now.now);
    }
  }

  lemma BudgetBounds(cfg: Config, st: Store)
    requires Ready(cfg, st)
    ensures |st.queue| <= Budget(cfg, st) <= |st.queue| * cfg.maxAttempts
  {
    var left := (j: JobId) => AttemptsLeft(cfg, st, j);
    SumMonotone(st.queue.Keys, (j: JobId) => 1, left);
    SumConstant(st.queue.Keys, (j: JobId) => 1, 1);
    SumMonotone(st.queue.Keys, left, (j: JobId) => cfg.maxAttempts);
    SumConstant(st.queue.Keys, (j: JobId) => cfg.maxAttempts, cfg.maxAttempts);
  }

  lemma {:induction false} HitsSpend(cfg: Config, st: Store, ticks: seq<Tick>)
    requires Quiet(st) && Ready(cfg, st) && Ticks(cfg, st, ticks)
    ensures Ready(cfg, AfterTicks(cfg, st, ticks))
    ensures Hits(ticks) + Budget(cfg, AfterTicks(cfg, st, ticks)) <= Budget(cfg, st)
    decreases |ticks|
  {
    if ticks != [] {
      var tick := ticks[0];
      var now, next := Later(st, tick.wait), AfterTick(cfg, st, tick);
      SumEqual(st.queue.Keys, j => AttemptsLeft(cfg, st, j), j => AttemptsLeft(cfg, now, j)) by {
        forall j <- st.queue.Keys ensures AttemptsLeft(cfg, st, j) == AttemptsLeft(cfg, now, j) {
          assert AttemptsLeft(cfg, now, j) > 0;
        }
      }
      ClaimedTickSpends(cfg, now, tick.pick, tick.token, tick.outcome);
      QuietTick(cfg, st, tick);
      HitsSpend(cfg, next, ticks[1..]);
    }
  }

  /** However the handlers end, n jobs are gone after at most n * maxAttempts polls that find a due job. */
  lemma QueueDrains(cfg: Config, st: Store, ticks: seq<Tick>)
    requires Quiet(st) && Ready(cfg, st) && Ticks(cfg, st, ticks)
    ensures Hits(ticks) + |AfterTicks(cfg, st, ticks).queue| <= |st.queue| * cfg.maxAttempts
    ensures Hits(ticks) >= |st.queue| * cfg.maxAttempts ==> AfterTicks(cfg, st, ticks).queue == map[]
  {
    HitsSpend(cfg, st, ticks);
    BudgetBounds(cfg, st);
    BudgetBounds(cfg, AfterTicks(cfg, st, ticks));
  }
}
