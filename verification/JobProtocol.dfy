/**
 The queue as a distributed protocol: any number of workers and producers act on the Redis keys one
 command at a time, in any interleaving, while time passes. A worker may crash before any command;
 a command inside the worker's try block may fail, with or without having taken effect.
 */
module JobProtocol {
  import opened Common
  import opened JobTypes

  type Worker = nat

  /** The lease a worker obtained: its own token and the instant the lease ends. */
  datatype Claim = Claim(job: JobId, token: Token, until: int)

  /** Why a job is being taken out of the queue. The first two happen inside the worker's try block. */
  datatype Why = Succeeded(env: Envelope) | Invalid(env: Envelope) | GivenUp | Unreadable

  /** Where a worker is; the name says what its next Redis command will do. */
  datatype Pc =
    | Idle                                                  // poll for a due job
    | Found(job: JobId)                                     // SET NX of the lease
    | Leased(claim: Claim)                                  // GET of the payload
    | Running(claim: Claim, env: Envelope)                  // no command: the handler is at work
    | Removing(claim: Claim, why: Why)                      // ZREM of complete/discard
    | Clearing(claim: Claim, why: Why)                      // DEL of payload and lease
    | Rereading(claim: Claim, attempts: nat)                // GET of retryAfterFailure
    | Rewriting(claim: Claim, attempts: nat, env: Envelope) // SET of the payload
    | Rescheduling(claim: Claim, attempts: nat)             // ZADD at the due time
    | Dropping(claim: Claim)                                // ZREM: the payload is gone
    | Releasing(claim: Claim)                               // DEL of the lease

  predicate Holds(pc: Pc) { !pc.Idle? && !pc.Found? }

  /**
   What has happened so far: ids handed out, jobs whose enqueue returned, jobs taken out after a
   decision about their work, jobs taken out for want of a readable payload, jobs whose payload has
   expired at some moment, failures recorded in the payload, and delays scheduled.
   */
  datatype History = History(used: set<JobId>, queued: set<JobId>, acked: set<JobId>, dropped: set<JobId>,
                             expired: set<JobId>, failures: map<JobId, nat>, delayed: map<JobId, int>)

  datatype State = State(store: Store, pcs: map<Worker, Pc>, pending: set<JobId>, nextToken: Token, past: History)

  function PcOf(s: State, w: Worker): Pc { Lookup(s.pcs, w, Idle) }

  datatype Outcome = Succeed | InvalidPayload | PermanentFailure | Failure

  datatype Action =
    | Advance(ms: nat)
    | EnqueueWrite(job: JobId, payload: string, createdAt: string)
    | EnqueueAdd(job: JobId, score: int)
    | Poll(w: Worker, asOf: int, pick: Option<JobId>)  // asOf: the clock as the worker read it
    | Command(w: Worker, clock: int)                   // the worker's next Redis command
    | Handler(w: Worker, outcome: Outcome)
    | Crash(w: Worker)
    | Fault(w: Worker, applied: bool)                  // the next command of complete/discard inside try fails

  ghost predicate Enabled(s: State, a: Action) {
    match a
    case Advance(_) => true
    case EnqueueWrite(job, _, _) => job !in s.past.used
    case EnqueueAdd(job, _) => job in s.pending
    case Poll(w, asOf, pick) => PcOf(s, w).Idle? && asOf <= s.store.now && IsEarliestDue(s.store.queue, asOf, pick)
    case Command(w, clock) => !PcOf(s, w).Idle? && !PcOf(s, w).Running? && clock <= s.store.now
    case Handler(w, _) => PcOf(s, w).Running?
    case Crash(w) => !PcOf(s, w).Idle?
    case Fault(w, _) =>
      var pc := PcOf(s, w);
      (pc.Removing? || pc.Clearing?) && (pc.why.Succeeded? || pc.why.Invalid?)
  }

  /** The catch block: give up once the budget is used, otherwise retry. */
  function Catch(cfg: Config, claim: Claim, env: Envelope): Pc {
    if env.attempts + 1 >= cfg.maxAttempts then Removing(claim, GivenUp) else Rereading(claim, env.attempts + 1)
  }

  function AfterHandler(cfg: Config, claim: Claim, env: Envelope, outcome: Outcome): Pc {
    match outcome
    case Succeed => Removing(claim, Succeeded(env))
    case InvalidPayload => Removing(claim, Invalid(env))
    case PermanentFailure => Removing(claim, GivenUp)
    case Failure => Catch(cfg, claim, env)
  }

  function Goto(s: State, w: Worker, pc: Pc): State {
    s.(pcs := s.pcs[w := pc])
  }

  function Taken(past: History, job: JobId, why: Why): History {
    if why.Unreadable? then past.(dropped := past.dropped + {job}) else past.(acked := past.acked + {job})
  }

  /** The effect of the worker's next Redis command. */
  function Execute(cfg: Config, s: State, w: Worker, clock: int): State {
    var st := s.store;
    match PcOf(s, w)
    case Idle => s
    case Running(_, _) => s
    case Found(job) =>
      if Live(st.leases, job, st.now) then Goto(s, w, Idle)
      else
        var claim := Claim(job, s.nextToken, st.now + cfg.leaseMs);
        Goto(s, w, Leased(claim)).(store := SetLease(cfg, st, job, s.nextToken), nextToken := s.nextToken + 1)
    case Leased(c) =>
      (match ReadEnvelope(st, c.job)
       case None => Goto(s, w, Removing(c, Unreadable))
       case Some(env) => Goto(s, w, Running(c, env)))
    case Removing(c, why) =>
      Goto(s, w, Clearing(c, why)).(store := ZRem(st, c.job), past := Taken(s.past, c.job, why))
    case Clearing(c, why) => Goto(s, w, Idle).(store := DelDataAndLease(st, c.job))
    case Rereading(c, n) =>
      (match ReadEnvelope(st, c.job)
       case None => Goto(s, w, Dropping(c))
       case Some(env) => Goto(s, w, Rewriting(c, n, env)))
    case Rewriting(c, n, env) =>
      Goto(s, w, Rescheduling(c, n)).(
        store := SetData(cfg, st, c.job, Serialize(env.(attempts := n))),
        past := s.past.(failures := s.past.failures[c.job := Lookup(s.past.failures, c.job, 0) + 1]))
    case Rescheduling(c, n) =>
      var delay := if n > 0 then BackoffFor(cfg, n) else 0;
      Goto(s, w, Releasing(c)).(
        store := ZAdd(st, c.job, clock + delay),
        past := s.past.(delayed := s.past.delayed[c.job := Lookup(s.past.delayed, c.job, 0) + delay]))
    case Dropping(c) =>
      Goto(s, w, Releasing(c)).(store := ZRem(st, c.job), past := Taken(s.past, c.job, Unreadable))
    case Releasing(c) => Goto(s, w, Idle).(store := DelLease(st, c.job))
  }

  ghost function Next(cfg: Config, s: State, a: Action): State
    requires Enabled(s, a)
  {
    match a
    case Advance(ms) =>
      var now := s.store.now + ms;
      s.(store := s.store.(now := now),
         past := s.past.(expired := s.past.expired + set j | j in s.store.data && s.store.data[j].expiresAt <= now))
    case EnqueueWrite(job, payload, createdAt) =>
      var env := Envelope(job, GROUP_SUMMARY_RECOMPUTE, payload, 0, createdAt);
      s.(store := SetData(cfg, s.store, job, Serialize(env)), pending := s.pending + {job},
         past := s.past.(used := s.past.used + {job}))
    case EnqueueAdd(job, score) =>
      s.(store := ZAdd(s.store, job, score), pending := s.pending - {job},
         past := s.past.(queued := s.past.queued + {job}))
    case Poll(w, _, pick) => Goto(s, w, if pick.Some? then Found(pick.value) else Idle)
    case Command(w, clock) => Execute(cfg, s, w, clock)
    case Handler(w, outcome) => var pc := PcOf(s, w); Goto(s, w, AfterHandler(cfg, pc.claim, pc.env, outcome))
    case Crash(w) => Goto(s, w, Idle)
    case Fault(w, applied) =>
      var pc := PcOf(s, w);
      Goto(if applied then Execute(cfg, s, w, s.store.now) else s, w, Catch(cfg, pc.claim, pc.why.env))
  }

  function Start(now: int): State {
    State(Store(now, map[], map[], map[]), map[], {}, 0, History({}, {}, {}, {}, {}, map[], map[]))
  }

  ghost predicate CanRun(cfg: Config, s: State, run: seq<Action>)
    decreases |run|
  {
    run != [] ==> Enabled(s, run[0]) && CanRun(cfg, Next(cfg, s, run[0]), run[1..])
  }

  ghost function Run(cfg: Config, s: State, run: seq<Action>): State
    requires CanRun(cfg, s, run)
    decreases |run|
  {
    if run == [] then s else Run(cfg, Next(cfg, s, run[0]), run[1..])
  }

  lemma RunFirst(cfg: Config, s: State, a: Action, rest: seq<Action>)
    requires Enabled(s, a) && CanRun(cfg, Next(cfg, s, a), rest)
    ensures CanRun(cfg, s, [a] + rest) && Run(cfg, s, [a] + rest) == Run(cfg, Next(cfg, s, a), rest)
  {
    assert ([a] + rest)[1..] == rest;
  }
}
