/**
 The distributed lock: any number of processes acquire, work and release over one Redis key per lock,
 while keys expire, processes crash and Redis commands fail with or without having taken effect.
 */
module LockProtocol {
  import opened Common

  type Process = nat
  type LockKey = string
  type Token = nat

  /** A grant: the owner's token and the instant its TTL ends. */
  datatype Grant = Grant(key: LockKey, token: Token, until: int)

  datatype Phase =
    | Idle
    | Working(grant: Grant)
    | Degraded(key: LockKey)  // Redis failed on acquire: running without coordination
    | Releasing(grant: Grant)

  datatype State = State(now: int, keys: map<LockKey, Entry<Token>>, phases: map<Process, Phase>, nextToken: Token)

  datatype Action =
    | Advance(ms: nat)
    | Acquire(p: Process, key: LockKey)
    | AcquireFails(p: Process, key: LockKey, applied: bool)
    | Finish(p: Process)
    | Release(p: Process)
    | ReleaseFails(p: Process, applied: bool)
    | Crash(p: Process)

  function PhaseOf(s: State, p: Process): Phase { Lookup(s.phases, p, Idle) }

  predicate Enabled(s: State, a: Action) {
    match a
    case Advance(_) => true
    case Acquire(p, _) => PhaseOf(s, p).Idle?
    case AcquireFails(p, _, _) => PhaseOf(s, p).Idle?
    case Finish(p) => PhaseOf(s, p).Working? || PhaseOf(s, p).Degraded?
    case Release(p) => PhaseOf(s, p).Releasing?
    case ReleaseFails(p, _) => PhaseOf(s, p).Releasing?
    case Crash(p) => true
  }

  function Goto(s: State, p: Process, phase: Phase): State {
    s.(phases := s.phases[p := phase])
  }

  /** SET key token NX PX ttl. */
  function SetNx(now: int, keys: map<LockKey, Entry<Token>>, key: LockKey, token: Token, ttlMs: int): map<LockKey, Entry<Token>> {
    if Live(keys, key, now) then keys else keys[key := Entry(token, now + ttlMs)]
  }

  /** The release script: delete the key only while it holds this token. */
  function DeleteIfOwned(now: int, keys: map<LockKey, Entry<Token>>, key: LockKey, token: Token): map<LockKey, Entry<Token>> {
    if Live(keys, key, now) && keys[key].value == token then keys - {key} else keys
  }

  function Next(ttlMs: int, s: State, a: Action): State
    requires Enabled(s, a)
  {
    match a
    case Advance(ms) => s.(now := s.now + ms)
    case Acquire(p, key) =>
      if Live(s.keys, key, s.now) then s
      else
        Goto(s, p, Working(Grant(key, s.nextToken, s.now + ttlMs))).(
          keys := SetNx(s.now, s.keys, key, s.nextToken, ttlMs), nextToken := s.nextToken + 1)
    case AcquireFails(p, key, applied) =>
      Goto(s, p, Degraded(key)).(
        keys := if applied then SetNx(s.now, s.keys, key, s.nextToken, ttlMs) else s.keys, nextToken := s.nextToken + 1)
    case Finish(p) => Goto(s, p, if PhaseOf(s, p).Working? then Releasing(PhaseOf(s, p).grant) else Idle)
    case Release(p) =>
      var g := PhaseOf(s, p).grant;
      Goto(s, p, Idle).(keys := DeleteIfOwned(s.now, s.keys, g.key, g.token))
    case ReleaseFails(p, applied) =>
      var g := PhaseOf(s, p).grant;
      Goto(s, p, Idle).(keys := if applied then DeleteIfOwned(s.now, s.keys, g.key, g.token) else s.keys)
    case Crash(p) => Goto(s, p, Idle)
  }

  predicate CanRun(ttlMs: int, s: State, run: seq<Action>)
    decreases |run|
  {
    run != [] ==> Enabled(s, run[0]) && CanRun(ttlMs, Next(ttlMs, s, run[0]), run[1..])
  }

  function Run(ttlMs: int, s: State, run: seq<Action>): State
    requires CanRun(ttlMs, s, run)
    decreases |run|
  {
    if run == [] then s else Run(ttlMs, Next(ttlMs, s, run[0]), run[1..])
  }

  function Start(now: int): State { State(now, map[], map[], 0) }

  predicate Granted(phase: Phase) { phase.Working? || phase.Releasing? }

  /** The process runs its operation under this lock key. */
  predicate Operating(phase: Phase, key: LockKey) {
    (phase.Working? && phase.grant.key == key) || (phase.Degraded? && phase.key == key)
  }

  /** A granted key holds its owner's token until the TTL ends, and tokens are not reused. */
  predicate GrantSound(s: State, phase: Phase) {
    Granted(phase) ==>
      && phase.grant.token < s.nextToken
      && (s.now < phase.grant.until ==>
            phase.grant.key in s.keys && s.keys[phase.grant.key] == Entry(phase.grant.token, phase.grant.until))
  }

  ghost predicate Sound(s: State) {
    && (forall p <- s.phases :: GrantSound(s, s.phases[p]))
    && (forall k <- s.keys :: s.keys[k].value < s.nextToken)
    && (forall p <- s.phases, q <- s.phases :: p != q && Granted(s.phases[p]) && Granted(s.phases[q]) ==>
          s.phases[p].grant.token != s.phases[q].grant.token)
  }

  lemma NextSound(ttlMs: int, s: State, a: Action)
    requires Sound(s) && Enabled(s, a)
    ensures Sound(Next(ttlMs, s, a))
  {
    var s' := Next(ttlMs, s, a);
    forall p <- s'.phases ensures GrantSound(s', s'.phases[p]) {
      if p in s.phases { assert GrantSound(s, s.phases[p]); }
    }
  }

  lemma {:induction false} RunSound(ttlMs: int, s: State, run: seq<Action>)
    requires Sound(s) && CanRun(ttlMs, s, run)
    ensures Sound(Run(ttlMs, s, run))
    decreases |run|
  {
    if run != [] {
      NextSound(ttlMs, s, run[0]);
      RunSound(ttlMs, Next(ttlMs, s, run[0]), run[1..]);
    }
  }

  /** Two operations overlap under one key only if one runs degraded or has outlived its TTL. */
  lemma OverlapNeedsExpiryOrOutage(ttlMs: int, now: int, run: seq<Action>, p: Process, q: Process, key: LockKey)
    requires CanRun(ttlMs, Start(now), run) && p != q
    ensures
      var s := Run(ttlMs, Start(now), run);
      var a, b := PhaseOf(s, p), PhaseOf(s, q);
      Operating(a, key) && Operating(b, key) ==>
        a.Degraded? || b.Degraded? || a.grant.until <= s.now || b.grant.until <= s.now
  {
    RunSound(ttlMs, Start(now), run);
    var s := Run(ttlMs, Start(now), run);
    if p in s.phases && q in s.phases {
      assert GrantSound(s, s.phases[p]) && GrantSound(s, s.phases[q]);
    }
  }

  /** A release, successful or not, leaves every other holder's key as it was, and removes its own exactly while its grant lasts. */
  lemma ReleaseSparesOthers(ttlMs: int, now: int, run: seq<Action>, p: Process, q: Process, applied: bool)
    requires ttlMs > 0 && CanRun(ttlMs, Start(now), run) && p != q && Enabled(Run(ttlMs, Start(now), run), Release(p))
    ensures
      var s := Run(ttlMs, Start(now), run);
      var t, u := Next(ttlMs, s, Release(p)), Next(ttlMs, s, ReleaseFails(p, applied));
      var mine := PhaseOf(s, p).grant;
      && (forall k <- s.keys :: k != mine.key || s.keys[k].value != mine.token ==>
            k in t.keys && t.keys[k] == s.keys[k] && k in u.keys && u.keys[k] == s.keys[k])
      && (Granted(PhaseOf(s, q)) && s.now < PhaseOf(s, q).grant.until ==>
            var other := PhaseOf(s, q).grant;
            other.key in t.keys && t.keys[other.key] == Entry(other.token, other.until)
            && other.key in u.keys && u.keys[other.key] == Entry(other.token, other.until))
      && (s.now < mine.until ==> mine.key in s.keys && mine.key !in t.keys)
  {
    RunSound(ttlMs, Start(now), run);
    var s := Run(ttlMs, Start(now), run);
    assert GrantSound(s, PhaseOf(s, p));
    if q in s.phases { assert GrantSound(s, s.phases[q]); }
  }

  /** The process asks for the lock and is at work under it. */
  predicate Enters(ttlMs: int, s: State, p: Process, key: LockKey)
    requires Enabled(s, Acquire(p, key))
  {
    Operating(PhaseOf(Next(ttlMs, s, Acquire(p, key)), p), key)
  }

  /** A free lock is granted; while the holder works, others enter exactly when the TTL is over, which is when both overlap,
      or when their Redis command fails; after its release they enter at once, and after its crash when the TTL is over. */
  lemma LockPassesOn(ttlMs: int, s: State, p: Process, q: Process, key: LockKey, ms: nat, applied: bool)
    requires ttlMs > 0 && p != q && PhaseOf(s, p).Idle? && PhaseOf(s, q).Idle? && !Live(s.keys, key, s.now)
    ensures Enters(ttlMs, s, p, key)
    ensures
      var working := Next(ttlMs, Next(ttlMs, s, Acquire(p, key)), Advance(ms));
      var released := Next(ttlMs, Next(ttlMs, working, Finish(p)), Release(p));
      var crashed := Next(ttlMs, working, Crash(p));
      && Operating(PhaseOf(working, p), key) && PhaseOf(working, q).Idle?
      && (Enters(ttlMs, working, q, key) <==> ttlMs <= ms)
      && Operating(PhaseOf(Next(ttlMs, working, AcquireFails(q, key, applied)), q), key)
      && PhaseOf(released, p).Idle? && Enters(ttlMs, released, q, key)
      && PhaseOf(crashed, p).Idle? && (Enters(ttlMs, crashed, q, key) <==> ttlMs <= ms)
  {
    var granted := Next(ttlMs, s, Acquire(p, key));
    assert granted.keys[key] == Entry(s.nextToken, s.now + ttlMs);
    assert PhaseOf(granted, p) == Working(Grant(key, s.nextToken, s.now + ttlMs));
  }

  /** The lock as an object: withLock with its acquire, operation and release, undisturbed by other clients. */
  class DistributedLock {
    const ttlMs: int
    var now: int
    var keys: map<LockKey, Entry<Token>>
    var nextToken: Token

    constructor (ttlMs: int, now: int)
      ensures this.ttlMs == ttlMs && this.now == now && keys == map[] && nextToken == 0
    {
      this.ttlMs, this.now, keys, nextToken := ttlMs, now, map[], 0;
    }

    method Acquire(key: LockKey) returns (token: Option<Token>)
      modifies this`keys, this`nextToken
      ensures token.None? <==> Live(old(keys), key, now)
      ensures token.None? ==> keys == old(keys)
      ensures token.Some? ==>
        token.value == old(nextToken) < nextToken && keys == old(keys)[key := Entry(token.value, now + ttlMs)]
    {
      var fresh' := nextToken;
      nextToken := nextToken + 1;
      if Live(keys, key, now) { return None; }
      keys := keys[key := Entry(fresh', now + ttlMs)];
      return Some(fresh');
    }

    method Release(key: LockKey, token: Token) returns (released: bool)
      modifies this`keys
      ensures released <==> Live(old(keys), key, now) && old(keys)[key].value == token
      ensures keys == if released then old(keys) - {key} else old(keys)
    {
      released := Live(keys, key, now) && keys[key].value == token;
      if released { keys := keys - {key}; }
    }

    /**
     The operation takes workMs and may throw, which is passed on after the release. Either Redis call may fail,
     with or without having taken effect; while the operation runs, nobody else touches the keys.
     */
    method WithLock(key: LockKey, acquire: Call, workMs: nat, throws: bool, release: Call) returns (outcome: WithLockOutcome)
      modifies this
      ensures outcome == if acquire.Fine? && Live(old(keys), key, old(now)) then Refused else if throws then Threw else Returned
      ensures now == old(now) + (if outcome.Refused? then 0 else workMs)
      ensures keys - {key} == old(keys) - {key}
      ensures outcome.Refused? || (acquire.Fails? && !acquire.applied) ==> keys == old(keys)
      ensures acquire.Fails? && acquire.applied ==>
        keys == SetNx(old(now), old(keys), key, old(nextToken), ttlMs)
      ensures acquire.Fine? && !outcome.Refused? ==>
        (Live(keys, key, now) <==> release.Fails? && !release.applied && workMs < ttlMs)
    {
      var token: Option<Token> := None;
      if acquire.Fails? {
        if acquire.applied {
          keys := SetNx(now, keys, key, nextToken, ttlMs);
          nextToken := nextToken + 1;
        }
      } else {
        token := Acquire(key);
        if token.None? { return Refused; }
      }
      now := now + workMs;
      if token.Some? && (release.Fine? || release.applied) {
        var _ := Release(key, token.value);
      }
      return if throws then Threw else Returned;
    }
  }

  datatype Call = Fine | Fails(applied: bool)

  datatype WithLockOutcome = Refused | Threw | Returned
}
