/**
 The data of the background queue: configuration, envelopes and their stored text, and the
 Redis keys the queue works on, one pure function for each Redis command.
 */
module JobTypes {
  import opened Common

  // UUIDs: only identity, freshness and the order used by ZRANGEBYSCORE for equal scores matter.
  type JobId = nat
  type Token = nat

  const GROUP_SUMMARY_RECOMPUTE := "GROUP_SUMMARY_RECOMPUTE"

  datatype RawConfig = Config(maxAttempts: int, baseBackoffMs: int, maxBackoffMs: int, leaseMs: int, payloadTtlMs: int)

  // The environment schema accepts positive integers only.
  type Config = c: RawConfig |
    c.maxAttempts > 0 && c.baseBackoffMs > 0 && c.maxBackoffMs > 0 && c.leaseMs > 0 && c.payloadTtlMs > 0
    witness Config(5, 2000, 60000, 30000, 86400000)

  /******* Envelopes and their stored text *******/

  datatype Envelope = Envelope(jobId: JobId, jobType: string, payload: string, attempts: nat, createdAt: string)

  /** A stored payload: text that is no JSON object, or an object whose fields may be missing or ill-typed (None). */
  datatype Raw =
    | Garbled
    | Record(jobId: Option<JobId>, jobType: Option<string>, payload: Option<string>,
             attempts: Option<int>, createdAt: Option<string>)

  function Serialize(env: Envelope): Raw {
    Record(Some(env.jobId), Some(env.jobType), Some(env.payload), Some(env.attempts), Some(env.createdAt))
  }

  function ParseEnvelope(raw: Raw, expectedType: string, jobId: JobId): Option<Envelope> {
    if raw.Garbled? then None
    else if raw.jobId != Some(jobId) then None
    else if raw.jobType != Some(expectedType) then None
    else if raw.createdAt.None? then None
    else if raw.payload.None? then None
    else if raw.attempts.None? || raw.attempts.value < 0 then None
    else Some(Envelope(jobId, expectedType, raw.payload.value, raw.attempts.value, raw.createdAt.value))
  }

  /** Reading back is exact: a text parses to an envelope iff it is that envelope's own text, under its own key and type. */
  lemma ParseInvertsSerialize(raw: Raw, expectedType: string, jobId: JobId, env: Envelope)
    ensures ParseEnvelope(raw, expectedType, jobId) == Some(env)
            <==> raw == Serialize(env) && env.jobId == jobId && env.jobType == expectedType
  {
    if ParseEnvelope(raw, expectedType, jobId) == Some(env) {
      assert raw.jobType == Some(expectedType);
      assert raw.createdAt == Some(env.createdAt) && raw.payload == Some(env.payload);
    }
  }

  /******* Backoff *******/

  function Pow2(n: nat): (r: nat)
    ensures r > n
  {
    if n == 0 then 1 else 2 * Pow2(n - 1)
  }

  function BackoffFor(cfg: Config, attempts: nat): int
    requires attempts > 0
  {
    Min(cfg.maxBackoffMs, cfg.baseBackoffMs * Pow2(attempts - 1))
  }

  /** The delays scheduled after the first `failures` failures, added up. */
  function TotalDelay(cfg: Config, failures: nat): int {
    if failures == 0 then 0 else TotalDelay(cfg, failures - 1) + BackoffFor(cfg, failures)
  }

  lemma DoubledDelay(base: int, before: nat, capped: int, delay: int)
    requires capped <= base * (before - 1) && delay <= base * before
    ensures capped + delay <= base * (2 * before - 1)
  {
    assert base * (before - 1) + base * before == base * (2 * before - 1);
  }

  lemma {:induction false} ProductAtLeast(b: int, p: nat)
    requires b >= 1
    ensures b * p >= p
    decreases b
  {
    if b > 1 {
      ProductAtLeast(b - 1, p);
      assert b * p == (b - 1) * p + p;
    }
  }

  lemma BackoffPositive(cfg: Config, attempts: nat)
    requires attempts > 0
    ensures 0 < BackoffFor(cfg, attempts) <= cfg.maxBackoffMs
    ensures Pow2(attempts - 1) >= cfg.maxBackoffMs ==> BackoffFor(cfg, attempts) == cfg.maxBackoffMs
  {
    ProductAtLeast(cfg.baseBackoffMs, Pow2(attempts - 1));
  }

  /** The first failure waits the base, and every further one twice as long as the one before; no wait exceeds the cap. */
  lemma BackoffDoubles(cfg: Config, attempts: nat)
    requires attempts > 0
    ensures BackoffFor(cfg, 1) == Min(cfg.baseBackoffMs, cfg.maxBackoffMs)
    ensures BackoffFor(cfg, attempts + 1) == Min(2 * BackoffFor(cfg, attempts), cfg.maxBackoffMs)
  {
    var base, power := cfg.baseBackoffMs, Pow2(attempts - 1);
    assert Pow2(0) == 1;
    assert base * Pow2(attempts) == 2 * (base * power);
  }

  /** Waits that start with the base and double up to the cap. */
  predicate IsSchedule(cfg: Config, waits: seq<int>) {
    && (waits != [] ==> waits[0] == Min(cfg.baseBackoffMs, cfg.maxBackoffMs))
    && forall i | 0 < i < |waits| :: waits[i] == Min(2 * waits[i - 1], cfg.maxBackoffMs)
  }

  lemma {:induction false} BackoffFollowsSchedule(cfg: Config, waits: seq<int>, attempts: nat)
    requires IsSchedule(cfg, waits) && 0 < attempts <= |waits|
    ensures BackoffFor(cfg, attempts) == waits[attempts - 1]
    decreases attempts
  {
    BackoffDoubles(cfg, if attempts > 1 then attempts - 1 else 1);
    if attempts > 1 { BackoffFollowsSchedule(cfg, waits, attempts - 1); }
  }

  lemma OneMore(n: int, x: int)
    ensures n * x == (n - 1) * x + x
  {
  }

  lemma {:induction false} TotalDelayBounds(cfg: Config, failures: nat)
    ensures 0 <= TotalDelay(cfg, failures)
    ensures TotalDelay(cfg, failures) <= cfg.baseBackoffMs * (Pow2(failures) - 1)
    ensures TotalDelay(cfg, failures) <= failures * cfg.maxBackoffMs
  {
    if failures == 0 {
      assert Pow2(failures) - 1 == 0;
    } else {
      TotalDelayBounds(cfg, failures - 1);
      BackoffPositive(cfg, failures);
      var before := Pow2(failures - 1);
      DoubledDelay(cfg.baseBackoffMs, before, TotalDelay(cfg, failures - 1), BackoffFor(cfg, failures));
      assert Pow2(failures) == 2 * before;
      OneMore(failures, cfg.maxBackoffMs);
    }
  }

  lemma ProductOfLess(base: int, before: int)
    ensures base * (2 * before - 1) == 2 * (base * before) - base
    ensures base * (before - 1) == base * before - base
    ensures base * (2 * before) == 2 * (base * before)
  {
  }

  /** While the doubling stays below the cap, the bound is the delay. */
  lemma {:induction false} TotalDelayIsReached(cfg: Config, failures: nat)
    requires failures > 0 && cfg.baseBackoffMs * Pow2(failures - 1) <= cfg.maxBackoffMs
    ensures TotalDelay(cfg, failures) == cfg.baseBackoffMs * (Pow2(failures) - 1)
    decreases failures
  {
    var base, before := cfg.baseBackoffMs, Pow2(failures - 1);
    ProductOfLess(base, before);
    if failures > 1 {
      ProductOfLess(base, Pow2(failures - 2));
      TotalDelayIsReached(cfg, failures - 1);
    } else {
      assert before == 1 && TotalDelay(cfg, 0) == 0;
    }
  }

  lemma {:induction false} TotalDelayMonotone(cfg: Config, few: nat, many: nat)
    requires few <= many
    ensures TotalDelay(cfg, few) <= TotalDelay(cfg, many)
    decreases many
  {
    if few < many {
      TotalDelayMonotone(cfg, few, many - 1);
      BackoffPositive(cfg, many);
    }
  }

  /** Every backoff stays below the payload TTL exactly when the cap does. */
  lemma BackoffsFitTtl(cfg: Config)
    ensures (forall attempts: nat | attempts > 0 :: BackoffFor(cfg, attempts) < cfg.payloadTtlMs)
            <==> cfg.maxBackoffMs < cfg.payloadTtlMs
  {
    forall attempts: nat | attempts > 0
      ensures BackoffFor(cfg, attempts) <= cfg.maxBackoffMs
    {
      BackoffPositive(cfg, attempts);
    }
    BackoffPositive(cfg, cfg.maxBackoffMs + 1);
  }

  /******* The Redis keys of one job type *******/

  /** queue is the sorted set (member -> score); data and leases are the payload and in-flight keys; now is the clock. */
  datatype Store = Store(now: int, queue: map<JobId, int>, data: map<JobId, Entry<Raw>>, leases: map<JobId, Entry<Token>>)

  function SetData(cfg: Config, st: Store, job: JobId, raw: Raw): Store {
    st.(data := st.data[job := Entry(raw, st.now + cfg.payloadTtlMs)])
  }

  function ZAdd(st: Store, job: JobId, score: int): Store {
    st.(queue := st.queue[job := score])
  }

  function ZRem(st: Store, job: JobId): Store {
    st.(queue := st.queue - {job})
  }

  function DelDataAndLease(st: Store, job: JobId): Store {
    st.(data := st.data - {job}, leases := st.leases - {job})
  }

  function DelLease(st: Store, job: JobId): Store {
    st.(leases := st.leases - {job})
  }

  function SetLease(cfg: Config, st: Store, job: JobId, token: Token): Store {
    st.(leases := st.leases[job := Entry(token, st.now + cfg.leaseMs)])
  }

  /** GET of the payload key followed by parseEnvelope. */
  function ReadEnvelope(st: Store, job: JobId): Option<Envelope> {
    if Live(st.data, job, st.now) then ParseEnvelope(st.data[job].value, GROUP_SUMMARY_RECOMPUTE, job) else None
  }

  /** A payload is read exactly when it is stored, unexpired, and an envelope's own text under its own id. */
  lemma ReadIsExact(st: Store, job: JobId, env: Envelope)
    ensures ReadEnvelope(st, job) == Some(env)
            <==> job in st.data && st.now < st.data[job].expiresAt && st.data[job].value == Serialize(env)
                 && env.jobId == job && env.jobType == GROUP_SUMMARY_RECOMPUTE
  {
    if job in st.data { ParseInvertsSerialize(st.data[job].value, GROUP_SUMMARY_RECOMPUTE, job, env); }
  }

  predicate Before(queue: map<JobId, int>, j: JobId, k: JobId)
    requires j in queue && k in queue
  {
    queue[j] < queue[k] || (queue[j] == queue[k] && j <= k)
  }

  /** The answer of the claim script: the first member, by score and then by name, among those due at t. */
  ghost predicate IsEarliestDue(queue: map<JobId, int>, t: int, pick: Option<JobId>) {
    match pick
    case None => forall k <- queue :: t < queue[k]
    case Some(j) => j in queue && queue[j] <= t && forall k <- queue :: queue[k] <= t ==> Before(queue, j, k)
  }

  lemma {:induction false} EarliestDueExists(queue: map<JobId, int>, t: int) returns (pick: Option<JobId>)
    ensures IsEarliestDue(queue, t, pick)
    decreases |queue|
  {
    if k :| k in queue {
      var rest := queue - {k};
      assert |rest.Keys| < |queue.Keys| by { assert rest.Keys == queue.Keys - {k}; }
      var p := EarliestDueExists(rest, t);
      if queue[k] <= t && (p.None? || Before(queue, k, p.value)) {
        pick := Some(k);
      } else {
        pick := p;
      }
      assert forall i <- queue :: i == k || i in rest;
    } else {
      pick := None;
    }
  }

  lemma EarliestDueUnique(queue: map<JobId, int>, t: int, p: Option<JobId>, q: Option<JobId>)
    requires IsEarliestDue(queue, t, p) && IsEarliestDue(queue, t, q)
    ensures p == q
  {
    if p.Some? && q.Some? {
      assert Before(queue, p.value, q.value) && Before(queue, q.value, p.value);
    }
  }
}
