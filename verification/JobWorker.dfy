/** The queue client and the worker as objects over the Redis keys, one statement for each Redis command. */
module JobWorker {
  import opened Common
  import opened JobTypes
  import opened JobProtocol
  import opened JobSequential

  /** The Redis server, as seen by one client at a time. */
  class RedisServer {
    var keys: Store

    constructor (now: int)
      ensures keys == Store(now, map[], map[], map[])
    {
      keys := Store(now, map[], map[], map[]);
    }

    method EvalClaimScript(now: int) returns (id: Option<JobId>)
      ensures IsEarliestDue(keys.queue, now, id)
    {
      ghost var witnessPick := EarliestDueExists(keys.queue, now);
      if job :| job in keys.queue && keys.queue[job] <= now
                && forall k <- keys.queue :: keys.queue[k] <= now ==> Before(keys.queue, job, k)
      {
        id := Some(job);
      } else {
        id := None;
      }
    }

    method SetLeaseNx(cfg: Config, job: JobId, token: Token) returns (ok: bool)
      modifies this
      ensures ok == !Live(old(keys).leases, job, old(keys).now)
      ensures keys == if ok then SetLease(cfg, old(keys), job, token) else old(keys)
    {
      ok := !Live(keys.leases, job, keys.now);
      if ok { keys := SetLease(cfg, keys, job, token); }
    }

    method GetData(job: JobId) returns (raw: Option<Raw>)
      ensures raw == if Live(keys.data, job, keys.now) then Some(keys.data[job].value) else None
    {
      raw := if Live(keys.data, job, keys.now) then Some(keys.data[job].value) else None;
    }
  }

  class JobQueue {
    const redis: RedisServer
    const config: Config
    var nextToken: Token

    constructor (redis: RedisServer, config: Config)
      ensures this.redis == redis && this.config == config
    {
      this.redis, this.config, nextToken := redis, config, 0;
    }

    /** enqueue: the payload first, then the membership; unknown types are refused before any write. */
    method Enqueue(jobType: string, jobId: JobId, payload: string, scheduledFor: Option<int>, createdAt: string)
      returns (envelope: Option<Envelope>)
      modifies redis
      ensures envelope.Some? <==> jobType == GROUP_SUMMARY_RECOMPUTE
      ensures envelope.None? ==> redis.keys == old(redis.keys)
      ensures envelope.Some? ==>
        && ReadEnvelope(redis.keys, jobId) == envelope && envelope.value.attempts == 0 && envelope.value.payload == payload
        && redis.keys.queue == old(redis.keys).queue[jobId := if scheduledFor.Some? then scheduledFor.value else old(redis.keys).now]
        && redis.keys.data - {jobId} == old(redis.keys).data - {jobId}
        && redis.keys.data[jobId].expiresAt == old(redis.keys).now + config.payloadTtlMs
        && redis.keys.leases == old(redis.keys).leases && redis.keys.now == old(redis.keys).now
    {
      if jobType != GROUP_SUMMARY_RECOMPUTE { return None; }
      var env := Envelope(jobId, jobType, payload, 0, createdAt);
      redis.keys := SetData(config, redis.keys, jobId, Serialize(env));
      redis.keys := ZAdd(redis.keys, jobId, if scheduledFor.Some? then scheduledFor.value else redis.keys.now);
      ParseInvertsSerialize(Serialize(env), GROUP_SUMMARY_RECOMPUTE, jobId, env);
      return Some(env);
    }

    method ClaimNext() returns (result: ClaimResult, ghost pick: Option<JobId>)
      modifies redis, this
      ensures IsEarliestDue(old(redis.keys).queue, old(redis.keys).now, pick)
      ensures result == ClaimOutcome(old(redis.keys), pick)
      ensures redis.keys == AfterClaim(config, old(redis.keys), pick, old(nextToken))
      ensures nextToken == old(nextToken) + if pick.Some? then 1 else 0
    {
      var jobId := redis.EvalClaimScript(redis.keys.now);
      pick := jobId;
      if jobId.None? { return Empty, pick; }
      var token := nextToken;
      nextToken := nextToken + 1;
      var lease := redis.SetLeaseNx(config, jobId.value, token);
      if !lease { return Busy, pick; }
      var raw := redis.GetData(jobId.value);
      if raw.None? {
        var _ := Discard(jobId.value, Closes);
        return Malformed(jobId.value), pick;
      }
      var envelope := ParseEnvelope(raw.value, GROUP_SUMMARY_RECOMPUTE, jobId.value);
      if envelope.None? {
        var _ := Discard(jobId.value, Closes);
        return Malformed(jobId.value), pick;
      }
      return Claimed(jobId.value, envelope.value), pick;
    }

    method Complete(jobId: JobId, closing: Closing) returns (failed: bool)
      modifies redis
      ensures redis.keys == Closed(old(redis.keys), jobId, closing) && failed == !closing.Closes?
    {
      if closing.ZRemFails? {
        if closing.applied { redis.keys := ZRem(redis.keys, jobId); }
        return true;
      }
      redis.keys := ZRem(redis.keys, jobId);
      if closing.DelFails? {
        if closing.applied { redis.keys := DelDataAndLease(redis.keys, jobId); }
        return true;
      }
      redis.keys := DelDataAndLease(redis.keys, jobId);
      return false;
    }

    method Discard(jobId: JobId, closing: Closing) returns (failed: bool)
      modifies redis
      ensures redis.keys == Closed(old(redis.keys), jobId, closing) && failed == !closing.Closes?
    {
      failed := Complete(jobId, closing);
    }

    method RetryAfterFailure(jobId: JobId, attempts: nat, delayMs: int)
      modifies redis
      ensures redis.keys == Retried(config, old(redis.keys), jobId, attempts, delayMs)
    {
      var raw := redis.GetData(jobId);
      var envelope := if raw.None? then None else ParseEnvelope(raw.value, GROUP_SUMMARY_RECOMPUTE, jobId);
      if envelope.None? {
        redis.keys := ZRem(redis.keys, jobId);
        redis.keys := DelLease(redis.keys, jobId);
        return;
      }
      var updated := envelope.value.(attempts := attempts);
      redis.keys := SetData(config, redis.keys, jobId, Serialize(updated));
      redis.keys := ZAdd(redis.keys, jobId, redis.keys.now + delayMs);
      redis.keys := DelLease(redis.keys, jobId);
    }
  }

  class WorkerRunner {
    const queue: JobQueue
    var inFlight: nat
    // The job counters of the metrics registry.
    var succeeded: nat
    var failed: nat
    var retried: nat
    var discarded: nat

    constructor (queue: JobQueue)
      ensures this.queue == queue && inFlight == 0
    {
      this.queue, inFlight := queue, 0;
      succeeded, failed, retried, discarded := 0, 0, 0, 0;
    }

    /**
     processType, with the schema check and the handler ending in `outcome`, and the closing commands of the try
     block in `closing`. Every claimed job is counted once as succeeded, retried or discarded.
     */
    method ProcessType(outcome: Outcome, closing: Closing) returns (ghost pick: Option<JobId>)
      modifies this, queue, queue.redis
      ensures IsEarliestDue(old(queue.redis.keys).queue, old(queue.redis.keys).now, pick)
      ensures queue.redis.keys == Processed(queue.config, old(queue.redis.keys), pick, old(queue.nextToken), outcome, closing)
      ensures inFlight == old(inFlight)
      ensures
        var claim := ClaimOutcome(old(queue.redis.keys), pick);
        if !claim.Claimed? then
          succeeded == old(succeeded) && failed == old(failed) && retried == old(retried) && discarded == old(discarded)
        else
          && succeeded + retried + discarded == old(succeeded + retried + discarded) + 1
          && (succeeded > old(succeeded) <==> outcome.Succeed? && closing.Closes?)
          && (retried > old(retried) <==> Fails(outcome, closing) && claim.envelope.attempts + 1 < queue.config.maxAttempts)
          && failed == old(failed) + (if outcome.PermanentFailure? || Fails(outcome, closing) then 1 else 0)
          && succeeded >= old(succeeded) && retried >= old(retried) && discarded >= old(discarded)
    {
      var result, due := queue.ClaimNext();
      pick := due;
      match result
      case Empty => return;
      case Busy => return;
      case Malformed(_) => return;
      case Claimed(jobId, envelope) =>
        inFlight := inFlight + 1;
        RunJob(jobId, envelope, outcome, closing);
        inFlight := inFlight - 1;
    }

    /** The try block and its catch block. */
    method RunJob(jobId: JobId, envelope: Envelope, outcome: Outcome, closing: Closing)
      modifies this`succeeded, this`failed, this`retried, this`discarded, queue.redis
      ensures queue.redis.keys == JobDone(queue.config, old(queue.redis.keys), jobId, envelope, outcome, closing)
      ensures succeeded == old(succeeded) + (if outcome.Succeed? && closing.Closes? then 1 else 0)
      ensures failed == old(failed) + (if outcome.PermanentFailure? || Fails(outcome, closing) then 1 else 0)
      ensures retried == old(retried) + (if Fails(outcome, closing) && envelope.attempts + 1 < queue.config.maxAttempts then 1 else 0)
      ensures succeeded + retried + discarded == old(succeeded + retried + discarded) + 1 && discarded >= old(discarded)
    {
      var caught := false;
      match outcome {
        case InvalidPayload =>
          caught := queue.Discard(jobId, closing);
          if !caught { discarded := discarded + 1; }
        case Succeed =>
          caught := queue.Complete(jobId, closing);
          if !caught { succeeded := succeeded + 1; }
        case PermanentFailure =>
          var _ := queue.Discard(jobId, Closes);
          failed, discarded := failed + 1, discarded + 1;
        case Failure =>
          caught := true;
      }
      if caught { HandleFailure(jobId, envelope); }
    }

    /** The catch block for anything but a permanent failure. */
    method HandleFailure(jobId: JobId, envelope: Envelope)
      modifies this`failed, this`retried, this`discarded, queue.redis
      ensures queue.redis.keys == AfterFailure(queue.config, old(queue.redis.keys), jobId, envelope)
      ensures ReadEnvelope(old(queue.redis.keys), jobId) == Some(envelope) && envelope.attempts + 1 < queue.config.maxAttempts ==>
                forall waits :: IsSchedule(queue.config, waits) && envelope.attempts < |waits| ==>
                  PutBack(queue.config, old(queue.redis.keys), queue.redis.keys, jobId, envelope, waits[envelope.attempts])
      ensures failed == old(failed) + 1
      ensures retried == old(retried) + (if envelope.attempts + 1 < queue.config.maxAttempts then 1 else 0)
      ensures discarded == old(discarded) + (if envelope.attempts + 1 < queue.config.maxAttempts then 0 else 1)
    {
      if ReadEnvelope(queue.redis.keys, jobId) == Some(envelope) {
        forall waits | IsSchedule(queue.config, waits)
          ensures envelope.attempts + 1 < queue.config.maxAttempts && envelope.attempts < |waits| ==>
                    PutBack(queue.config, queue.redis.keys, AfterFailure(queue.config, queue.redis.keys, jobId, envelope),
                            jobId, envelope, waits[envelope.attempts])
        {
          CatchIsExact(queue.config, queue.redis.keys, jobId, envelope, waits);
        }
      }
      var attempts := envelope.attempts + 1;
      if attempts >= queue.config.maxAttempts {
        var _ := queue.Discard(jobId, Closes);
        failed, discarded := failed + 1, discarded + 1;
      } else {
        queue.RetryAfterFailure(jobId, attempts, BackoffFor(queue.config, attempts));
        failed, retried := failed + 1, retried + 1;
      }
    }
  }
}
