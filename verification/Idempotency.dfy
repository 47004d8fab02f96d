/** Idempotency records and the decision table over a stored record, a request and the clock. */
module Idempotency {
  import opened Common

  const RECORD_TTL_MS := 24 * 60 * 60 * 1000

  type Key = string
  type User = string
  type RecordId = nat
  type SettlementId = nat

  /** What the request hash covers: group, payer, payee and amount. */
  datatype Body = Body(groupId: string, payerId: string, payeeId: string, amountMinorUnits: nat)

  /** SHA-256 over the serialized body, as an injective function. */
  datatype Digest = Digest(body: Body)

  datatype Status = Pending | Completed

  datatype Record = Record(id: RecordId, key: Key, userId: User, requestHash: Digest, status: Status,
                           resourceId: Option<SettlementId>, expiresAt: int)

  datatype Context = Context(key: Key, userId: User, requestHash: Digest)

  datatype Verdict = Replay | Reuse | KeyReusedByOtherUser | KeyReusedWithOtherBody | InvalidState | InProgress

  function Reconcile(record: Record, context: Context, now: int): Verdict {
    if record.userId != context.userId then KeyReusedByOtherUser
    else if record.expiresAt <= now then Reuse
    else if record.requestHash != context.requestHash then KeyReusedWithOtherBody
    else if record.status.Completed? && record.resourceId.Some? then Replay
    else if record.status.Completed? then InvalidState
    else InProgress
  }

  /** Each verdict's exact condition. No error are only: replay for the same user's same unexpired finished request, and
      reuse for the same user's expired record. */
  lemma ReconcileGrants(record: Record, context: Context, now: int)
    ensures Reconcile(record, context, now) == Replay
            <==> (record.userId == context.userId && now < record.expiresAt && record.requestHash == context.requestHash
                  && record.status == Completed && record.resourceId != None)
    ensures Reconcile(record, context, now) == Reuse
            <==> record.userId == context.userId && record.expiresAt <= now
    ensures Reconcile(record, context, now) == InProgress
            <==> (record.userId == context.userId && now < record.expiresAt && record.requestHash == context.requestHash
                  && record.status == Pending)
    ensures Reconcile(record, context, now) == KeyReusedByOtherUser <==> record.userId != context.userId
    ensures Reconcile(record, context, now) == KeyReusedWithOtherBody
            <==> record.userId == context.userId && now < record.expiresAt && record.requestHash != context.requestHash
    ensures Reconcile(record, context, now) == InvalidState
            <==> (record.userId == context.userId && now < record.expiresAt && record.requestHash == context.requestHash
                  && record.status == Completed && record.resourceId == None)
  {
    match record.status {
      case Pending =>
      case Completed =>
    }
  }
}
