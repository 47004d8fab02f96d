# Verified model of the expense-sharing backend

A Dafny model of the hard parts of the backend: the background job queue and its workers, settlement
creation under an idempotency key, the distributed lock, the money ledger, cached group details, refresh
and single-use tokens, the rate-limit counter and the metrics registry. `dafny verify dfyconfig.toml`
checks everything.

## How the model is built

Protocols are state machines. A `State` holds the Redis keys (values with an expiry instant), the database
tables and every participant's place in its code; an `Action` is one Redis command, one committed
transaction, one tick of the clock, a crash or a fault; `Run` applies any enabled sequence of them. Results
about protocols are about all runs. Some fields of a state only remember what has happened (`past`, `log`,
`parent`, `history`), so that a result can speak of it; no step reads them to decide anything.

Code that changes objects in place is modelled a second time as classes with methods, loops included,
whose `ensures` tie the new state to the functions the machines are built from. `SoloTick` and `SoloCreate`
prove that one participant left alone makes the machine do what the method does.

| Module | What it holds |
|---|---|
| `Common` | optional values, keys with expiry, sums over finite sets |
| `JobTypes`, `JobProtocol` | envelopes, backoff, Redis commands; workers interleaving single commands |
| `JobSafety`, `JobExclusion`, `JobRevival` | no job is lost; what holds when claims are timely; exactly how a removed job can return, and two workers meet |
| `JobSequential`, `JobWorker` | one poll as one step, draining; the queue and the worker as classes |
| `Idempotency`, `SettlementProtocol`, `SettlementStore`, `SettlementRecovery` | the decision table; concurrent creations; the repository as a class; lost races and how long settlements stay |
| `LockProtocol` | the lock as a protocol and as a class |
| `Splits`, `Expenses`, `Repatching`, `ExpenseService`, `Balances`, `Ledger`, `LedgerRows` | integer splitting, patches and their repetition, the balance fold, whole ledger runs and the rows they leave |
| `GroupDetails`, `GroupCacheProtocol`, `GroupService` | stored text, interleaved cached reads, the cache adapter and service as classes |
| `AuthTokens`, `AuthProtocol`, `AuthChanges`, `AuthAddresses`, `AuthSessions` | guarded commits and their classes; lookup and commit interleaved; what begins and ends sessions and tokens; addresses and their verification; what a reset ends |
| `RateLimit` | the fixed-window counter |
| `Labels`, `Registry` | escaping and series keys; counters, histograms and their rendering |

## What the proofs brought out

- A job acknowledged as done can come back to the queue. Closing issues ZREM and then DEL; what happens when it
  stops in between is exact (`ReturnIsExact`): the job can return if and only if it can still be retried and
  either a command failed inside the try block, so that the catch block schedules a retry, or the worker
  crashed while another one had already found the job and the payload outlives the lease.
  `FailedCompleteRevives` and `CrashedClosingRevives` are complete runs. Everything else that `TimelyClaims`
  says of attempts, budget and delay needs no such exception.
- A DEL that took effect but was reported as failed drops the lease while its worker goes on. Another worker can
  then be on the job too exactly when it had already found it (`OverlapIsExact`, `LostReplyOverlaps`). It finds no
  payload: in no timely run do handlers of one job overlap (`TimelyClaims`).
- The lifetime of an idempotency record is measured from the clock reading stored in it. Two creations under
  one key are a lifetime apart by those readings (`CreationsApart`); their commits may be closer, by as long
  as the first took to commit, and by no more (`CommitsApart`, `CommitsCanBeCloser`).
- The cache comment says that stale data is served when an invalidation fails. It can also be served after
  one that succeeded, when a reader that had queried before the write stores its answer after the deletion.
  `ServedGroupsAreRecent` and `InvalidationBoundsHits` bound the age; `BoundsAreReached` shows both bounds reached.
- `calculateEqualSplits` promises that shares always sum to the total. Over all integers that holds exactly
  when the remainder is not negative, and nobody shares only a zero total (`SharesSumToTotal`); callers pass
  positive totals and at least one participant.
- An expense comes back with its splits in no fixed order, since they are created at one instant, and equal shares
  are computed again from that order. A patch that only renames can therefore move a unit between users
  (`RenameMovesAUnit`); updates are idempotent exactly under the condition of `UpdateIsIdempotentIff`.
- `calculateBalances` promises a zero sum. Its total is what the splits leave unassigned (`FoldIsNet`), which
  is zero in every reachable ledger (`BalancesAddUp`), and the drift of the listed totals when splits are queried after
  their expenses (`MixedBalances`). The amounts shown to members sum to minus what former
  members still hold.
- A rendered bucket is a true cumulative count exactly when no earlier bound that an observation can reach is
  higher (`BucketIsExactIff`); bounds given to `defineHistogram` are not sorted by the code.
- A verification link stays usable when its user changes address, and then verifies the new one
  (`OldLinkVerifiesNewAddress`). It verifies the address it was sent to exactly when no other address was saved
  last in between (`LinkVerifiesItsAddress`).
- Saving an address clears the verification by comparison with the address looked up before, not with the one
  replaced (`SaveComparesWithLookup`). When another save commits in between, a user can end up verified at an address
  whose link was never used (`StaleSaveVerifiesUnusedAddress`, `StaleSaveKeepsMarkIff`).
- A password reset ends the sessions its statement saw, and just those (`ResetSparesExactlyNewcomers`): one that a
  rotation or login commits while the reset is under way stays active (`RotationOutlivesReset`).
- The branch for a missing user in the password reset is dead: a held token's user exists in every reachable
  state (`UseFailsOnlyWhenSpent`).
- The help text of `background_jobs_discarded_total` says that malformed jobs are counted. The code does not
  count them, and neither does `ProcessType`.

## Model

| member | source | states |
|---|---|---|
| `JobTypes.ParseInvertsSerialize` | backend/src/queues/jobQueue.ts:227-245 | A stored text parses to an envelope exactly when it is that envelope's own text, read under its own id and type |
| `JobTypes.ReadIsExact` | backend/src/queues/jobQueue.ts:192-205 | A payload is read exactly when it is stored, unexpired and an envelope's own text under its own id |
| `JobTypes.BackoffPositive` | backend/src/queues/jobQueue.ts:107-110 | Every backoff is positive and capped, and is the cap once the doubling reaches it |
| `JobTypes.BackoffDoubles` | backend/src/queues/jobQueue.ts:102-110 | The first failure waits the base, every further one twice as long as the one before, none longer than the cap |
| `JobTypes.BackoffFollowsSchedule` | backend/src/queues/jobQueue.ts:102-110 | So the n-th failure waits the n-th entry of the schedule that starts with the base and doubles up to the cap |
| `JobTypes.TotalDelayBounds` | backend/src/queues/jobQueue.ts:107-110 | The delays after n failures add up to at most base times (2^n - 1) and at most n times the cap |
| `JobTypes.TotalDelayIsReached` | backend/src/queues/jobQueue.ts:107-110 | While the doubling stays below the cap, the delays add up to exactly base times (2^n - 1) |
| `JobTypes.EarliestDueExists` | backend/src/queues/jobQueue.ts:222-225 | The claim script always has an answer: the earliest due member, or none when nothing is due |
| `JobTypes.EarliestDueUnique` | backend/src/queues/jobQueue.ts:222-225 | The claim script has one answer: a least score, ties broken by member |
| `JobSafety.NoJobIsLost` | backend/src/queues/jobQueue.ts:117-220 | In every interleaving of single Redis commands with crashes, faults and expiry anywhere, a job whose enqueue returned is still queued with a readable payload unless it was completed, discarded or its payload expired; no lease lasts longer than leaseMs |
| `JobSafety.NextSafe` | backend/src/queues/jobQueue.ts:149-220 | Every step of every worker keeps the invariant behind it |
| `JobSafety.ReclaimedAfterLease` | backend/src/queues/jobQueue.ts:149-176 | Once its lease has run out, an idle worker that finds the job gets its lease and its envelope, whatever the earlier holder did |
| `JobExclusion.TimelyClaims` | backend/src/queues/workerRunner.ts:84-178 | In every run in which claims end before their leases: stored attempts equal recorded failures and stay below maxAttempts, and the total delay obeys both bounds; handlers and rewrites of one job never overlap, for two workers on a job are both past its payload, which is gone; at most one worker is on a job unless a DEL reply was lost while another had found it; a removed job stays out of the set unless its closing stopped in one of the two ways that reopen it |
| `JobExclusion.RetryWaits` | backend/src/queues/jobQueue.ts:207-210 | In every such run the n-th failure of a job makes it due exactly the n-th wait of the schedule after the worker's clock, and n is below maxAttempts |
| `JobExclusion.NextExact` | backend/src/queues/workerRunner.ts:84-178 | Every timely step keeps the invariant behind it |
| `JobRevival.FailedClosePutsBack` | backend/src/queues/workerRunner.ts:107-164 | For either closing command of complete or discard inside the try block, failing with or without having taken effect: after the catch block's commands the job is a member exactly when its budget and payload allow a retry and the payload has not been deleted |
| `JobRevival.ReturnIsExact` | backend/src/queues/workerRunner.ts:84-178 | A step of a timely run lets a removed job come back, without any further such failure, exactly when it stops the closing between an effective ZREM and an effective DEL while the job is retriable: by a failing command, or by a crash when another worker has found the job and its payload outlives the lease |
| `JobRevival.FirstReturnIsExact` | backend/src/queues/workerRunner.ts:84-178 | The same for every timely run from the start, up to the first such failure |
| `JobRevival.FailedCompleteRevives` | backend/src/queues/workerRunner.ts:120-164 | A timely run from the start in which an acknowledged job returns to the queue after such a failure |
| `JobRevival.CrashedClosingRevives` | backend/src/queues/jobQueue.ts:182-185 | A timely run in which a crash between ZREM and DEL lets a worker that had found the job earlier run it again |
| `JobRevival.OverlapIsExact` | backend/src/queues/workerRunner.ts:84-178 | A step of a timely run lets two workers be on one job later, without any further such failure, exactly when a DEL of its keys takes effect but is reported as failed while another worker has already found the job |
| `JobRevival.FirstOverlapIsExact` | backend/src/queues/workerRunner.ts:84-178 | The same for every timely run from the start, up to the first such failure |
| `JobRevival.LostReplyOverlaps` | backend/src/queues/jobQueue.ts:217-220 | A timely run in which a DEL that took effect but was reported as failed leaves two workers on one job |
| `JobSequential.PayloadOutlivesEveryRetry` | backend/src/queues/jobQueue.ts:207-210 | Whatever the store, the due time of a rescheduled job lies before the expiry of its rewritten payload, for every retry, exactly when the payload TTL exceeds the backoff cap |
| `JobSequential.PollIsExact` | backend/src/queues/workerRunner.ts:84-178 | What any poll leaves: nothing changes without a free due job; no trace of an unreadable, finished or given-up job; a job comes back for exactly the failures with budget and payload left, due after its wait in the schedule, with one more attempt, a fresh TTL and no lease; other jobs are untouched |
| `JobSequential.CatchIsExact` | backend/src/queues/workerRunner.ts:148-164 | The catch block alone: the job waits its turn in the schedule or leaves no trace |
| `JobSequential.SoloTick` | backend/src/queues/workerRunner.ts:84-178 | The command-by-command run of one worker, left alone, has the same effect as the one-step poll |
| `JobSequential.SoloFailedClosing` | backend/src/queues/workerRunner.ts:105-164 | The command-by-command run of one worker whose closing command fails ends in the catch block's effect |
| `JobSequential.ClaimedTickSpends` | backend/src/queues/workerRunner.ts:133-164 | A poll that reaches a handler strictly lowers the sum of (maxAttempts - attempts), however the handler ends; any other poll changes nothing |
| `JobSequential.QueueDrains` | backend/src/queues/workerRunner.ts:70-82 | n queued jobs reach a handler at most n times maxAttempts times, over any sequence of polls and pauses |
| `JobWorker.JobQueue.Enqueue` | backend/src/queues/jobQueue.ts:117-141 | Payload with attempts 0 under a fresh TTL, then the membership; an unknown type changes nothing |
| `JobWorker.JobQueue.ClaimNext` | backend/src/queues/jobQueue.ts:149-176 | Empty, busy, malformed (and discarded) or claimed, with the lease it leaves |
| `JobWorker.JobQueue.Complete` | backend/src/queues/jobQueue.ts:182-185 | Membership, payload and lease are gone, nothing else changes; or what is left when one of the two commands fails |
| `JobWorker.JobQueue.RetryAfterFailure` | backend/src/queues/jobQueue.ts:192-211 | New attempts, fresh TTL and due time, lease dropped; a missing or malformed payload drops the membership and the lease |
| `JobWorker.JobQueue.Discard` | backend/src/queues/jobQueue.ts:217-220 | Membership, payload and lease are gone, nothing else changes; or what is left when one of the two commands fails |
| `JobWorker.WorkerRunner.ProcessType` | backend/src/queues/workerRunner.ts:84-178 | The whole poll, with closing commands of the try block that may fail into the catch block; each claimed job is counted once as succeeded, retried or discarded, failures beside that, and inFlight is restored |
| `JobWorker.WorkerRunner.HandleFailure` | backend/src/queues/workerRunner.ts:148-166 | A retry that is due after the schedule's wait for this attempt, with the rewritten payload, or discard once the attempts are used up, with their counters |
| `Idempotency.ReconcileGrants` | backend/src/modules/idempotency/reconcile.ts:20-58 | The exact condition of each of the six verdicts, on user, expiry, hash, status and resource |
| `SettlementProtocol.CreationsApart` | backend/src/modules/settlements/settlement.repository.ts:139-217 | Two creations committed under one key stamp their records at least a record lifetime apart, replaced different records and made different settlements; so of requests that saw the same expired record one at most wins |
| `SettlementProtocol.CommitsApart` | backend/src/modules/settlements/settlement.repository.ts:158-195 | Creations under one key commit in the order of their stamps, at least a lifetime apart less the time the earlier one took from stamping to committing |
| `SettlementProtocol.SuccessIsFaithful` | backend/src/modules/settlements/settlement.repository.ts:145-211 | Every success, fresh or replayed inside the transaction or after the unique violation, names a settlement committed for the same key and user with exactly the request's group, payer, payee and amount |
| `SettlementProtocol.SuccessesAgree` | backend/src/modules/settlements/settlement.repository.ts:145-211 | Successes under one key name one settlement, unless their records lie a lifetime apart |
| `SettlementRecovery.LostRaceIsAnswered` | backend/src/modules/settlements/settlement.repository.ts:199-216 | In every run a request that lost the race is answered from the record it reads again: by that record's settlement if it is unexpired and of the same user and body, as long as the settlement exists; otherwise by the conflict that fits; only a failing query ends it differently |
| `SettlementRecovery.LoserNamesWinnersSettlement` | backend/src/modules/settlements/settlement.repository.ts:139-217 | Two equal requests that both find their key unused: a run in which the second to commit is answered with the settlement of the first |
| `SettlementRecovery.CommittedSettlementStaysIff` | backend/src/modules/settlements/settlement.repository.ts:170-197 | In every run a commit that is not refused stores the requested settlement, which stays as it is exactly as long as its group is not deleted |
| `SettlementProtocol.RecordsFinished` | backend/src/modules/settlements/settlement.repository.ts:158-195 | No committed record is pending, lacks its settlement, or sits under another key |
| `SettlementProtocol.NextSound` | backend/src/modules/settlements/settlement.repository.ts:139-217 | Every step of every request keeps the invariant behind these |
| `SettlementStore.SoloCreate` | backend/src/modules/settlements/settlement.repository.ts:139-217 | A request left alone ends as the one-step creation does, tables and answer |
| `SettlementStore.RetryReplays` | backend/src/modules/settlements/settlement.repository.ts:145-154 | A retry of a successful request within the lifetime answers the same settlement and changes nothing |
| `SettlementStore.CommitsCanBeCloser` | backend/src/modules/settlements/settlement.repository.ts:158-168 | For any time that the first creation takes from stamping to committing, a run that reaches that bound |
| `SettlementStore.SettlementRepository.CreateSettlement` | backend/src/modules/settlements/settlement.repository.ts:139-217 | The transaction as statements: answer and tables are those of the one-step creation |
| `SettlementStore.SettlementRepository.ReplaySettlement` | backend/src/modules/settlements/settlement.repository.ts:261-285 | The stored settlement, an invalid state, or a settlement that is gone |
| `SettlementStore.SettlementRepository.RecoverLostRace` | backend/src/modules/settlements/settlement.repository.ts:199-216 | The catch block after the unique violation: each answer's condition on the record's presence, user, expiry, hash, status and settlement |
| `LockProtocol.OverlapNeedsExpiryOrOutage` | backend/src/redis/distributedLock.ts:65-117 | Two processes work under one lock key only if one of them outlived its TTL or runs without Redis |
| `LockProtocol.ReleaseSparesOthers` | backend/src/redis/distributedLock.ts:75-78 | A release never removes the key of another holder whose TTL is running, in any interleaving of acquires, expiries, faults and crashes |
| `LockProtocol.LockPassesOn` | backend/src/redis/distributedLock.ts:65-117 | A free lock is granted; while its holder works others enter exactly once the TTL is over or when their Redis command fails; after its release they enter at once, after its crash exactly once the TTL is over |
| `LockProtocol.NextSound` | backend/src/redis/distributedLock.ts:65-117 | A live grant's key holds its own token, after every step |
| `LockProtocol.DistributedLock.Acquire` | backend/src/redis/distributedLock.ts:65-69 | A token exactly when the key is free; then the key holds it for the TTL |
| `LockProtocol.DistributedLock.Release` | backend/src/redis/distributedLock.ts:75-78 | Deletes the key exactly while it holds this token |
| `LockProtocol.DistributedLock.WithLock` | backend/src/redis/distributedLock.ts:84-117 | Refuses under another holder, else runs the operation and passes its result or exception on; the keys afterwards, for Redis calls that fail with or without having taken effect |
| `Splits.SharesSumToTotal` | backend/src/modules/expenses/split.util.ts:22-38 | The equal shares sum to the total exactly when the remainder is not negative or nobody takes part: for every total and participant list |
| `Splits.SharesAreFair` | backend/src/modules/expenses/split.util.ts:22-38 | Shares differ by at most one minor unit, the larger ones first |
| `Splits.FairDivisionIsUnique` | backend/src/modules/expenses/split.util.ts:22-38 | Any fair division of the total among the same people, larger shares first, is this one |
| `Splits.SumPermutation` | backend/src/modules/expenses/split.util.ts:43-45 | The sum does not depend on the order of the splits |
| `Splits.DistinctIffSetSize` | backend/src/modules/expenses/expense.service.ts:276-282 | Comparing the set's size with the list's length detects exactly the lists with a duplicate |
| `Expenses.ReconcileSplitsSound` | backend/src/modules/expenses/expense.service.ts:270-320 | Splits come back exactly for distinct members whose EXACT amounts are all given and add up; then they are non-empty, duplicate-free, non-negative, sum to the total, and are within one unit for EQUAL |
| `Expenses.ReconcileSplitsExact` | backend/src/modules/expenses/expense.service.ts:270-320 | The shares are everybody's own amount for EXACT and the fair division in the given order for EQUAL; each refusal exactly for the first check that fails |
| `Expenses.CreateExpenseSound` | backend/src/modules/expenses/expense.service.ts:75-161 | A created expense satisfies the split invariant, among members only |
| `Expenses.CreateExpenseExact` | backend/src/modules/expenses/expense.service.ts:84-146 | The stored row has the request's group, payer, description, amount and split type and the shares it asks for; each refusal exactly for the first check that fails |
| `Expenses.UpdateExpenseSound` | backend/src/modules/expenses/expense.service.ts:195-246 | A patch laid over any sound expense gives a sound one of the same group |
| `Expenses.UpdateExpenseExact` | backend/src/modules/expenses/expense.service.ts:188-246 | Every field the patch names is the patch's and every other as read; shares are those of named participants, or unchanged for EXACT, or the fair division of the new total in the order read; each refusal exactly for the first check that fails |
| `Repatching.UpdateIsIdempotentIff` | backend/src/modules/expenses/expense.service.ts:180-251 | Applying a patch a second time, to the expense read back with its splits in any order, changes nothing more exactly when the patch names participants, or the result is EXACT, or its total divides evenly |
| `Repatching.PatchWithoutMoneyIff` | backend/src/modules/expenses/expense.service.ts:195-229 | A patch that names neither amount, type nor participants leaves every share with its user, for every order of the splits read, exactly when they are EXACT or divide the total evenly |
| `Repatching.SharesStayIff` | backend/src/modules/expenses/split.util.ts:22-38 | Equal shares computed again from any order stay with their users exactly when the total divides evenly |
| `Repatching.RenameMovesAUnit` | backend/src/modules/expenses/expense.repository.ts:116-127 | A run in which a patch of the description alone takes a unit from one user's share and adds it to another's |
| `ExpenseService.Service.ReconcileParticipants` | backend/src/modules/expenses/expense.service.ts:270-320 | The checking loop refuses and computes as the specification does |
| `ExpenseService.Service.Create` | backend/src/modules/expenses/expense.service.ts:75-161 | Missing group, else the row the request asks for, stored under its id, or the refusal for the first failing check; what is stored is sound |
| `ExpenseService.Service.Update` | backend/src/modules/expenses/expense.service.ts:180-251 | Missing expense, else the row the patch asks for over the splits in the order read, or the refusal for the first failing check; a sound row stays sound |
| `ExpenseService.Service.Delete` | backend/src/modules/expenses/expense.service.ts:253-268 | Members of the group delete exactly the row; nobody else changes anything |
| `Balances.FoldIsNet` | backend/src/modules/settlements/balance.util.ts:44-67 | The fold holds exactly the users of the records, each with paid minus owed plus sent minus received; its total is what the splits leave unassigned |
| `Balances.CalculateBalances` | backend/src/modules/settlements/balance.util.ts:44-67 | The nested loops compute that map |
| `Balances.SettlingClears` | backend/src/modules/settlements/balance.util.ts:7-9 | Paying one's negative balance to another member leaves one at zero, lowers the receiver's by as much and moves nobody else's |
| `Balances.BalanceBounded` | backend/src/modules/settlements/balance.util.ts:44-67 | No balance exceeds the expense total plus the settlement total in size |
| `Balances.MembersView` | backend/src/modules/settlements/settlement.service.ts:87-92 | The members' amounts sum to the map's total less the balances of record users who are not members |
| `Ledger.StoredExpensesAreSound` | backend/src/modules/expenses/expense.repository.ts:135-185 | In every run, also when updates commit from stale reads, each stored expense satisfies the split invariant |
| `LedgerRows.ExpensesAreAsLastWritten` | backend/src/modules/expenses/expense.repository.ts:73-208 | In every run an expense is stored as its last accepted write asked for, with the request as it was or the patch over the snapshot it had read, and is missing when that write was its deletion or there was none |
| `LedgerRows.SettlementsAreAsMade` | backend/src/modules/settlements/settlement.repository.ts:170-180 | In every run the stored settlements are exactly those that were made, each under its own id |
| `LedgerRows.RowsChange` | backend/src/modules/expenses/expense.service.ts:75-268 | A step changes an expense by an accepted write of it and only as that asks for, and a settlement by adding it |
| `Ledger.FoldAgreesWithBook` | backend/src/modules/settlements/balance.util.ts:44-67 | However the queries order their rows, the fold gives each user the balance of a book kept incrementally along the whole run |
| `Ledger.BalancesAddUp` | backend/src/modules/settlements/settlement.service.ts:71-93 | The balances sum to zero, each is bounded, and the members' amounts sum to minus the balances of former members, also when expenses and settlements are queried at different moments |
| `Ledger.MixedBalances` | backend/src/modules/settlements/settlement.repository.ts:93-116 | With splits queried after their expenses, the balances sum to what updates and deletions in between changed of the listed totals |
| `Ledger.GetGroupBalances` | backend/src/modules/settlements/settlement.service.ts:71-93 | The members' balances in member order, for members of an existing group only |
| `GroupDetails.DeserializeInvertsSerialize` | backend/src/modules/groups/group.cache.ts:143-206 | A stored detail reads back unchanged under its own id and is rejected under any other |
| `GroupDetails.RevivedEntriesAreComplete` | backend/src/modules/groups/group.cache.ts:164-206 | Whatever text is stored, a revived detail has the requested id, every value from the field of its name, and every stored member in order |
| `GroupCacheProtocol.ServedGroupsAreRecent` | backend/src/modules/groups/group.service.ts:47-76 | Any interleaving, failed invalidations and crashes included: a served group was, whole, the database's at one moment, for a hit later than the cache answer less the TTL and the slowest SET; the requester was a member when that was checked, after the answer |
| `GroupCacheProtocol.RefusalsAreTrue` | backend/src/modules/groups/group.service.ts:47-68 | In every interleaving a refused requester was no member when that was checked, or the group missing when it was queried, whatever the cache held |
| `GroupCacheProtocol.InvalidationBoundsHits` | backend/src/modules/groups/group.cache.ts:125-141 | After an invalidation took effect no later hit is older than that moment less the slowest SET |
| `GroupCacheProtocol.BoundsAreReached` | backend/src/modules/groups/group.service.ts:60-75 | For any TTL and lag, a run whose last hit shows the old name after a rename whose invalidation succeeded, at the far end of both bounds |
| `GroupCacheProtocol.NextSound` | backend/src/modules/groups/group.service.ts:47-76 | Every step keeps the invariant behind these |
| `GroupService.CacheKeyInjective` | backend/src/modules/groups/group.cache.ts:15-17 | Different groups never share a cache key |
| `GroupService.StoredIsRead` | backend/src/modules/groups/group.cache.ts:73-118 | What is stored is read back by its own group until it expires; other groups' entries are not affected |
| `GroupService.GroupCache.Get` | backend/src/modules/groups/group.cache.ts:73-99 | A readable entry of this group, or none when missing, expired, unreadable or failing |
| `GroupService.GroupCache.Set` | backend/src/modules/groups/group.cache.ts:105-118 | Stores the text for the TTL; a failure is counted and absorbed |
| `GroupService.GroupCache.Invalidate` | backend/src/modules/groups/group.cache.ts:125-141 | Removes exactly this group's entry; a failure is counted and absorbed |
| `GroupService.GroupService.Find` | backend/src/modules/groups/group.repository.ts:76-111 | The group with each member once, in some order, with their current names and emails |
| `GroupService.GroupService.GetGroupById` | backend/src/modules/groups/group.service.ts:47-76 | With operations that do not overlap, a read answers as the database would, cache or no cache; a readable entry is what a member is served, an answered read leaves one, a refused one changes no entry; every readable entry keeps agreeing with the database |
| `GroupService.GroupService.CreateGroup` | backend/src/modules/groups/group.service.ts:25-41 | Exactly the new row and the owner's membership are added, and only the owner is served afterwards; the cache stays in step |
| `GroupService.GroupService.UpdateGroup` | backend/src/modules/groups/group.service.ts:78-109 | Each refusal's exact condition, else exactly the name and the update time change, and reads show the new name; the cache stays in step when the invalidation succeeds |
| `GroupService.GroupService.DeleteGroup` | backend/src/modules/groups/group.service.ts:111-126 | Each refusal's exact condition, else exactly the group and its memberships are gone and nobody is served; the cache stays in step when the invalidation succeeds |
| `GroupService.GroupService.AddGroupMember` | backend/src/modules/groups/group.service.ts:128-169 | Each refusal's exact condition, else exactly this membership is added and its user is served; the cache stays in step when the invalidation succeeds |
| `GroupService.GroupService.RemoveGroupMember` | backend/src/modules/groups/group.service.ts:171-207 | Each refusal's exact condition, the owner never removed, else exactly this membership is gone and its user is refused; the cache stays in step when the invalidation succeeds |
| `GroupService.GroupService.UpdateProfile` | backend/src/modules/auth/auth.service.ts:148-181 | Both refusals' exact conditions, else exactly the named profile fields change; every cached owner, date, group name and member id stays right, only cached names and emails may be old |
| `GroupService.GroupService.PerformAll` | backend/src/modules/groups/group.service.ts:25-207 | After any sequence of creations, reads, renames, deletes, member adds and removes and profile changes with pauses between them, and no failed invalidation, every readable entry agrees with the database on name, owner, dates and member ids, and the database has gone through exactly the operations' effects |
| `GroupService.MembersAreLastGranted` | backend/src/modules/groups/group.service.ts:25-207 | After any sequence of operations a user is a member exactly when the last accepted operation on that membership granted it |
| `GroupService.CoherentLasts` | backend/src/modules/groups/group.cache.ts:125-141 | Entries stay in agreement while time passes and while other groups are written |
| `AuthProtocol.OneSuccessor` | backend/src/modules/auth/auth.repository.ts:155-169 | Over whole runs a refresh token has at most one successor and no two requests both exchange it |
| `AuthProtocol.OneLiveTokenPerChain` | backend/src/modules/auth/auth.service.ts:99-128 | Each login or registration has at most one unrevoked token, the last of its chain |
| `AuthProtocol.RevocationIsPermanent` | backend/src/modules/auth/auth.repository.ts:142-147 | A revoked row never changes again and is never exchanged again |
| `AuthChanges.SessionIsActiveIff` | backend/src/modules/auth/auth.repository.ts:134-205 | In every run a session belongs to the user of the step that began it, with the expiry given there, and is active exactly as long as no exchange, logout or reset that saw it has ended it |
| `AuthChanges.SessionsChange` | backend/src/modules/auth/auth.repository.ts:134-289 | A session row appears by a registration, a login or the exchange of an unrevoked token, is marked with the time by what ends it, and stays as it is otherwise |
| `AuthSessions.ResetEndsSessions` | backend/src/modules/auth/auth.repository.ts:261-289 | No session of the user that the reset's statement saw is ever active or exchanged after its commit, even by a request that had looked it up, whatever commits in between |
| `AuthSessions.ResetSparesExactlyNewcomers` | backend/src/modules/auth/auth.repository.ts:282-285 | Of the user's sessions just those stay active after the commit that were active before it and not there when the statement began |
| `AuthSessions.RotationOutlivesReset` | backend/src/modules/auth/auth.repository.ts:155-169 | A run in which a rotation that commits between the statement's begin and the reset leaves its successor active |
| `AuthProtocol.TokensAreSingleUse` | backend/src/modules/auth/auth.repository.ts:213-252 | At most one auth token per user and purpose, and no two requests consume the same one |
| `AuthChanges.TokenIsUnusedIff` | backend/src/modules/auth/auth.repository.ts:186-252 | In every run a single-use token is of the user and purpose it was made for, with its expiry, and is unused exactly as long as it has been neither spent nor replaced |
| `AuthChanges.TokensChange` | backend/src/modules/auth/auth.repository.ts:194-289 | A token row appears as it is made, is marked as it is spent, is deleted as it is replaced, and stays as it is otherwise |
| `AuthChanges.AdmissionsAreExact` | backend/src/modules/auth/auth.service.ts:99-314 | Which lookups admit a request, stated on the row that is read, and which exchanges and saves succeed |
| `AuthProtocol.ReissueSupersedes` | backend/src/modules/auth/auth.repository.ts:213-221 | Once a token is issued again the earlier one takes no further effect, even for a request that holds it |
| `AuthAddresses.UsersChange` | backend/src/modules/auth/auth.service.ts:148-219 | A user changes by the use of a token and by a saved profile, and by nothing else: to what the token is for; to the wanted address, unverified exactly when it differs beyond case from the address looked up |
| `AuthChanges.UsersAppear` | backend/src/modules/auth/auth.repository.ts:176-205 | A user appears by registering, with the address and password given and unverified, and in no other way |
| `AuthAddresses.LinkVerifiesItsAddress` | backend/src/modules/auth/auth.service.ts:221-248 | In every run, using a link marks as verified the address it was sent to exactly when no other address was saved for the user between lookup and use, or that address was saved last |
| `AuthAddresses.FirstLinkVerifiesItsAddress` | backend/src/modules/auth/auth.service.ts:53-80 | The same for the link sent at registration |
| `AuthAddresses.OldLinkVerifiesNewAddress` | backend/src/modules/auth/auth.repository.ts:104-125 | A run in which a link sent to the address left behind verifies the new one |
| `AuthAddresses.SaveComparesWithLookup` | backend/src/modules/auth/auth.service.ts:167-176 | A saved address clears the verification exactly when it differs beyond case from the address at the lookup; the address it replaces is the one saved last since |
| `AuthAddresses.MarkOutlivesAddressIff` | backend/src/modules/auth/auth.service.ts:165-176 | A step leaves a user verified at an address that differs beyond case from the one it replaces exactly when it saves the address looked up before for a verified user who had another one by then |
| `AuthAddresses.StaleSaveKeepsMarkIff` | backend/src/modules/auth/auth.service.ts:165-176 | The same over any run from the lookup to the save, with the address saved last since |
| `AuthAddresses.StaleSaveVerifiesUnusedAddress` | backend/src/modules/auth/auth.service.ts:165-176 | A run that ends with a user verified at an address to which no used link was sent |
| `AuthAddresses.AddressIsLastSaved` | backend/src/modules/auth/auth.repository.ts:116-124 | In every run a user's address is the one saved last |
| `AuthAddresses.UseFailsOnlyWhenSpent` | backend/src/modules/auth/auth.repository.ts:233-289 | In every reachable state a held token's user exists, so a use fails exactly when the token was used or replaced, and then changes nothing |
| `AuthProtocol.NextSound` | backend/src/modules/auth/auth.repository.ts:142-289 | Every lookup and commit keeps the invariant behind these |
| `AuthTokens.LookupFailure` | backend/src/modules/auth/auth.service.ts:183-204 | The exact condition of each failure, and none exactly for an unused, unexpired token of the purpose |
| `AuthTokens.ProfileFailureOf` | backend/src/modules/auth/auth.service.ts:152-165 | The exact condition of each failure, and none exactly when the user exists and the address is free |
| `AuthTokens.LowerCaseEqualIff` | backend/src/modules/auth/auth.service.ts:169-170 | Two addresses compare equal exactly when they differ in letter case alone |
| `AuthTokens.AuthRepository.RevokeRefreshTokenById` | backend/src/modules/auth/auth.repository.ts:142-147 | Revokes and counts one exactly when the row was active |
| `AuthTokens.AuthRepository.RotateRefreshToken` | backend/src/modules/auth/auth.repository.ts:155-169 | Revocation and successor together, or nothing |
| `AuthTokens.AuthRepository.CreateUserWithAuthData` | backend/src/modules/auth/auth.repository.ts:176-205 | User, session and verification token together, or nothing when the address is in use |
| `AuthTokens.AuthRepository.Update` | backend/src/modules/auth/auth.repository.ts:104-125 | The wanted address and the cleared verification, or nothing for a missing user or an address in use |
| `AuthTokens.AuthRepository.CreateAuthToken` | backend/src/modules/auth/auth.repository.ts:213-221 | The pair's old tokens are deleted, others kept, the new one stored |
| `AuthTokens.AuthRepository.ConsumeVerificationTokenAndVerifyUser` | backend/src/modules/auth/auth.repository.ts:233-252 | Consumption and verification together, or nothing, also when the user is missing |
| `AuthTokens.AuthRepository.ConsumePasswordResetTokenAndUpdatePassword` | backend/src/modules/auth/auth.repository.ts:261-289 | Consumption, new password and revocation of exactly the user's active sessions; a missing user still consumes the token |
| `AuthTokens.AuthService.Refresh` | backend/src/modules/auth/auth.service.ts:99-128 | Succeeds exactly for an active unexpired token, and rotates it |
| `AuthTokens.AuthService.Logout` | backend/src/modules/auth/auth.service.ts:130-138 | Revokes the token if it is active, otherwise nothing |
| `AuthTokens.AuthService.VerifyEmailAddress` | backend/src/modules/auth/auth.service.ts:183-219 | Each failure in order, else the verification |
| `AuthTokens.AuthService.ResetUserPassword` | backend/src/modules/auth/auth.service.ts:273-314 | Each failure in order, else the reset |
| `AuthTokens.AuthService.UpdateCurrentUser` | backend/src/modules/auth/auth.service.ts:148-181 | Each failure in order; alone, a saved address clears the verification exactly when it differs beyond case |
| `RateLimit.SlidingWindowBound` | backend/src/redis/rateLimitStore.ts:11-18 | Any interval [t, t + windowMs] holds at most 2 times limit hits on a key answered with totalHits at most limit, for every arrival sequence |
| `RateLimit.CounterIsExact` | backend/src/redis/rateLimitStore.ts:11-18 | An answer counts exactly the key's hits since its window's first hit |
| `RateLimit.WindowsCountExactly` | backend/src/redis/rateLimitStore.ts:11-18 | Hits of one window are numbered 1, 2, ... in order, each window from its own first hit |
| `RateLimit.WindowsDisjoint` | backend/src/redis/rateLimitStore.ts:11-18 | Windows of a key do not overlap |
| `RateLimit.BoundIsTight` | backend/src/redis/rateLimitStore.ts:11-18 | For every window and limit, an arrival sequence that reaches twice the limit |
| `RateLimit.RedisRateLimitStore.Increment` | backend/src/redis/rateLimitStore.ts:56-79 | The next number and the same reset time in a running window; one and a full window otherwise |
| `Labels.EscapeIsOnePass` | backend/src/metrics/registry.ts:81-83 | The three successive replacements equal a one-pass character escape |
| `Labels.ReadEscaped` | backend/src/metrics/registry.ts:81-83 | An escaped value read up to its closing quote gives the value back, whatever follows |
| `Labels.EscapeInjective` | backend/src/metrics/registry.ts:81-83 | Two values escape alike exactly when they are equal |
| `Labels.ReadKeyInverts` | backend/src/metrics/registry.ts:264-273 | The joined key parses back to its names and values |
| `Labels.SeriesKeyInjective` | backend/src/metrics/registry.ts:264-273 | Two label maps share a series exactly when they agree on the declared keys |
| `Labels.BucketKeyReadsBack` | backend/src/metrics/registry.ts:236-239 | A bucket line's labels parse back to the series' labels followed by its bound |
| `Labels.BuildSeriesKey` | backend/src/metrics/registry.ts:264-273 | The loop over the declared keys builds that key |
| `Labels.GivenInOrder` | backend/src/metrics/registry.ts:264-273 | The given labels come in declared order |
| `Registry.FirstBucket` | backend/src/metrics/registry.ts:163-169 | The first bucket whose bound the value does not exceed |
| `Registry.CumulativeCounts` | backend/src/metrics/registry.ts:232-239 | For any buckets, a rendered value counts the observations up to the highest bound so far |
| `Registry.BucketIsExactIff` | backend/src/metrics/registry.ts:228-239 | A bucket renders the count at its own bound for all observations exactly when no earlier bound an observation can reach is higher |
| `Registry.HistogramIsCumulative` | backend/src/metrics/registry.ts:228-245 | Sorted buckets: exact values that never fall, none above the count; count and sum are those of the observations |
| `Registry.SeriesHoldsItsObservations` | backend/src/metrics/registry.ts:149-175 | After any log of recordings a series holds exactly the accepted observations whose labels agree with it, since the last reset |
| `Registry.CounterHoldsItsIncrements` | backend/src/metrics/registry.ts:135-143 | After any log of recordings a counter holds the sum of exactly the accepted increments whose labels agree with it, since the last reset, infinite ones included |
| `Registry.RenderedBucketsAreTrue` | backend/src/metrics/registry.ts:228-245 | Both together: rendered buckets of a series count its own observations |
| `Registry.StoredIffObserved` | backend/src/metrics/registry.ts:154-174 | A series is stored for exactly the label sets that were observed |
| `Registry.RenderedLinesAreTrue` | backend/src/metrics/registry.ts:231-246 | Whatever was recorded, every rendered bucket line of a sorted histogram belongs to observed labels, parses back to them and its bound, and carries the number of their own observations at or below it; +Inf and count carry them all, sum their total |
| `Registry.RenderedCounterIsTrue` | backend/src/metrics/registry.ts:221-226 | Whatever was recorded, a counter's line belongs to counted labels, parses back to them and carries the sum of their own increments |
| `Registry.BodyInOrder` | backend/src/metrics/registry.ts:221-247 | The lines of the series stand one after the other, in the order of the series |
| `Registry.DefaultBucketsSorted` | backend/src/metrics/registry.ts:75-79 | The default buckets are sorted |
| `Registry.MetricsRegistry.DefineCounter` | backend/src/metrics/registry.ts:113-118 | Stored exactly when name and label keys are valid |
| `Registry.MetricsRegistry.DefineHistogram` | backend/src/metrics/registry.ts:120-129 | Stored exactly when name and label keys are valid, with default buckets for none |
| `Registry.MetricsRegistry.Increment` | backend/src/metrics/registry.ts:135-143 | A positive amount is added to its series, anything else is ignored, for any number as amount |
| `Registry.MetricsRegistry.Observe` | backend/src/metrics/registry.ts:149-175 | A finite value that is not negative is added to its series, in its first qualifying bucket; anything else is ignored |
| `Registry.MetricsRegistry.CounterValue` | backend/src/metrics/registry.ts:178-183 | The series' value, zero when never recorded or not a counter |
| `Registry.MetricsRegistry.HistogramCount` | backend/src/metrics/registry.ts:186-191 | The series' count, zero when never recorded or not a histogram |
| `Registry.MetricsRegistry.Reset` | backend/src/metrics/registry.ts:206-209 | Nothing is recorded any more, definitions stay |
| `Registry.MetricsRegistry.RenderSeries` | backend/src/metrics/registry.ts:231-246 | Every line of one series: each bucket with its bound and cumulative value, +Inf, sum and count |
| `Registry.MetricsRegistry.RenderMetric` | backend/src/metrics/registry.ts:215-247 | The two header lines, then the lines of every stored series of the metric, each series once |
| `Registry.MetricsRegistry.CountInBucket` | backend/src/metrics/registry.ts:163-169 | The loop counts the value in its first qualifying bucket and nowhere else |

## Left out

- JobExclusion.TimelyClaims: exempts jobs whose closing stopped between ZREM and DEL, and overlap after a lost DEL reply that another worker can use, because the code has these runs; `ReturnIsExact` and `OverlapIsExact` say exactly when.
- JobWorker.WorkerRunner.ProcessType: models failing commands in the try block's closing; commands that fail in `claimNext` or in the catch block end the poll and, like crashes, are steps of `JobProtocol`.
- SettlementProtocol.CreationsApart: spaces creations by the clock readings stored in their records, because commit times can be closer (`CommitsCanBeCloser`).
- Labels.SeriesKeyInjective: label maps have own string values only; names a JavaScript object inherits are not looked up.
- Registry.SeriesHoldsItsObservations: the catalog is fixed during the log, as at start-up; redefining a histogram with other bounds keeps its old counts and is not covered.
- Registry.MetricsRegistry.RenderMetric: renders one metric, its series in some order; joining the metrics into one text and number formatting are left out.
- GroupService.GroupService.GetGroupById: Redis may be down in any call, but calls do not overlap; overlapping ones are runs of `GroupCacheProtocol`.
- GroupService.GroupService.UpdateGroup: the second lookup of the group inside the repository cannot miss when operations do not overlap, so its error branch is absent; likewise the missing user of a member in `RemoveGroupMember`.
- GroupService.GroupService.CreateGroup: activity events and counters are not part of this model.
- GroupCacheProtocol.ServedGroupsAreRecent: the group query and its members are read as one snapshot; cache entries are kept as details, whose stored text reads back unchanged (`DeserializeInvertsSerialize`).
- GroupDetails.DeserializeInvertsSerialize: JSON text is a tree of values, and the platform's date text is a pair of functions of which the second undoes the first.
- AuthProtocol.OneSuccessor: a token is identified with its row, since its hash is unique; apart from the reset's statement on the sessions each transaction is one atomic commit, so a unique violation between concurrent re-issues does not arise.
- AuthTokens.AuthRepository.ConsumePasswordResetTokenAndUpdatePassword: nothing else commits during the call; `AuthSessions` has the reset with other commits in between.
- AuthAddresses.UsersChange: letter case is ASCII, which is all the address check admits; display names and users without a password are not part of this model.
- Ledger.FoldAgreesWithBook: compares with the book at the one moment at which all rows were queried; the code queries expenses, their splits and settlements one after the other (`BalancesAddUp` and `MixedBalances` allow that).
- Ledger.BalancesAddUp: reads each expense with its splits as one snapshot; `MixedBalances` gives the sum otherwise.
- LockProtocol.DistributedLock.WithLock: nobody else touches the keys while the operation runs; interleaved use is a run of the protocol.
- GroupService.GroupService.PerformAll: asks that no invalidation fails, because a failed one leaves the entry stale until its TTL.
- The worker's start and stop loops, poll intervals and sleeping: timing only; `Tick` pauses by any amount.
- Several job types: the allowlist has one, so the loop over types is a single poll.
- Request ids, log lines, e-mails, password hashing, JWTs and HTTP mapping.
- The settlement service's checks of group, members and distinct users before `createSettlement`; settlements in `Ledger` are positive and between different users.
- Activity events written beside expenses, settlements and groups.
- Pagination, DTO mapping, group listings and summary aggregation.
- JavaScript number precision: amounts are integers of any size and observations are reals.
- Key expiry instants: a key is readable strictly before its expiry instant.
- `decrement` and `resetKey` of the rate-limit store, and the comparison with the limit made by express-rate-limit; a failing store, which lets requests through.
- Currency, dates and descriptions of expenses beyond being carried along.
- Deletion of users: no operation of the backend deletes one.
