# Credit ledger, AI-query saga and their recovery paths, verified

A Dafny model of the money side of the platform's core API: the event-sourced credit wallet
with two-phase reservations, the AI-query saga that spends from it, everything that recovers
from a saga that failed half-way, and the two gates in front of it (idempotency keys, rate
limit). The revision history of knowledge items is included because it rests on the same
optimistic concurrency. `dafny verify dfyconfig.toml` checks the project.

## How it is built

| file | what it models |
|---|---|
| CreditLedger.dfy | events, the fold, what an operation decides, which streams those decisions can build, the life of one reservation |
| CreditAccount.dfy | the aggregate as a class updated in place, proved against CreditLedger |
| WalletQuery.dfy | the read side's own fold and the recent entries |
| CreditTables.dfy | ledger, ai_queries and outbox; each command's transaction as a value (`Execute`) and as the handler's statements on a `Transaction` |
| CreditBooks.dfy | what one transaction keeps: legal streams, agreeing tables, idempotent release; which transactions the version key rejects |
| CreditCommands.dfy | what each command does in events, balances, rows, messages and answers, without mentioning how it is decided |
| CreditSystem.dfy | every actor interleaved: saga runs, direct commands, queue workers, sweeper, crashes, rollbacks |
| CreditSystemInvariant.dfy, CreditSystemTheorems.dfy | the inductive invariant, and what holds in every reachable state |
| CreditSystemProgress.dfy, IdempotentAskProgress.dfy | what can always still happen: a run that goes through, a recorded release that gets done, an answer that is replayed |
| AskAi.dfy | the saga handler and the bus around it, statement by statement, while others keep committing |
| ClaimQueue.dfy, CompensationReaper.dfy | the claim/retry row machine of `saga_compensations` and `outbox_events`, and the reaper's loops |
| ReservationSweeper.dfy | the stale-hold query against the fold, and sweeping |
| Idempotency.dfy, IdempotencyInterceptor.dfy, IdempotentAsk.dfy | the key protocol interleaved, one request through the interceptor, and the saga behind it |
| TokenBucket.dfy | the rate limit |
| KnowledgeRevisions.dfy | edits under optimistic concurrency and the revisions they leave |
| Foundations.dfy | options, and sums over map values in any order |

Concurrent parts are state machines: `Enabled` says when a step is possible, `Do` what it does,
and a run is any sequence of possible steps. A transaction reads when it begins and writes when
it finishes; others may commit in between. Saga runs and requests may crash between any two
steps; a worker or transaction that dies takes no further step. Clocks, ids, runner and RAG
outcomes, failing writes and what others do are parameters of the steps, so the theorems hold
for every choice of them.

Hypotheses, all stated in the model:

- A reservation id is never issued twice (`randomUUID`): a run can only start under an id no
  other run has. `reserve` itself does not refuse an id that was used before
  (`ReservationSweeper.QueryAgreesIffNoReuse` shows what goes wrong then).
- The command bus lives in another package. Assumed of it: one transaction per command, a
  version conflict may be retried from scratch, a dispatch that rejects has rolled back, a saga
  that throws runs what it registered, and what fails of that is recorded (or not, if that fails).
- An idempotency row is not purged while its key is in use.
- `ClaimQueue` theorems named "timely" assume that no claim is reaped while its worker is alive.

Where the code and what is written about it differ, the model follows the code:

- `saga-compensation-reaper.service.ts:92-93` says only the claim can reach the outer catch.
  `markFailed` in the inner catch can throw as well; the loop is then left, and the rest of the
  batch waits for the reaper of stale claims (`CompensationReaper.Reaper.Work`).
- `markProcessed` and `markFailed` filter on the id alone, and so does the read after a claim, so
  DONE is not final while any worker still holds a claim on the row, not even if that worker has
  yet to read it: `ClaimQueue.DoneReopenedIff`, with a run for each
  (`ClaimQueue.OverrunReopensDone`, `ClaimQueue.UnreadClaimReopensDone`).
- `prisma-ai-query.repository.ts:17-19` relies on only one of two commands running for a
  reservation. Both may run; it is the OPEN check on the ledger that lets only one write.
- `recentLimit` bounds the wallet entries only from 1 on (`WalletQuery.RecentBoundedIff`).
- The interceptor promises that a retry is not stuck behind a phantom claim. That holds exactly
  while the key is unclaimed, answered, or held by a request that is alive and can still record
  or delete (`Idempotency.RetryServedIff`). A process that dies in the handler is enough to break
  it (`Idempotency.MishapBlocksKey`, `IdempotentAsk.CrashedRunBlocksKey`).
- Keys are looked up by the header alone and the hash leaves the caller out, so "the exact same
  request" does not mean the same caller (`Idempotency.OwnKeyOwnAnswer`,
  `Idempotency.ReplayIgnoresCaller`).
- `updateWithOcc` and `update` both write back status, verification and deletion from the loaded
  item, and `update` the accepted answer too, so a commit can undo them
  (`KnowledgeRevisions.CommitTakesBackIff`, with runs for an edit, a verification and a publication).
- The lazy rate limit agrees with an eager one for timestamps in any order, not only increasing ones.

## Model

| member | source | states |
|---|---|---|
| `CreditSystemTheorems.TablesAgree` | src/modules/credit/application/commands/ask-ai/ask-ai.handler.ts:69-173 | in every state any interleaving of runs, direct commands, retries, sweeps and crashes can reach, ledger events, ai_queries row and outbox messages of a run tell one story: nothing; one Reserved; Reserved and one Committed with one ANSWERED row costing what was held and one CreditSpent message; or Reserved and one Released with one FAILED row costing 0 and one release message |
| `CreditSystemTheorems.NoStrayIds` | src/modules/credit/infrastructure/repositories/prisma-ai-query.repository.ts:10-24 | in every such state no ledger event, row or message carries an id that no run made |
| `CreditSystemTheorems.InterleavingsAreSerial` | src/modules/credit/infrastructure/repositories/prisma-credit-event.repository.ts:11-39 | any interleaving of load/decide/append transactions leaves the tables of a serial run of the committed ones |
| `CreditSystemTheorems.EveryPrefixIsSound` | src/modules/credit/domain/entities/credit-account.aggregate.ts:98-145 | in every reachable state and wallet, versions are 1..n, each event is legal on the fold of its own prefix, and 0 <= reserved <= balance at every prefix |
| `CreditSystemTheorems.StaleWritersAreRefused` | src/modules/credit/infrastructure/repositories/prisma-credit-event.repository.ts:11-39 | in every reachable state what an open transaction loaded is a prefix of the committed stream, and if it goes on to write it gets the concurrency error exactly when that prefix is a proper one |
| `CreditSystemTheorems.SettledForGood` | src/modules/credit/application/commands/ask-ai/ask-ai.handler.ts:103-172 | a run that has returned or thrown never changes what it reported |
| `CreditSystemTheorems.ReportedCostIsTheWholeCharge` | src/modules/credit/application/commands/ask-ai/ask-ai.handler.ts:102-172 | the creditCost a run returned is the whole drop in balance its reservation ever causes, then and after anything later; a run that threw never causes any, even if the sweeper released the hold first |
| `CreditSystemTheorems.DoneMeansClosed` | src/modules/credit/credit.module.ts:67-79 | for any schedule of claims, reaps, stale and duplicate workers, a release row that is DONE has its reservation closed, and running it again changes no table |
| `CreditSystemTheorems.NoHoldIsStuck` | src/modules/credit/infrastructure/services/expired-reservation-sweeper.service.ts:84-103 | from every reachable state with an OPEN hold, whatever became of its run, one transaction of the sweeper closes it: nothing charged, no balance moved, the held credit available again |
| `CreditSystemProgress.RunGoesThrough` | src/modules/credit/application/commands/ask-ai/ask-ai.handler.ts:69-173 | from every reachable state a new run for what the wallet has available can go through: it returns an answer and the balance is down by its cost, returns without one, or throws when the AI service is down, both for nothing; its row says so, nothing stays held and no other wallet is touched |
| `CreditSystemProgress.ReleaseRowGetsDone` | src/infrastructure/saga-compensation/saga-compensation-reaper.service.ts:55-90 | from every reachable state one worker can carry a PENDING release row through: it ends DONE, its reservation is closed, no balance has moved |
| `CreditSystemInvariant.StepKeepsInv` | src/modules/credit/application/commands/ask-ai/ask-ai.handler.ts:75-172 | every step of any actor keeps the invariant that ties runs, open transactions, the three tables and the queue together |
| `CreditSystemInvariant.AlwaysInv` | src/modules/credit/application/commands/ask-ai/ask-ai.handler.ts:69-173 | so it holds in every reachable state |
| `CreditSystemInvariant.FinishKeepsTables` | src/modules/credit/application/commands/commit-ai-query/commit-ai-query.handler.ts:24-61 | a transaction that commits at any moment, whoever began it and however old its reads, keeps the tables agreeing about every run |
| `CreditSystemInvariant.OwnReply` | src/modules/credit/application/commands/ask-ai/ask-ai.handler.ts:75-157 | the answer a run gets from its own transaction fits what that transaction did to its hold |
| `CreditSystemInvariant.BystanderFits` | src/modules/credit/application/commands/release-credit-reservation/release-credit-reservation.handler.ts:34-41 | no transaction can falsify what another run, or a crashed one, relies on about its hold |
| `AskAi.AskAiHandler.Execute` | src/modules/credit/application/commands/ask-ai/ask-ai.handler.ts:69-173 | if in its first turns nobody else touches the wallet and no reply is lost, a run returns if and only if 0 < cost <= available and the AI service answered or found nothing. And whatever others commit between its steps: a run that returns an answer has charged exactly the reported cost, stored exactly that answer and sent one message with it; NO_RESULTS has charged nothing and reports the current balance if the run released the hold itself, else one the wallet has had; a throw with nothing registered has made no hold, and any other throw leaves an uncharged hold with its release registered |
| `AskAi.RunSaga` | src/modules/credit/application/commands/ask-ai/ask-ai.handler.ts:69-173 | with the compensation run on throw: the reported cost is the balance drop in this wallet and 0 in every other, a throw costs nothing, and a hold still open after a throw has its release recorded unless recording failed too; if nobody gets in the way the run returns whenever the credit and an answer are there, and leaves no open hold and nothing recorded |
| `AskAi.SagaContext.Dispatch` | src/modules/credit/application/commands/ask-ai/ask-ai.handler.ts:75-77 | a dispatch retried from scratch on conflicts keeps ledger, row and outbox agreeing, and its answer says truly what became of the hold; if its first turn is undisturbed it goes through if and only if the credit, or the hold, is there |
| `AskAi.SagaContext.Compensate` | src/modules/credit/application/commands/ask-ai/ask-ai.handler.ts:84-100 | compensating closes the hold, or its release is on record, or recording failed; it never charges; an undisturbed first turn closes the hold and records nothing |
| `AskAi.OthersKeepRely` | src/modules/credit/application/commands/release-credit-reservation/release-credit-reservation.handler.ts:34-78 | every transaction of everybody else, on current or old reads, leaves the run's hold alone or releases it, and keeps the tables sound for it |
| `AskAi.ManyOthersKeepRely` | src/modules/credit/application/commands/release-credit-reservation/release-credit-reservation.handler.ts:34-78 | and so does any sequence of them, however long |
| `AskAi.ReleaseReports` | src/modules/credit/application/commands/release-credit-reservation/release-credit-reservation.handler.ts:34-41 | the balance a release answers with is one the wallet has had, and the current one if it released anything |
| `AskAi.GoesThroughIff` | src/modules/credit/application/commands/reserve-credits/reserve-credits.handler.ts:16-24 | on current reads no dispatch conflicts; a reserve goes through if and only if the credit is available, a commit if and only if the hold is OPEN, a release always |
| `AskAi.OwnTransaction` | src/modules/credit/application/commands/commit-ai-query/commit-ai-query.handler.ts:24-61 | a transaction of the run itself keeps the tables sound and moves it to a phase that fits its hold |
| `AskAi.ChargedRow` | src/modules/credit/application/commands/commit-ai-query/commit-ai-query.handler.ts:29-60 | after a charge, row and ledger hold what it answered: id, answer, sources, cost, balance |
| `CreditBooks.NoClashMeansCurrent` | src/modules/credit/infrastructure/repositories/prisma-credit-event.repository.ts:28-38 | the unique key lets an append through if and only if the loaded stream is the whole committed stream |
| `CreditBooks.WritesAreSerial` | src/modules/credit/infrastructure/repositories/prisma-credit-event.repository.ts:24-39 | a transaction that wrote anything did what running it alone, at that moment, would have done |
| `CreditBooks.ConflictIffStale` | src/modules/credit/infrastructure/repositories/prisma-credit-event.repository.ts:32-36 | the concurrency error is raised exactly for a transaction that decided to write on an outdated stream, and then nothing was written |
| `CreditBooks.ExecuteEffect` | src/modules/credit/application/commands/release-credit-reservation/release-credit-reservation.handler.ts:43-75 | table by table, what a transaction that wrote anything has written: one event, one row, one message, or only the event |
| `CreditBooks.WroteKeepsLedgerOk` | src/modules/credit/infrastructure/repositories/prisma-credit-event.repository.ts:24-39 | a write keeps every stream legal if reservation ids are not used twice |
| `CreditBooks.WroteMovesHold` | src/modules/credit/domain/entities/credit-account.aggregate.ts:181-192 | how a write moves any hold in any wallet: only the one it is about, and a close only from OPEN with the same amount |
| `CreditBooks.WroteKeepsBooks` | src/modules/credit/application/commands/commit-ai-query/commit-ai-query.handler.ts:29-58 | a write about another reservation leaves this one's books alone; one about it takes them from agreeing to agreeing |
| `CreditBooks.AnswerMeansWritten` | src/modules/credit/application/commands/reserve-credits/reserve-credits.handler.ts:16-24 | a reserve that answers has made the hold, a commit that answers has charged it; with any other answer nothing is written |
| `CreditBooks.ReleaseAnswerMeansClosed` | src/modules/credit/application/commands/release-credit-reservation/release-credit-reservation.handler.ts:34-43 | a release that answers at all, having seen the hold, leaves it closed |
| `CreditBooks.RerunReleaseIsIdempotent` | src/modules/credit/application/commands/release-credit-reservation/release-credit-reservation.handler.ts:37-41 | re-running the release any number of times changes neither ledger nor rows nor outbox after the first run, and nothing at all once the reservation is closed, committed ones included |
| `CreditCommands.SpendTakes` | src/modules/credit/application/commands/spend-credits/spend-credits.handler.ts:16-26 | a spend of x on reads that may be old: if x is a whole number with 0 < x <= available and the reads are current, the stream is the old one plus one CreditSpent event of x with that reason, balance and available fall by x, no row or message is written, and the reply is the new balance with x; otherwise nothing is written, and the reply is the amount error, the shortage, or the conflict |
| `CreditCommands.GrantGives` | src/modules/credit/application/commands/grant-credits/grant-credits.handler.ts:20-57 | a grant to a member adds one CreditGranted event of x, raises balance and available by x, sends one Awarded message with the new balance and replies it; otherwise nothing is written: no membership, bad amount, or conflict |
| `CreditCommands.RefundGivesBack` | src/modules/credit/application/commands/refund-credits/refund-credits.handler.ts:16-21 | a refund adds one CreditRefunded event of x, raises balance and available by x, sends nothing and replies the new balance; otherwise nothing is written |
| `CreditCommands.ReserveHolds` | src/modules/credit/application/commands/reserve-credits/reserve-credits.handler.ts:16-24 | a reserve of x that is available adds one CreditReserved event, leaves the balance, holds x OPEN under its id, and replies what is left available: x less under a fresh id; otherwise nothing is written, and the reply says why |
| `CreditCommands.CommitCharges` | src/modules/credit/application/commands/commit-ai-query/commit-ai-query.handler.ts:24-61 | a commit of an OPEN hold on current reads takes the held amount from the balance and nothing more from available, stores the answer in the row, sends one Spent message with the new balance, and replies both; otherwise nothing is written: the status of the hold, or a conflict |
| `CreditCommands.ReleaseGivesBack` | src/modules/credit/application/commands/release-credit-reservation/release-credit-reservation.handler.ts:30-78 | a release of an OPEN hold on current reads leaves the balance and raises available by the held amount, writes a FAILED row costing 0 and one message with the reason and the first 140 characters of the question; without an OPEN hold it answers that it released nothing |
| `CreditLedger.DecideRaisesExactlyLegal` | src/modules/credit/domain/entities/credit-account.aggregate.ts:90-145 | the operations raise exactly the events the ledger rules allow: never an illegal one, and each legal one is raised by some operation |
| `CreditLedger.LegalKeepsSolvent` | src/modules/credit/domain/entities/credit-account.aggregate.ts:98-125 | no legal event makes available negative, even when a reservation id is used again |
| `CreditLedger.LegalStreamSolvent` | src/modules/credit/domain/entities/credit-account.aggregate.ts:169-224 | at every prefix of a legal stream 0 <= reserved <= balance, and versions count 1..n |
| `CreditLedger.LegalLifecycle` | src/modules/credit/domain/entities/credit-account.aggregate.ts:112-145 | with fresh ids a reservation has one Reserved event and at most one close, for the amount held |
| `CreditLedger.ReservationsStable` | src/modules/credit/domain/entities/credit-account.aggregate.ts:127-145 | a reservation is never forgotten, keeps its amount, and stays as it was closed |
| `CreditLedger.DropIsTheCharge` | src/modules/credit/domain/entities/credit-account.aggregate.ts:184-192 | the events of a reservation take from the balance exactly its amount if it is committed, else nothing |
| `CreditLedger.BalanceMovesByDelta` | src/modules/credit/domain/entities/credit-account.aggregate.ts:169-194 | an event moves the folded balance by its signed effect |
| `CreditLedger.FoldConcat` | src/modules/credit/domain/entities/credit-account.aggregate.ts:83-87 | folding can stop and resume anywhere |
| `CreditLedger.ReplayRoundTrip` | src/modules/credit/domain/entities/credit-account.aggregate.ts:151-194 | after any operations, rehydrating the stored events followed by the uncommitted ones gives the live state; versions are consecutive |
| `CreditLedger.RefusedLeaveNoTrace` | src/modules/credit/domain/entities/credit-account.aggregate.ts:98-145 | dropping the refused operations of a session changes neither its state nor its events |
| `CreditLedger.SessionStaysLegal` | src/modules/credit/domain/entities/credit-account.aggregate.ts:90-145 | what a session raises extends a legal stream to a legal stream |
| `CreditAccounts.CreditAccount.Rehydrate` | src/modules/credit/domain/entities/credit-account.aggregate.ts:83-87 | the loop of in-place applies ends in the fold of the stream |
| `CreditAccounts.CreditAccount.ApplyEvent` | src/modules/credit/domain/entities/credit-account.aggregate.ts:169-194 | one in-place apply is one step of the fold, for any event, corrupt ones included |
| `CreditAccounts.CreditAccount.Raise` | src/modules/credit/domain/entities/credit-account.aggregate.ts:151-167 | applies and records one event with the next version; fields stay the replay of stored plus uncommitted |
| `CreditAccounts.CreditAccount.Reserved` | src/modules/credit/domain/entities/credit-account.aggregate.ts:213-219 | the loop over the map, in any order, gives the total of the OPEN holds |
| `CreditAccounts.CreditAccount.Available` | src/modules/credit/domain/entities/credit-account.aggregate.ts:222-224 | balance minus what OPEN holds hold |
| `CreditAccounts.CreditAccount.Grant` | src/modules/credit/domain/entities/credit-account.aggregate.ts:90-93 | raises what the decision says, or changes nothing and reports the error |
| `CreditAccounts.CreditAccount.Spend` | src/modules/credit/domain/entities/credit-account.aggregate.ts:98-102 | checked against available, not balance; refused without a trace |
| `CreditAccounts.CreditAccount.Refund` | src/modules/credit/domain/entities/credit-account.aggregate.ts:106-109 | as grant, with its own event |
| `CreditAccounts.CreditAccount.Reserve` | src/modules/credit/domain/entities/credit-account.aggregate.ts:112-116 | holds the amount if it is available; refused without a trace |
| `CreditAccounts.CreditAccount.CommitReservation` | src/modules/credit/domain/entities/credit-account.aggregate.ts:119-125 | charges the held amount of an OPEN reservation, else the error with its status |
| `CreditAccounts.CreditAccount.ReleaseReservation` | src/modules/credit/domain/entities/credit-account.aggregate.ts:140-145 | frees an OPEN hold and says so, else does nothing and says so |
| `CreditTables.Transaction.LoadOrOpen` | src/modules/credit/infrastructure/repositories/prisma-credit-event.repository.ts:11-22 | the account is the fold of the stream as read |
| `CreditTables.Transaction.Save` | src/modules/credit/infrastructure/repositories/prisma-credit-event.repository.ts:24-39 | appends all uncommitted events, or reports that a version is taken and writes nothing |
| `CreditTables.Transaction.Record` | src/modules/credit/infrastructure/repositories/prisma-ai-query.repository.ts:10-24 | upsert: one row per reservation id, and an existing row keeps its id |
| `CreditTables.Transaction.Grant` | src/modules/credit/application/commands/grant-credits/grant-credits.handler.ts:20-57 | the statements do to the tables what the command's specification says, membership check and error exits included |
| `CreditTables.Transaction.Spend` | src/modules/credit/application/commands/spend-credits/spend-credits.handler.ts:16-26 | likewise |
| `CreditTables.Transaction.Refund` | src/modules/credit/application/commands/refund-credits/refund-credits.handler.ts:16-21 | likewise |
| `CreditTables.Transaction.Reserve` | src/modules/credit/application/commands/reserve-credits/reserve-credits.handler.ts:16-24 | likewise |
| `CreditTables.Transaction.CommitQuery` | src/modules/credit/application/commands/commit-ai-query/commit-ai-query.handler.ts:24-61 | likewise: ledger, row and outbox, or none of them |
| `CreditTables.Transaction.Release` | src/modules/credit/application/commands/release-credit-reservation/release-credit-reservation.handler.ts:30-78 | likewise, with everything guarded by whether the hold was OPEN |
| `WalletQuery.GetWallet` | src/modules/credit/infrastructure/repositories/prisma-wallet.query-repository.ts:21-99 | on every stream whatsoever the read side reports the aggregate's balance, reserved and available; the totals are the sums over their event types, and balance = granted + refunded - spent; the entries are the newest ones |
| `WalletQuery.OpenMapParity` | src/modules/credit/infrastructure/repositories/prisma-wallet.query-repository.ts:52-67 | the map of the read side is the OPEN part of the aggregate's map, before and after any row |
| `WalletQuery.EntriesSumToBalanceChange` | src/modules/credit/infrastructure/repositories/prisma-wallet.query-repository.ts:73-86 | the shown deltas sum to the final balance minus the balance at the prefix left out |
| `WalletQuery.RecentAreTheLatest` | src/modules/credit/infrastructure/repositories/prisma-wallet.query-repository.ts:73-86 | the entries are the latest versions, newest first |
| `WalletQuery.EntriesTellTheRows` | src/modules/credit/infrastructure/repositories/prisma-wallet.query-repository.ts:73-86 | on every stream, for every limit: the entries go backwards from the last row, each with its row's type, reason, version and time, and the amount as the balance felt it |
| `WalletQuery.RecentBoundedIff` | src/modules/credit/infrastructure/repositories/prisma-wallet.query-repository.ts:73-76 | at most recentLimit entries exactly for limits of at least 1 (or 0 on an empty wallet), since slice(-0) is the whole list |
| `ClaimQueue.RowsAlwaysOk` | src/infrastructure/saga-compensation/prisma-saga-compensation.repository.ts:55-117 | under every interleaving, stale workers included: claimedAt is set iff INFLIGHT, PENDING and INFLIGHT rows have attempts left, FAILED_DLQ rows have none |
| `ClaimQueue.StepKeepsInv` | src/infrastructure/saga-compensation/prisma-saga-compensation.repository.ts:55-124 | each statement keeps that |
| `ClaimQueue.StepsAreRuns` | src/infrastructure/saga-compensation/prisma-saga-compensation.repository.ts:55-124 | and so does any series of them a caller makes from a reachable table |
| `ClaimQueue.TimelyRun` | src/infrastructure/saga-compensation/prisma-saga-compensation.repository.ts:95-117 | if no claim is reaped under a live worker, INFLIGHT rows have at most one owner, owners know the attempts, and a row is marked failed at most maxAttempts times |
| `ClaimQueue.TimelyStep` | src/infrastructure/saga-compensation/prisma-saga-compensation.repository.ts:88-117 | then finished and dead-lettered rows do not change, and the attempts left fall by one at each failed mark and at nothing else |
| `ClaimQueue.FinishedRowsStayFinished` | src/infrastructure/outbox/prisma-outbox.repository.ts:36-101 | over whole runs without overruns a finished row is never anything else (the outbox has the same statements) |
| `ClaimQueue.DoneReopenedIff` | src/infrastructure/saga-compensation/prisma-saga-compensation.repository.ts:72-108 | when DONE is final: over all continuations, the row can become anything else if and only if some worker still holds a claim on it, read back or not |
| `ClaimQueue.TimelyDoneIsFinal` | src/infrastructure/saga-compensation/prisma-saga-compensation.repository.ts:88-117 | without overruns nobody does, so there no continuation, whatever it is, reopens a DONE row |
| `ClaimQueue.ClaimThenReap` | src/infrastructure/saga-compensation/prisma-saga-compensation.repository.ts:55-117 | a row claimed at some instant is untouched by every reap whose cutoff has not passed that instant, and PENDING again with its attempts as they were after any later one |
| `ClaimQueue.ClaimStandsUntil` | src/infrastructure/saga-compensation/prisma-saga-compensation.repository.ts:55-117 | the same about the two statements on any row at all |
| `ClaimQueue.DoneIsKeptUntil` | src/infrastructure/saga-compensation/prisma-saga-compensation.repository.ts:88-124 | a row finished at some instant is purged exactly by cutoffs after it; no other row is ever purged, and none but INFLIGHT ones are reaped |
| `ClaimQueue.FailureCostsOne` | src/infrastructure/saga-compensation/prisma-saga-compensation.repository.ts:95-108 | a failed mark sets attempts to those read plus one, keeps the error, and leaves the row PENDING exactly while that is below the maximum |
| `ClaimQueue.OverrunReopensDone` | src/infrastructure/saga-compensation/prisma-saga-compensation.repository.ts:88-117 | a run in which a worker that has read the row reopens it |
| `ClaimQueue.UnreadClaimReopensDone` | src/infrastructure/saga-compensation/prisma-saga-compensation.repository.ts:72-75 | and one in which a worker that reads it back only after it is DONE does |
| `ClaimQueue.OthersAreSteps` | src/infrastructure/saga-compensation/prisma-saga-compensation.repository.ts:55-124 | whatever other workers try, what they get done is a run that leaves this worker's claims alone |
| `CompensationReaper.Store.RecordFailed` | src/infrastructure/saga-compensation/prisma-saga-compensation.repository.ts:40-53 | a new PENDING row without attempts |
| `CompensationReaper.Store.SelectPending` | src/infrastructure/saga-compensation/prisma-saga-compensation.repository.ts:62-67 | the oldest unlocked PENDING rows, as many as there are up to the limit, oldest first |
| `CompensationReaper.Store.ClaimPendingBatch` | src/infrastructure/saga-compensation/prisma-saga-compensation.repository.ts:55-86 | claims exactly those at that instant, reads back their attempts and leaves every other row; an unlocked PENDING row is passed over only by a full batch of rows at least as old |
| `CompensationReaper.Store.ClaimThenReap` | src/infrastructure/saga-compensation/prisma-saga-compensation.repository.ts:55-117 | a batch claimed at some instant and then reaped: each row is still claimed, at that instant, if the cutoff has not passed it, and as it was before the claim if it has |
| `CompensationReaper.Store.MarkProcessed` | src/infrastructure/saga-compensation/prisma-saga-compensation.repository.ts:88-93 | the row is DONE whatever it was before; throws for a row purged meanwhile |
| `CompensationReaper.Store.MarkFailed` | src/infrastructure/saga-compensation/prisma-saga-compensation.repository.ts:95-108 | attempts become what the worker read plus one; PENDING or FAILED_DLQ by that value; throws for a row purged meanwhile |
| `CompensationReaper.Store.ReapStaleInflight` | src/infrastructure/saga-compensation/prisma-saga-compensation.repository.ts:110-117 | exactly the rows INFLIGHT since before the cutoff return to PENDING, and are counted |
| `CompensationReaper.Store.PurgeProcessed` | src/infrastructure/saga-compensation/prisma-saga-compensation.repository.ts:119-124 | exactly the rows DONE before the cutoff go, and are counted |
| `CompensationReaper.Reaper.Work` | src/infrastructure/saga-compensation/saga-compensation-reaper.service.ts:66-90 | while others go on between the rows, all of it is one run of the row machine in which this worker did exactly what its rows' fates say, in order, up to the first row whose failure could not be recorded, and still holds the rest; if the others are quiet, the rows before that one are resolved and no other row changes |
| `CompensationReaper.FateDecides` | src/infrastructure/saga-compensation/saga-compensation-reaper.service.ts:67-88 | a row is DONE exactly if its runner and the write after it went well; otherwise one attempt of those read is gone, the row keeps what was thrown, and is tried again exactly while attempts are left |
| `CompensationReaper.Reaper.WorkRow` | src/infrastructure/saga-compensation/saga-compensation-reaper.service.ts:67-88 | one row: DONE if its runner and the write succeed, else failed by the attempts that were read, unless that write throws too |
| `CompensationReaper.Reaper.Poll` | src/infrastructure/saga-compensation/saga-compensation-reaper.service.ts:55-102 | a tick claims the oldest rows, as many as there are up to the batch size, reads them back and works through them, others going on meanwhile; a tick inside another, or whose claim throws, changes nothing |
| `CompensationReaper.RowGoesOn` | src/infrastructure/saga-compensation/saga-compensation-reaper.service.ts:66-90 | others' actions followed by this worker's row extend a run to a run, and are this worker's doing only as far as its row goes |
| `CompensationReaper.ClaimsAreSteps` | src/infrastructure/saga-compensation/prisma-saga-compensation.repository.ts:55-86 | claiming and reading back a batch is a run that leaves each row held with the attempts it had |
| `CompensationReaper.Reaper.ReapStaleClaims` | src/infrastructure/saga-compensation/saga-compensation-reaper.service.ts:105-127 | a reap returns the overdue claims and leaves attempts alone; a tick inside another, or one whose update throws, changes nothing |
| `ReservationSweeper.QueryFindsOpenHolds` | src/modules/credit/infrastructure/services/expired-reservation-sweeper.service.ts:128-145 | on every ledger with legal streams and fresh ids the query without LIMIT returns exactly the OPEN holds older than the cutoff, each once |
| `ReservationSweeper.RowsTellTheFold` | src/modules/credit/infrastructure/services/expired-reservation-sweeper.service.ts:135-142 | there is a Reserved row iff the fold knows the id, and a close row iff the fold says it is closed |
| `ReservationSweeper.QueryAgreesIffNoReuse` | src/modules/credit/infrastructure/services/expired-reservation-sweeper.service.ts:137-142 | on streams in general query and fold agree at every prefix exactly if the id is never reserved after it was closed |
| `ReservationSweeper.ReleaseRemovesOne` | src/modules/credit/infrastructure/services/expired-reservation-sweeper.service.ts:94-102 | a dispatched release removes its hold from the query's answer and nothing else |
| `ReservationSweeper.ReleaseFreesCredit` | src/modules/credit/infrastructure/services/expired-reservation-sweeper.service.ts:94-102 | it moves no balance and raises total available by what was held |
| `ReservationSweeper.StaleIsOpenAndOld` | src/modules/credit/infrastructure/services/expired-reservation-sweeper.service.ts:128-145 | a hold is a stale one if and only if it is OPEN and was reserved before the cutoff |
| `ReservationSweeper.SweepProgress` | src/modules/credit/infrastructure/services/expired-reservation-sweeper.service.ts:89-103 | a sweep closes exactly its batch, leaves every balance, and raises total available by the amounts freed |
| `ReservationSweeper.OneSweep` | src/modules/credit/infrastructure/services/expired-reservation-sweeper.service.ts:84-120 | n stale holds fall by min(50, n) |
| `ReservationSweeper.CeilSweepsDrain` | src/modules/credit/infrastructure/services/expired-reservation-sweeper.service.ts:84-120 | ceil(n/50) full sweeps drain n stale holds, and no fewer do |
| `ReservationSweeper.ResultIsFullBatch` | src/modules/credit/infrastructure/services/expired-reservation-sweeper.service.ts:128-145 | on every ledger with legal streams and fresh ids the rows of a query result name as many stale holds, all different |
| `ReservationSweeper.Sweeper.FindStaleReservations` | src/modules/credit/infrastructure/services/expired-reservation-sweeper.service.ts:128-145 | on any ledger, some min(50, n) of the n rows the query finds, each once |
| `ReservationSweeper.Sweeper.Sweep` | src/modules/credit/infrastructure/services/expired-reservation-sweeper.service.ts:84-120 | on any ledger, dispatches the found rows in order up to the first dispatch that throws. With legal streams and fresh ids: min(50, n) of n stale holds are worked through, the released ones are stale no longer, no balance moves, total available rises by what they held, and no other hold is touched. A sweep inside another does nothing |
| `Idempotency.OneRunPerKey` | src/infrastructure/http/idempotency/idempotency.interceptor.ts:65-136 | in all interleavings, failed response writes and claim deletes included: at most one run at a time, at most one ever succeeds, every replay is that run's response and goes only to requests with its hash |
| `Idempotency.StepKeepsInv` | src/infrastructure/http/idempotency/idempotency.interceptor.ts:75-135 | every statement of every request keeps the claim with its one holder |
| `Idempotency.StuckForGood` | src/infrastructure/http/idempotency/idempotency.interceptor.ts:118-134 | once the key has a claim without a response and no living holder that can record one or delete it, no later request is ever run or replayed |
| `Idempotency.UsableKeyServes` | src/infrastructure/http/idempotency/idempotency.interceptor.ts:75-116 | from every other reachable state some continuation, by steps of the living holder and the request, runs or replays a new request with the same hash |
| `Idempotency.RetryServedIff` | src/infrastructure/http/idempotency/idempotency.interceptor.ts:75-134 | so a retry can still be served if and only if the key is unclaimed, answered, or its holder alive |
| `Idempotency.MishapBlocksKey` | src/infrastructure/http/idempotency/idempotency.interceptor.ts:107-134 | five ways into a phantom claim, each as a run: death in the handler, delete lost, update lost, death before the update, a null answer |
| `Idempotency.InsertedWithErrorBlocksKey` | src/infrastructure/http/idempotency/idempotency.interceptor.ts:89-105 | and a sixth: an insert that goes through and still reports an error |
| `Idempotency.OwnKeyOwnAnswer` | src/infrastructure/http/idempotency/idempotency.interceptor.ts:24-28 | a replay goes to the caller whose run it is as long as one caller alone sends that hash under the key |
| `Idempotency.ReplayIgnoresCaller` | src/infrastructure/http/idempotency/idempotency.interceptor.ts:75-85 | the lookup and the hash leave the caller out: with a response recorded, any caller with the same hash gets it |
| `IdempotencyInterceptor.Interceptor.Intercept` | src/infrastructure/http/idempotency/idempotency.interceptor.ts:65-136 | passes through if and only if the key is missing or empty or the verb is none of POST, PATCH, PUT and DELETE; otherwise every way through is a path of the protocol, the handler runs under a claim exactly if nothing was found and the insert went through, and a row that was found stays as it is and answers 422 for another hash, its response, or 409; no other key is touched |
| `IdempotencyInterceptor.Interceptor.Twice` | src/infrastructure/http/idempotency/idempotency.interceptor.ts:65-116 | two requests one after the other under one key: the first runs, and once its answer is recorded the second is replayed that answer, or refused if its hash differs, and changes no row |
| `IdempotencyInterceptor.Interceptor.Handle` | src/infrastructure/http/idempotency/idempotency.interceptor.ts:107-135 | the response is recorded, or the claim deleted, or left behind when that write fails |
| `IdempotencyInterceptor.PathsAreRuns` | src/infrastructure/http/idempotency/idempotency.interceptor.ts:65-136 | those paths stay within the reachable states of the protocol |
| `IdempotentAsk.OneChargePerKey` | src/infrastructure/http/idempotency/idempotency.interceptor.ts:107-135 | with one key, over any number of concurrent and repeated requests and crashes anywhere, at most one run is charged; it drops its wallet by its own cost, and every other run of the key drops no wallet |
| `IdempotentAsk.ReplayNamesTheCharge` | src/infrastructure/http/idempotency/idempotency.interceptor.ts:75-110 | the cost a replay names is the one the key's only successful run reported, and that run's whole balance drop; no other run of the key took anything from any wallet |
| `IdempotentAsk.StepKeepsInv` | src/modules/credit/application/commands/ask-ai/ask-ai.handler.ts:145-157 | every step, a process death included, keeps each run of the key tied to the request that holds the claim, or thrown |
| `IdempotentAsk.CrashedRunBlocksKey` | src/infrastructure/http/idempotency/idempotency.interceptor.ts:107-134 | a run that crashed leaves its key with a claim nobody answers; no other run of the key is charged |
| `IdempotentAskProgress.AnswerThenReplay` | src/infrastructure/http/idempotency/idempotency.interceptor.ts:65-116 | from every reachable state a key without a row can carry a request through: its run is charged the cost for an answer and 0 without one, the answer is recorded, and the same request sent again is replayed it with that cost and runs nothing |
| `IdempotentAskProgress.CreditPart` | src/modules/credit/application/commands/ask-ai/ask-ai.handler.ts:69-173 | seen from the wallets, any run of requests behind a key is some run of CreditSystem |
| `TokenBucket.AdmissionsBounded` | src/infrastructure/http/guards/ai-quota.guard.ts:77-93 | admissions between any two states of a bucket are at most cap + rate * (difference of last_refill_at in seconds) / 60, timestamps in any order |
| `TokenBucket.BurstBound` | src/infrastructure/http/guards/ai-quota.guard.ts:77-93 | tokens stay in [0, cap], and each admission is paid for by tokens or by refill |
| `TokenBucket.BurstReached` | src/infrastructure/http/guards/ai-quota.guard.ts:77-93 | the bound is tight: a full bucket of n admits n requests at one instant and then rejects |
| `TokenBucket.SavedIsServed` | src/infrastructure/http/guards/ai-quota.guard.ts:77-93 | from any bucket, however long idle: of n requests at one instant the first are admitted, one for each whole token in min(cap, tokens + elapsed / 60 * rate), and no others; what is left is that minus the admitted |
| `TokenBucket.LazyRefinesEager` | src/infrastructure/http/guards/ai-quota.guard.ts:77-97 | the guard, which writes nothing on rejection, decides exactly as a bucket that refills and caps at every request, timestamps in any order |
| `TokenBucket.SameDecision` | src/infrastructure/http/guards/ai-quota.guard.ts:85-97 | one request: same decision, and the two buckets stay on one refill line |
| `TokenBucket.AiQuotaGuard.ConsumeToken` | src/infrastructure/http/guards/ai-quota.guard.ts:70-98 | insert a full bucket if absent, then one conditional update of the caller's bucket and no other, each statement at its own instant: admitted if and only if min(cap, tokens + elapsed / 60 * rate) is at least 1, leaving that minus 1 at that instant; a rejection leaves the bucket as it was |
| `TokenBucket.AiQuotaGuard.CanActivate` | src/infrastructure/http/guards/ai-quota.guard.ts:38-57 | without organization or user: allowed and charged to nobody; otherwise what the bucket admits |
| `KnowledgeRevisions.HistoryAlwaysOk` | prisma/schema.prisma:158-169 | under any interleaving of edits and writers without a version check, the committed revisions are exactly 2..version and the body is the newest snapshot |
| `KnowledgeRevisions.EditCommitsIff` | src/modules/knowledge/application/commands/update-knowledge/update-knowledge.handler.ts:21-42 | an edit commits iff the version it expected is the one it loaded and the current one, and then leaves its title, body and editor under the next version with one new revision of that body; a moved row is stopped by the version check; an older load with the current expectation by the unique revision key; a failed edit changes nothing |
| `KnowledgeRevisions.RevisionsAreForever` | src/modules/knowledge/application/commands/update-knowledge/update-knowledge.handler.ts:34-41 | a committed revision never changes, and versions never fall |
| `KnowledgeRevisions.TouchWrites` | src/modules/knowledge/infrastructure/repositories/prisma-knowledge-item.repository.ts:39-51 | a writer without a version check stops exactly when publishing what is no draft or verifying what is verified; otherwise it writes its own flag with the others as loaded, and neither title, body, version nor revisions |
| `KnowledgeRevisions.CommitTakesBackIff` | src/modules/knowledge/infrastructure/repositories/prisma-knowledge-item.repository.ts:23-51 | in every reachable state, exactly which commits undelete, unverify or unpublish an item: those that get as far as writing, do not set the flag themselves, and (for the last two) loaded the item before it was set; and which change the accepted answer: those without a version check that carry another one, be it only the one they loaded |
| `KnowledgeRevisions.FallsBackIff` | src/modules/knowledge/infrastructure/repositories/prisma-knowledge-item.repository.ts:23-51 | no other step takes a flag back |
| `KnowledgeRevisions.FlagsNeverFallBack` | src/modules/knowledge/infrastructure/repositories/prisma-knowledge-item.repository.ts:23-51 | over whole runs, as long as no such commit occurs, deleted stays deleted, verified verified and published published |
| `KnowledgeRevisions.EditCanUndeleteAnItem` | src/modules/knowledge/infrastructure/repositories/prisma-knowledge-item.repository.ts:23-51 | a run in which an edit racing with a delete brings the item back |
| `KnowledgeRevisions.VerifyCanUndeleteAnItem` | src/modules/knowledge/infrastructure/repositories/prisma-knowledge-item.repository.ts:39-51 | a run in which a verification does |
| `KnowledgeRevisions.PublishCanUnverifyAnItem` | src/modules/knowledge/infrastructure/repositories/prisma-knowledge-item.repository.ts:39-51 | a run in which a publication takes a verification back |
| `KnowledgeRevisions.PublishCanClearAcceptedAnswer` | src/modules/knowledge/infrastructure/repositories/prisma-knowledge-item.repository.ts:39-51 | and one in which it clears an accepted answer |
| `KnowledgeRevisions.Repository.UpdateWithOcc` | src/modules/knowledge/infrastructure/repositories/prisma-knowledge-item.repository.ts:23-37 | writes its columns iff the row has the expected version |
| `KnowledgeRevisions.Repository.Update` | src/modules/knowledge/infrastructure/repositories/prisma-knowledge-item.repository.ts:40-51 | writes its columns and neither title, body nor version |
| `KnowledgeRevisions.Repository.SaveRevision` | prisma/schema.prisma:167 | refuses a taken (item, version) |
| `KnowledgeRevisions.Repository.UpdateKnowledge` | src/modules/knowledge/application/commands/update-knowledge/update-knowledge.handler.ts:21-42 | the handler is the edit transaction: not found, conflict, duplicate (row update taken back) or done |
| `KnowledgeRevisions.Repository.TouchKnowledge` | src/modules/knowledge/application/commands/publish-knowledge/publish-knowledge.handler.ts:21-30 | the writers without a version check, each with its early exit: not found, not a draft, or already verified |
| `KnowledgeRevisions.KnowledgeItem.ApplyEdit` | src/modules/knowledge/domain/entities/knowledge-item.entity.ts:98-104 | new title, body and editor, version plus one, nothing else |
| `KnowledgeRevisions.KnowledgeItem.MarkVerified` | src/modules/knowledge/domain/entities/knowledge-item.entity.ts:121-127 | flips the flag and the attribution once; says whether it did |

## Left out

- Floating point: amounts and SQL doubles are integers and reals, so neither rounding nor the 2^53 limit of JavaScript numbers is modelled.
- Wallet ids: a wallet is the pair (organization, user), not the string joined with a colon; the extra `org_id` filter of the queries is implied.
- CommandBus, OutboxPublisher, CircuitBreaker and cachedLookup: they are in another package; only the contract stated above is used.
- Hashing, UUIDs, clocks, RAG, Kafka, Redis and the database itself: parameters of the steps, or a transaction that commits or rolls back.
- Purging of expired idempotency rows: excluded by hypothesis.
- Interleaving of several idempotency keys: one key at a time in `Idempotency`; `Intercept` shows that a request touches no other key's row.
- The registry of compensation runners: an unknown action type is a runner that throws.
- A sweep that other writers interleave with: `ReservationSweeper.Sweeper` runs its dispatches back to back; `CreditSystem` lets the sweeper's releases interleave with everything.
- Reservation ids that are JSON null: an id is a string or absent.
- CompensationReaper.Store.ClaimPendingBatch: its update and its read run back to back here; `ClaimQueue` lets others in between.
- Outbox rows in delivery: `CreditTables` appends messages, `ClaimQueue` moves rows; the two are not joined, and `countByStatus` is a plain count.
- In place and on values: the state machines are values; the classes are proved against the same functions, but two objects sharing one table are only modelled by the interference parameters (`Transaction.view`, `Turn`, `Env`, the `turns` of the reaper).
- Guards of accept-answer and unaccept-answer, and the KnowledgePublished message: the model lets those writers run at any time.
- Timestamps and attribution columns of knowledge items other than updatedBy: no property depends on them.
- Membership lookup of a grant: a flag of the command.
- AskAi.AskAiHandler.Execute: the chunks carried by the AI_UNAVAILABLE error and the audit log are not modelled; a throw is a result without a value.
- IdempotencyInterceptor.Interceptor.Intercept: a process that dies on the way through has no outcome here; `Idempotency` lets requests die anywhere.
- Invites, archive-org, tenant roles, votes, bookmarks, feeds and list queries: one-branch checks and pass-throughs.
