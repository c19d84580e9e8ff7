# Verified model of a money-transfer platform

The platform moves money between accounts. A transfer checks an idempotency cache, takes two Redis locks,
asks the fraud service, and then debits, credits and records the transfer in one database transaction with
row locks. Around it there are a rate limiter, stateful fraud rules, webhook deliveries with retries, a Kafka
consumer that skips duplicates, and paginated account histories. The project models these parts in Dafny and
proves what they guarantee on every run. `dafny verify dfyconfig.toml` checks the whole project.

## How it is built

| file | what it holds |
|---|---|
| `Prelude.dfy` | Option, the alphabetical order of strings, small arithmetic |
| `Books.dfy` | the atomic specification: accounts, transfers, ledger, signals, and what any sequence of transfers keeps |
| `TransferProtocol.dfy` | the transfer as a concurrent step machine over database, cache, Redis locks and requests |
| `TransferInvariant.dfy` | the inductive invariant of that machine |
| `TransferSafety.dfy` | serial refinement and its consequences, charging, numbers |
| `TransferCharges.dfy`, `TransferScores.dfy`, `TransferLeftovers.dfy` | exactly when a rejected payment has moved money; where a committed score comes from; exactly what a request leaves behind |
| `TransferVerdict.dfy`, `TransferCauses.dfy` | the answer to an undisturbed request, spelled out from the state it comes into; the cause of every refusal, whatever else goes on |
| `TransferRuns.dfy` | runs that really happen, from any start that fits (`ExampleFits` names one) |
| `AccountLocks.dfy`, `TransferLocks.dfy` | the Redis locks alone and inside the protocol: exclusion, leaks, progress |
| `Interference.dfy`, `PaymentService.dfy` | `initiatePayment` and its repositories as methods on mutable state, with the rest of the system acting between any two awaited calls |
| `RateLimiter.dfy`, `FraudEngine.dfy`, `FraudRules.dfy`, `AmountAnomaly.dfy` | the request counter, the scoring, the rules with memory |
| `Webhooks.dfy`, `WebhookOutcomes.dfy`, `WebhookService.dfy` | the life of deliveries as a step machine, the exact row that each history of answers leads to, and the service's methods tied to both |
| `EventConsumer.dfy`, `AccountPages.dfy`, `CaseKeys.dfy`, `CaseLetters.dfy` | duplicate filter, paginated histories, key conversion |

A machine's `Apply` is total: a step that is not enabled changes nothing. A run is therefore any sequence of
steps, and a theorem about `Run(s0, steps)` is one about every interleaving, failure, crash and expiry. Any
awaited call of a transfer may throw, without having had its effect (`Fail`) or after it (`Advance`, not ok);
only the call of the fraud service may not, because its caller catches everything.

The classes `Payment` and `Service` decide nothing that the program does not decide. What the others do while a
method waits, whether an awaited call is executed and answered, and what a remote service replies is fixed by
constants of the object (`plan`, `reply`, `patience`, `answers`), and the theorems hold for all of them.

## Assumptions

- The unique index on `idempotency_key` (`packages/types/index.ts:48`,
  `packages/database/migrations/003_create_transactions.sql:8`) is what makes a second charge impossible.
- `gen_random_uuid()` never repeats; the number of the inserting request stands for the id of its row.
- A Redis key with expiry `e` is visible before `e` and gone from `e` on. `SET NX`, `DEL`, `INCR`, `ZADD` are atomic.
- The lock TTL is the 10 s of `payment.service.ts:81`.
- A ROLLBACK that throws ends in the database's error. If it had no effect, the database ends the transaction at
  some later time (`packages/database/client.ts:68` gives it 5 s), and until then keeps its row locks.
- Retry polls do not overlap and repository calls of the webhook service do not fail; `setInterval`
  (`services/webhook-service/src/retryWorker.ts:38`) does not ensure the former.
- The webhook service does not die between a POST and the update of its row; after a restart that row would be
  posted again, and the bound of five POSTs would not hold.
- A call of the rate limiter or of a fraud rule happens at one instant, and so do the look-up of a webhook
  endpoint before a retry and the sending of its POST.

## Where the code differs from its own documentation

- `velocityRule.ts:1` promises "more than 3 in 60 seconds". Every call refreshes the expiry, so the rule also
  fires on four calls spread over almost three minutes (`VelocityAgainstItsDocumentation`,
  `VelocityFiresOnSlowCalls`).
- `packages/redis/client.ts:184-198` calls the limiter a sliding window. It is a fixed bucket: twice the limit
  passes within one window length unless the window is 1 ms or nothing is allowed (`SlidingOnlyIfTrivial`).
- `amountAnomalyRule.ts:9,15` speaks of the last 20 amounts and of 3 data points. The set holds distinct
  amounts, because the amount is the member: it is the last 20 exactly when none occurs twice among them
  (`KeepsTheLastTwentyIff`, `TwoUsesOneMember`), and no fewer than six can make the rule fire (`FiresOnHistoryIff`).
- A rejected payment has moved money exactly when a late call threw: a COMMIT that was executed, or after an
  acknowledged one the cache write, the flush of the read caches or a release of the locks
  (`RejectedYetChargedIff`). Each of these happens on some run (`LateFailuresHappen`).
- `DEL` does not ask who owns a lock, so a late release hands a successor's locks to a third
  (`LateReleaseHappens`), and a `DEL` that throws in the `finally` block leaves locks to their TTL although
  the request has ended (`FailedReleaseLeavesLocks`; `KeysAreLeftIff` lists all such failures). A ROLLBACK that
  throws leaves row locks behind (`FailedRollbackLeavesRow`). Money is safe all the same.
- The check for `CONCURRENT_MODIFICATION` and the retry loop around it never take effect (`VersionCheckNeverFails`).
- `toCamelCase` is described as recursive (`packages/types/index.ts:458`); it converts the top level only, which is
  enough exactly when no object nested in a value has a key to convert (`TopLevelIsEnoughIff`, `NestedKeysStay`).
  Two columns can become one field
  (`ColumnsMayMerge`), and a key that becomes `__proto__` is lost (`NothingLostIff`).
- A page beyond the last reports a total of 0 (`EachPage`), and rows created at the same time may appear
  twice or not at all (`OrderIsFixedIff`, `TiesMayRepeatARow`).

## Model

| member | source | states |
|---|---|---|
| TransferSafety.SerialRefinement | services/payment-service/src/services/payment.service.ts:143-247 | on every run the committed books equal the committed transfers performed one by one, in commit order, under the atomic specification |
| TransferSafety.CommitIsAtomic | services/payment-service/src/repositories/payment.repository.ts:62-100 | although the credit writes an absolute balance without a version check, a commit is exactly one allowed atomic transfer |
| TransferSafety.BooksAreSound | services/payment-service/src/services/payment.service.ts:174-229 | on every run: total money constant, nobody overdrawn, ledger chains to the stored balances and versions count its entries, one debit and credit per transfer, keys unique, every score below 60, the sum of its signal rows, and with the action that belongs to it |
| TransferScores.ScoreIsTheAnswer | services/payment-service/src/services/payment.service.ts:43-137 | on every run each committed row has the score and action that the fraud check of its own request was answered with, and exactly that answer's signals; with an unreachable fraud service score 0 and no signal row |
| TransferSafety.EveryBalanceIsSafe | packages/database/client.ts:24-30 | if the initial total is a safe integer, so is every balance stored, read or written and every amount and balance in committed rows and ledger, so the BIGINT parser never throws |
| TransferSafety.VersionCheckNeverFails | services/payment-service/src/services/payment.service.ts:174-184 | whenever a transfer debits, exactly one row is updated; the blind credit equals a checked one; no retry ever happens |
| TransferSafety.AtMostOneCharge | services/payment-service/src/services/idempotency.service.ts:11-27 | committed rows differ in their key; every cached or answered row is the committed row of its key; all answers for one key agree |
| TransferSafety.WhoWasCharged | services/payment-service/src/services/payment.service.ts:249-306 | every committed row belongs to one request and has its key, accounts and amount; a success has exactly the row it was answered with; a replay, or a rejection not due to a failing store, has none |
| TransferSafety.ReplayedIsAskedForIff | services/payment-service/src/services/payment.service.ts:57-63 | a replayed row is what the replayed request asks for if and only if that request equals the one that was charged |
| TransferRuns.ReplayMayBeAnothers | services/payment-service/src/services/payment.service.ts:57-63 | a run on which a key used again for another transfer is answered with the row of the first |
| TransferCharges.RejectedYetChargedIff | services/payment-service/src/services/payment.service.ts:143-329 | a rejected payment has moved money if and only if, on the run, an executed COMMIT threw or, after an acknowledged one, the cache write, the flush or a release of the locks |
| TransferRuns.LateFailuresHappen | services/payment-service/src/services/payment.service.ts:231-329 | from any start whose books allow the transfer, each of these failures is reached by a run, and the payment is rejected and charged |
| TransferRuns.AloneItSucceeds | services/payment-service/src/services/payment.service.ts:55-330 | a request that the books allow and nobody disturbs returns with success, charged |
| TransferRuns.FailedReleaseLeavesLocks | services/payment-service/src/services/payment.service.ts:325-329 | on some run a release throws and both locks stay in Redis although the request has ended |
| TransferInvariant.RunKeepsInv | services/payment-service/src/services/payment.service.ts:55-330 | on every run an open transaction has read what is still stored under its row locks and written what its statements so far imply; caches and answers hold committed rows |
| TransferInvariant.DbStepRespects | services/payment-service/src/repositories/payment.repository.ts:62-100 | no statement of one transaction disturbs what another has read under its row locks |
| Books.PerformKeepsSound | services/payment-service/src/services/payment.service.ts:174-229 | one atomic transfer or new account keeps conservation, ledger, pairs, uniqueness and scores |
| Books.ReplayIsSound | services/payment-service/src/services/payment.service.ts:174-229 | any sequence of allowed events keeps them |
| Books.TransferKeepsConserved | services/payment-service/src/services/payment.service.ts:167-192 | debit and credit leave the total of all accounts as it is and no balance negative |
| Books.TransferKeepsLedger | services/payment-service/src/services/ledger.service.ts:8-27 | the two entries continue the chains of both accounts and of nobody else |
| Books.TransferKeepsScores | services/payment-service/src/repositories/payment.repository.ts:103-120 | the signal rows of a transfer add up to its score and touch no other transfer's sum |
| Books.ExactlyOnePairPerTransfer | services/payment-service/src/repositories/ledger.repository.ts:8-28 | exactly two ledger entries carry the id of a transfer, its debit and its credit |
| AccountLocks.Exclusion | packages/redis/client.ts:99-178 | while no lock outlives its TTL, clients that share an account are never both between acquire and release, each key has one owner, and a holder's keys are visible |
| AccountLocks.NoLeak | packages/redis/client.ts:139-178 | on every run a key in Redis belongs to a client that has not finished; a visible one to a client at work or to one that died or had a call throw less than the TTL ago; when all have finished no key is left |
| AccountLocks.Progress | packages/redis/client.ts:139-167 | once all started two-account acquisitions are over, at least one succeeded |
| AccountLocks.SortPairSorts | packages/redis/client.ts:144-147 | the two lock keys are tried in ascending order and are those of the two accounts |
| Prelude.LessIsAlphabetical | packages/redis/client.ts:144-147 | one string comes before another exactly if at the first difference it ends or has the smaller character |
| AccountLocks.ExpiryLetsAnotherIn | packages/redis/client.ts:99-111 | somebody can get in beside a holder on a shared account if and only if the holder's key for it is no longer visible |
| AccountLocks.LateReleaseLetsAnotherIn | packages/redis/client.ts:119-122 | a late holder's release frees its successor's locks for a third client |
| AccountLocks.LateReleaseHappens | packages/redis/client.ts:119-178 | a run from the start on which that happens to a successor that is well within its TTL |
| TransferLocks.LocksRun | services/payment-service/src/services/payment.service.ts:76-86 | seen from Redis, every run of the protocol is a run of the lock machine, never with one account twice |
| TransferLocks.TransfersExclude | services/payment-service/src/services/payment.service.ts:78-88 | while no lock outlives its TTL, two running transfers that share an account are never both inside |
| TransferLeftovers.NothingIsLeftLocked | services/payment-service/src/services/payment.service.ts:325-329 | when every request has returned, thrown or died and been noticed, the row locks and reserved keys left are those of requests whose ROLLBACK failed and is yet to be made up for, and every Redis key left was set by a request that one of the failures of KeysAreLeftIff has hit |
| TransferLeftovers.KeysAreLeftIff | packages/redis/client.ts:99-178 | a request that has returned, thrown or died leaves a lock key if and only if the second SET or the first releasing DEL threw, or an executed first SET threw having found its key free, or an undo or last DEL threw unexecuted, or it died while it had a key |
| TransferRuns.FailedRollbackLeavesRow | services/payment-service/src/services/payment.service.ts:145-247 | on some run a ROLLBACK throws and the sender's row stays locked although the request goes on |
| TransferLocks.SomeTransferGetsItsLocks | packages/redis/client.ts:139-167 | whoever else has died or returned, once no started acquisition is unfinished one has succeeded |
| TransferLeftovers.RunKeepsOwners | services/payment-service/src/repositories/payment.repository.ts:62-68 | row locks and reserved keys always belong to open transactions or to those whose ROLLBACK failed, and the requests of these are rejected |
| Interference.OthersStep | services/payment-service/src/services/payment.service.ts:55-330 | a step of the rest of the system has the same effect whether a given request is there or not |
| PaymentService.Payment.InitiatePayment | services/payment-service/src/services/payment.service.ts:55-330 | called in any reachable state and under any interference: it returns with no row locked unless its ROLLBACK threw, and with its Redis locks released unless a call on them threw; it is charged at most for its own terms, once on success, not at all on a replay, and on a rejection exactly when a late call threw; never CONCURRENT_MODIFICATION; sound books. Every refusal has met its cause, and where each of its calls is executed and answered that is never a failing store. If nobody else acts either, the answer is the `Verdict` on the state it came into, with books and cache changed by just that transfer or not at all |
| TransferVerdict.CalmRunGivesTheVerdict | services/payment-service/src/services/payment.service.ts:55-330 | from any reachable state, if nobody else acts and no call throws, the request is answered by the first that applies of: the cached row; Validation for an amount outside 1 to 1,000,000,000 or equal accounts; AccountLocked for a visible lock key; the missing account; FraudBlocked from 60 points on; a row locked by another; the account that is not active; the insufficient balance; the taken key; and otherwise success with the row it asks for. The books are one transfer further on success and the cache holds its row; otherwise both are unchanged |
| TransferCauses.RefusedIff | services/payment-service/src/services/payment.service.ts:57-176 | on every run an answered call refuses its request with a given error if and only if the state at that moment is its cause: terms, a visible lock key, an absent account, 60 points, a row locked by another, a frozen account, a balance below the amount, a taken key |
| TransferCauses.RefusalHasItsCause | services/payment-service/src/services/payment.service.ts:55-330 | on every run whoever is refused has met the cause of just that error, or, for a store error, a call to that store that threw |
| TransferCauses.SmoothRefusalHasItsCause | services/payment-service/src/services/payment.service.ts:55-330 | where each of its calls is executed and answered, a refusal is never a failing store, whatever the others do |
| PaymentService.Payment.Respond | services/payment-service/src/services/payment.service.ts:57-86 | cache check, validation, locks, transfer and release follow the machine, throwing calls included, and the answer is the machine's outcome |
| PaymentService.Payment.LookUp | services/payment-service/src/services/payment.service.ts:57-74 | a hit is replayed, a miss goes on if the request is valid, a failing cache ends the call |
| PaymentService.Payment.TransferUnderLocks | services/payment-service/src/services/payment.service.ts:88-323 | the try block ends where the locks are to be released, with its result or exception as the outcome |
| PaymentService.Payment.TransferWithRetries | services/payment-service/src/services/payment.service.ts:140-251 | the loop ends with the committed row or with the error, after at most three attempts |
| PaymentService.Payment.Transaction | services/payment-service/src/services/payment.service.ts:145-247 | commit on return, rollback on a throw; a ROLLBACK that throws replaces the error |
| PaymentService.Payment.TransferWithin | services/payment-service/src/services/payment.service.ts:145-233 | the callback reads, checks, debits, credits and records, or throws at the first failing statement, whether that was executed or not |
| PaymentService.Payment.ReadSender | services/payment-service/src/services/payment.service.ts:148-156 | locks the sender's row, or throws not found or frozen |
| PaymentService.Payment.ReadRecipient | services/payment-service/src/services/payment.service.ts:158-170 | locks the recipient's row and refuses in the order of the code: not available, no row, not active, balance below the amount; `RefusedIff` and `CalmRunGivesTheVerdict` fix which state gets which error |
| PaymentService.Payment.WriteSender | services/payment-service/src/services/payment.service.ts:174-184 | writes the debited balance under the version check |
| PaymentService.Payment.RecordEntries | services/payment-service/src/services/payment.service.ts:209-218 | passes balances that make the entries the transfer's debit and credit |
| PaymentService.Payment.LockAccount | services/payment-service/src/repositories/payment.repository.ts:62-68 | the row under a new lock, none if there is no such row, an error without waiting if another transaction has it; if it throws, it may have taken the lock |
| PaymentService.Payment.UpdateBalance | services/payment-service/src/repositories/payment.repository.ts:71-84 | writes balance and version of the row with the given id and version, and reports how many rows that was; if it throws, it may have written |
| PaymentService.Payment.CreditAccount | services/payment-service/src/repositories/payment.repository.ts:87-100 | writes balance and version of the row with the given id; if it throws, it may have written |
| PaymentService.Payment.Create | services/payment-service/src/repositories/payment.repository.ts:8-36 | inserts the row and reserves its key, or fails if the key is taken; if it throws, it may have done so |
| PaymentService.Payment.CreateEntries | services/payment-service/src/services/ledger.service.ts:8-27 | appends exactly a debit and a credit to the transaction's work; if it throws, it may have done so |
| PaymentService.Payment.InsertFraudSignals | services/payment-service/src/repositories/payment.repository.ts:103-120 | appends one row per signal and needs no statement for none; if it throws, it may have done so |
| PaymentService.Payment.IdempotencySet | services/payment-service/src/services/idempotency.service.ts:20-27 | the response cached under the key; if it throws, either so or without effect |
| PaymentService.Payment.AcquireLock | packages/redis/client.ts:99-111 | succeeds exactly when the key is absent or expired, and then sets it with the TTL; if it throws, it may have set it |
| PaymentService.Payment.AcquireAccountLocks | packages/redis/client.ts:139-167 | both keys set in sorted order, or none kept, or an exception that leaves what is set |
| PaymentService.Payment.ReleaseAllLocks | packages/redis/client.ts:174-178 | both keys deleted one after the other, or an exception that ends the call |
| RateLimiter.Limiter.SlidingWindowRateLimit | packages/redis/client.ts:199-232 | the new counters and the verdict are those of `Hit`, of which the rows below state the values on every history |
| RateLimiter.CountersCount | packages/redis/client.ts:204-214 | a bucket's counter counts exactly the bucket's calls and its TTL outlives the bucket |
| RateLimiter.AllowedIffFewEarlier | packages/redis/client.ts:216-231 | a call is allowed exactly when fewer than the limit came before it in its bucket |
| RateLimiter.AnswerIsExact | packages/redis/client.ts:204-231 | on every history the whole answer: remaining is the limit less one less the earlier calls of the bucket, and the wait of a denied call is the least number of seconds, at least 1, that reaches one window after the first call of the bucket |
| RateLimiter.BucketBound | packages/redis/client.ts:216-231 | per bucket the smaller of the number of calls and the limit is allowed |
| RateLimiter.WindowBound | packages/redis/client.ts:199-232 | in any interval of one window length at most twice the limit is allowed |
| RateLimiter.RetryAfterIsLateEnough | packages/redis/client.ts:216-226 | whoever waits as long as told comes back in a later bucket |
| RateLimiter.TwoBursts | packages/redis/client.ts:204-214 | the bound of twice the limit is reached |
| RateLimiter.SlidingOnlyIfTrivial | packages/redis/client.ts:184-198 | the documented bound of the limit per window holds if and only if the window is 1 ms or the limit 0 |
| FraudEngine.UnblockedIsExplained | services/payment-service/src/services/payment.service.ts:43-49 | a payment is let through exactly when its signals add up to less than 60, then its score is that sum; the action is approve, review, challenge or decline by the bounds 30, 60 and 80 on the score; a failed check gives 0 and no signals |
| FraudEngine.ActionByPoints | services/fraud-service/src/engine/fraudEngine.ts:12-43 | with n the points of the rules that fired, the score is the smaller of n and 100 and the action is approve below 30, review below 60, challenge below 80, decline from 80 on; the signals are those that fired, in order |
| FraudEngine.CheckByPoints | services/payment-service/src/services/payment.service.ts:43-137 | the same seen by the payment service, where an unreachable fraud service counts 0 points: blocked from 60 on, otherwise approve below 30 and review above |
| FraudEngine.CapOnlyWhenAllFire | services/fraud-service/src/engine/fraudEngine.ts:30-43 | the cap at 100 changes the score exactly when all six rules fire |
| FraudEngine.SumOfResults | services/fraud-service/src/engine/fraudEngine.ts:19-37 | filter and sum add the points of the rules that fired |
| FraudRules.ChainIsLongest | services/fraud-service/src/engine/rules/velocityRule.ts:7-8 | a key refreshed by every call spans the longest suffix of calls without a gap of the TTL |
| FraudRules.VelocityRule.CheckVelocity | services/fraud-service/src/engine/rules/velocityRule.ts:5-19 | increments a live counter or starts a new one, refreshes it, fires above 3 |
| FraudRules.VelocityCountsTheChain | services/fraud-service/src/engine/rules/velocityRule.ts:5-19 | on every history the count is the length of that suffix |
| FraudRules.VelocityFiresIff | services/fraud-service/src/engine/rules/velocityRule.ts:10-17 | fires exactly when the last four calls follow each other at less than 60 s |
| FraudRules.VelocityAgainstItsDocumentation | services/fraud-service/src/engine/rules/velocityRule.ts:1-19 | fires whenever the documented rule does, and beyond it in exactly one family of histories |
| FraudRules.VelocityFiresOnSlowCalls | services/fraud-service/src/engine/rules/velocityRule.ts:1-19 | four calls 59 s apart, of which no more than two fall into one minute, make it fire |
| FraudRules.RecipientRiskRule.CheckRecipientRisk | services/fraud-service/src/engine/rules/recipientRiskRule.ts:6-25 | adds the sender to a live set or a new one, refreshes it, fires above 10 |
| FraudRules.SendersAreTheChain | services/fraud-service/src/engine/rules/recipientRiskRule.ts:9-14 | on every history the set is the senders since the last gap of an hour |
| FraudRules.RecipientRiskRemembers | services/fraud-service/src/engine/rules/recipientRiskRule.ts:9-14 | a sender is in the set exactly if since one of his receipts there was no gap of an hour |
| FraudRules.RecipientRiskMissesNothing | services/fraud-service/src/engine/rules/recipientRiskRule.ts:1-25 | it contains every sender of the last hour and fires if those are more than ten |
| AmountAnomaly.AmountAnomalyRule.CheckAmountAnomaly | services/fraud-service/src/engine/rules/amountAnomalyRule.ts:5-28 | the trimmed set and the verdict as a function of the old set |
| AmountAnomaly.TrimmedZAdd | services/fraud-service/src/engine/rules/amountAnomalyRule.ts:7-10 | adding to the trimmed set and trimming equals adding to the full ranking and trimming |
| AmountAnomaly.FullRanking | services/fraud-service/src/engine/rules/amountAnomalyRule.ts:7-12 | the untrimmed set ranks exactly the distinct amounts since the last 30-day gap by their latest use |
| AmountAnomaly.StoredIsTopOfRanking | services/fraud-service/src/engine/rules/amountAnomalyRule.ts:7-12 | on every history the stored set is the top 20 of that ranking |
| AmountAnomaly.KeepsTheLastTwentyIff | services/fraud-service/src/engine/rules/amountAnomalyRule.ts:7-14 | with strictly increasing times the set is the last 20 calls since the last 30-day gap if and only if no amount occurs twice among them |
| AmountAnomaly.TwoUsesOneMember | services/fraud-service/src/engine/rules/amountAnomalyRule.ts:7-10 | one amount used twice is stored once |
| AmountAnomaly.FiresOnHistoryIff | services/fraud-service/src/engine/rules/amountAnomalyRule.ts:14-27 | on every history: with the current amount among n stored ones the rule fires exactly when (n - 5) times it exceeds five times the sum of the others; otherwise 20 other amounts were used in the same millisecond, and it is compared with their average; never below six distinct amounts |
| Webhooks.Lifecycle | services/webhook-service/src/dispatcher.ts:43-121 | at most five POSTs; while pending or retrying the attempt number is the number of answered POSTs plus one; POST k comes no earlier than the first plus the delays between |
| Webhooks.FinalIsFinal | services/webhook-service/src/repositories/webhook.repository.ts:63-93 | delivered and failed are absorbing and get no further POST |
| WebhookOutcomes.RowTellsItsHistory | services/webhook-service/src/dispatcher.ts:65-121 | on every run each row is exactly what the last heard of it calls for: pending as attempt 1 before any answer; delivered with the code of a success; after the n-th failure at time t, n below 5, retrying as attempt n + 1 with its code and due at t plus 30 s, 5 min, 30 min or 2 h; failed after the fifth; failed without a code when its endpoint is gone |
| WebhookOutcomes.DeliveredIff | services/webhook-service/src/repositories/webhook.repository.ts:63-72 | a row is delivered if and only if the last POST was answered with success |
| WebhookOutcomes.SuccessIsTheEnd | services/webhook-service/src/dispatcher.ts:65-71 | however the run goes on after a success, the row stays delivered with that code and gets no further POST |
| WebhookOutcomes.VisitIff | services/webhook-service/src/dispatcher.ts:124-131 | on its turn a row is posted if and only if its endpoint exists and is active, and otherwise failed without a POST |
| WebhookOutcomes.PostsAreDue | services/webhook-service/src/dispatcher.ts:43-83 | every POST of a run is the first of its row, or follows the n-th failure, n below 5, after its full delay |
| WebhookOutcomes.BatchIsFiftyEarliest | services/webhook-service/src/repositories/webhook.repository.ts:96-102 | the worker may fetch exactly the fifty earliest due rows in order, or all if fewer |
| Webhooks.GivenUpAfterFivePosts | services/webhook-service/src/dispatcher.ts:86-111 | a delivery whose POST fails is given up exactly when that was its fifth |
| Webhooks.RunKeepsInv | services/webhook-service/src/retryWorker.ts:10-33 | on every run each row agrees with the POSTs made for it and a fetched row is still as it was fetched |
| Webhooks.NoDeliveryStarves | services/webhook-service/src/retryWorker.ts:10-33 | with n retries scheduled no later than a due one, that one stays as it is for at most ceil(n / 50) polls, and for fewer once the worker is done with its batch |
| Webhooks.RowChangesOnlyBy | services/webhook-service/src/dispatcher.ts:65-131 | and it changes only by the answer to a POST made for it, then with a date after now, or because its endpoint is gone |
| WebhookService.Service.FindPendingRetries | services/webhook-service/src/repositories/webhook.repository.ts:96-102 | the due retrying rows, the earliest fifty in order of their dates |
| WebhookService.Service.ScheduleRetry | services/webhook-service/src/dispatcher.ts:86-121 | a retry after the delay of this attempt, or failure after the last |
| WebhookService.Service.AttemptDelivery | services/webhook-service/src/dispatcher.ts:43-83 | whatever happens while the answer is awaited, a POST has been made, the row is exactly what its answer calls for at that time, delivered if and only if that was a success, and no other row has been moved back |
| WebhookService.Service.RetryDelivery | services/webhook-service/src/dispatcher.ts:124-131 | the row at the head of the queue is failed without a POST if and only if its endpoint is gone when looked up, and otherwise ends up as the answer to its POST calls for; the worker goes on by one row |
| WebhookService.Service.ProcessRetries | services/webhook-service/src/retryWorker.ts:10-33 | whatever else happens between and during the attempts, after the loop no row of the fetched batch is as it was fetched |
| WebhookService.Service.DispatchWebhook | services/webhook-service/src/dispatcher.ts:16-40 | whatever else happens meanwhile, every endpoint found has got a new delivery of its own that is no longer pending |
| EventConsumer.Consumer.EachMessage | packages/kafka/consumer.ts:112-179 | the result of each message and the new set: only a handler that succeeds changes it, by the id, or by clearing it above 10,000 |
| EventConsumer.SetIsRecentLog | packages/kafka/consumer.ts:51-68 | after each message the set is exactly the ids handled successfully since the last clear, without repeats, at most 10,000 |
| EventConsumer.HandledAtMostOncePerPeriod | packages/kafka/consumer.ts:131-156 | among N successes an id occurs at most 1 + floor(N / 10001) times |
| EventConsumer.SkippedIffHandledThisPeriod | packages/kafka/consumer.ts:128-139 | a redelivery is skipped exactly when one of its successes falls into the current period of 10,001 |
| EventConsumer.FailureIsRetried | packages/kafka/consumer.ts:150-179 | an event whose handler failed leaves no trace and reaches its handler again when redelivered |
| AccountPages.UnionAllIsOrFilterIff | services/account-service/src/repositories/account.repository.ts:48-67 | UNION ALL and OR give the same multiset if and only if the table has no self-transfer of the account |
| AccountPages.WhereCounts | services/account-service/src/repositories/account.repository.ts:48-67 | a filter keeps each row it wants as often as the table has it |
| AccountPages.RewriteIsRight | services/payment-service/src/services/payment.service.ts:72-74 | so they agree at any time in any run of the transfer service |
| AccountPages.OrderIsFixedIff | services/account-service/src/repositories/account.repository.ts:65-66 | the order of the rows is determined if and only if rows created at the same time do not differ |
| AccountPages.TiesMayRepeatARow | services/account-service/src/repositories/account.repository.ts:65-66 | with a tie two pages may show the same row and never the other |
| AccountPages.EachPage | services/account-service/src/services/account.service.ts:54-86 | for any page and limit: below page 1 an error; otherwise, with the limit moved into 1 to 100, the rows from (page - 1) * limit up to page * limit; a page with rows states the true total and the least number of pages that holds all rows, and has more exactly when rows follow; a page beyond the last is empty with total 0 |
| AccountPages.PagesAreTheHistory | services/account-service/src/services/account.service.ts:98-134 | for any limit, the pages from first to last concatenate to the history, and no fewer do |
| AccountPages.PagesShowTheTransfers | services/account-service/src/services/account.service.ts:48-86 | on any run, the pages of the query's result show every transfer from or to the account as often as it is stored, and no other |
| CaseKeys.SnakeRoundTrip | packages/types/index.ts:464-487 | snake(camel(k)) = k if and only if k has no A-Z |
| CaseKeys.CamelRoundTrip | packages/types/index.ts:464-487 | camel(snake(k)) = k if and only if k has no underscore before a-z |
| CaseLetters.CamelByLetters | packages/types/index.ts:464-471 | letter by letter, with both alphabets written out: an underscore with the n-th small letter becomes the n-th capital, all else stays |
| CaseLetters.SnakeByLetters | packages/types/index.ts:480-487 | the n-th capital becomes an underscore with the n-th small letter, all else stays |
| CaseKeys.ToCamelCase | packages/types/index.ts:464-471 | the loop assigns every field in turn to its camelCase key |
| CaseKeys.ToSnakeCase | packages/types/index.ts:480-487 | the loop assigns every field in turn to its snake_case key |
| CaseKeys.LastValueWins | packages/types/index.ts:464-487 | the result has exactly the new keys other than `__proto__`, each once, with the value of the last field that became it |
| CaseKeys.NothingLostIff | packages/types/index.ts:464-471 | fields keep their number, order and values if and only if no two new keys are equal and none is `__proto__` |
| CaseKeys.RowRoundTrip | packages/types/index.ts:464-487 | toSnakeCase(toCamelCase(row)) = row if and only if no column has a capital or is `__proto__`; without capitals toCamelCase loses no field |
| CaseKeys.ObjectRoundTrip | packages/types/index.ts:464-487 | the same the other way round, for keys that have no underscore before a small letter and are not `_Proto__` |
| CaseKeys.ColumnsMayMerge | packages/types/index.ts:464-471 | two columns whose keys become equal leave one field with the later value |
| CaseKeys.TopLevelIsEnoughIff | packages/types/index.ts:456-471 | on a row without capitals the code gives what the described recursive conversion gives if and only if no object nested in a value has a key to convert |
| CaseKeys.NestedKeysStay | packages/types/index.ts:456-471 | a row whose nested key the code leaves as it is |

## Left out

- PaymentService.Payment.InitiatePayment: of the messages to Kafka only the awaited one about a blocked payment can be seen to fail; logging and the length of the wait between two retries are omitted.
- TransferProtocol.UpdateBalance: `version` is a 32-bit INTEGER in the database; its overflow after 2^31 updates of one account is not modelled.
- Webhooks.NoDeliveryStarves: counts polls, not the time between them.
- WebhookService.Service.DispatchWebhook: the endpoints found are a parameter; a crash between creating and attempting a delivery leaves it pending for good.
- AmountAnomaly.FiresOnHistoryIff: the average is an exact rational, not a floating-point number.
- AccountPages.PagesAreTheHistory: states what holds for one fixed order; `OrderIsFixedIff` says when there is just one.
- The 24 hours of the idempotency cache: in the protocol an entry may expire at any time, which includes them.
- Statuses of accounts do not change during a run, because no modelled code changes them; balances at the start are arbitrary non-negative numbers.
- Currency, description, timestamps and status of transaction rows; the admin routes that overwrite a status afterwards. Rows are meant as inserted.
- The CHECK on balances (`packages/database/migrations/002_create_accounts.sql:8`) is not modelled; `BooksAreSound` shows that it never fires.
- The read caches of the account service, chart and statistics queries, and ownership checks.
- Redis evictions and restarts, time running backwards, and the order of integer-like keys in JavaScript objects.
- The three stateless fraud rules (unusual hour, new account, round amount), which enter as arbitrary answers.
- User interface, proxies, middleware, authentication, email, signing of webhooks, validation schemas, formatting of amounts, scripts.
