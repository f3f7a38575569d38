# Verification of the platform's safety core

A Dafny 4.11 model of the parts of the platform where a mistake moves money
twice, loses a webhook or a job, or answers the wrong tenant, with proofs about
every run and every input. `dafny verify dfyconfig.toml` checks all of it.

Code that changes state step by step is modelled by classes and loops
(`JobQueue.Queue`, `WebhookStore.WebhookEventRepository`,
`CheckAndClaim.Run`, `MessageRouting.RouteMessage`, ...). Each method is proved
against a function of the old state or a predicate of its answer. What the source
promises of that function is stated beside it in other terms, field by field or by
what follows from it later, and the theorems about whole runs are lemmas over it.
Where several processes share a store, one store call is one atomic step and
processes interleave between calls; that is the grain the source itself
guarantees. Inductions are written out: a lemma Dafny would try to prove by
automatic induction carries `{:induction false}`.

| concern | modules |
|---|---|
| One payment, charged once | `ProviderCalls`, `ProviderIdentity`, `PaymentRouting`, `TransactionStatus`, `TransactionRows`, `PaymentRowSafety`, `PaymentSafety` |
| One request, one effect | `CanonicalJson`, `JsonReader`, `IdempotencyLedger`, `CheckAndClaim` |
| Durable webhooks | `WebhookStore`, `WebhookIngest`, `WebhookEffects`, `WebhookConsumers`, `WebhookDrivers` |
| Background jobs | `WorkerTypes`, `MemoryStore`, `JobQueue`, `JobPlaces`, `JobConservation`, `JobRuns`, `JobBounds`, `WorkerKeys`, `RateLimiter` |
| Inbound text | `KeywordGrammar`, `KeywordCommands`, `KeywordCommandTable`, `KeywordDispatch`, `ConversationResolver` |
| Outbound channel | `ChannelPolicy`, `MessageRouting` |
| Shared | `Failover`, `Lists`, `Tables`, `Wrappers` |

## What the code does not promise

The lemmas named give a concrete input or run, or the exact condition under which
the code does keep the promise, or both.

- With `retryAmbiguous`, a lost attempt whose retry is declined with a status
  below 400 is reported failed although the first attempt may have charged
  (`ProviderCalls.DeclinedRetryHappens`; condition in `ReportIsTrue`). The
  router then moves on to the next provider, and if the routing ends in a thrown
  failure the same key can charge again (`PaymentSafety.LostChargeIsChargedAgain`;
  `SecondChargeExactlyWhenForgotten` shows that this is the only way).
- `transitionStatus` lets a caller clear the provider id while failing a payment,
  after which the row can be charged again
  (`PaymentRowSafety.ClearedRowIsReprocessed`, `ProviderIdLostExactlyWhenCleared`).
- The comment above `buildIdempotencyIdentity` says that two payments never share
  an identity. That holds for the platform's own UUID ids, and in the full form for
  any ids without the separator (`ProviderIdentity.FullIdentitiesAgreeExactly`).
- A webhook row created by the worker fallback is acknowledged as a duplicate
  although its other jobs were never queued, and unless a loop over all of them was
  already under way its inbound message never will be
  (`WebhookIngest.FallbackRowAcknowledgedUnhanded`, `InboundIsSettledWhenMarked`).
- The enqueue lease is not fenced: a late release clears another holder's lease
  and overwrites its record of what was enqueued (`AfterRelease`); the
  acknowledgement theorem holds in spite of it.
- A rescue does not ask whether the worker is alive: a job slower than the
  threshold is started twice (`JobRuns.RescueIsSafeExactlyForLostJobs`).
- A ready job whose stored text has expired is dropped without a trace
  (`JobRuns.ExpiredJobIsDropped`).
- If completing a job fails after its success was recorded, the error handler
  releases the idempotency key and the job can succeed twice
  (`WorkerKeys.FailedCompletionRunsTwice`, `SecondSuccessExactlyWhenReleased`).
- Refused calls renew the rate limiter's window, so a caller that never pauses
  stays refused (`RateLimiter.AllowedExactlyWithinStreak`), and the weight of a
  call is never charged (`RateLimiter.Limiter.Limit`).
- An application-wide keyword is not checked against tenants' own commands
  (`KeywordCommandTable.ApplicationUpsertAndTenant`), nor is the application row a
  tenant uncovers by removing its own (`RemovalAndTenant`).
- `canonicalJson` prints NaN and infinities as `null`, and a top-level undefined
  likewise, so each of those hashes like null; `CanonicalJson.Same` says so.
- Against the record store, `checkAndClaim`'s race retries are never used
  (`CheckAndClaim.LedgerNeverRaces`).

## Model

| member | source | states |
|---|---|---|
| `PaymentSafety.SecondChargeExactlyWhenForgotten` | services/api-gateway/src/app.ts:365-470 | Over every run from allocation (routings made of their providers' calls and attempts, crashes, lost writes, webhooks, status checks, escalation, operators), a payment that may be paid can be charged again at some moment if and only if some routing believed a decline of a retried ambiguous attempt and its end was written on the processing row as a failure without a provider id. |
| `PaymentSafety.NoSecondCharge` | services/api-gateway/src/app.ts:365-470 | Over every such run without that step, whenever a retry may start no earlier attempt may have moved money and none is running. |
| `PaymentSafety.NoSecondChargeUnretried` | packages/providers/src/base.ts:493-625 | In particular over every run whose charges do not retry ambiguous attempts. |
| `PaymentSafety.LostChargeIsChargedAgain` | packages/routing/src/index.ts:430-471 | Counterexample run: a charge is lost, its retry declined and believed, the next provider offline; the failure is written and the same key charges again. |
| `PaymentSafety.StepSafeExactlyUnlessForgets` | services/api-gateway/src/app.ts:365-470 | A step keeps a charged or in-flight payment from being reopened if and only if it is not the forgetting one. |
| `PaymentSafety.RunKeepsSafe` | services/api-gateway/src/app.ts:365-470 | Whole runs without such a step keep it. |
| `PaymentSafety.ForgettingReopens` | services/api-gateway/src/app.ts:411-462 | Whatever went before, such a step leaves a payment that may be paid open to a retry. |
| `PaymentSafety.RoutingFailureCanRetry` | services/api-gateway/src/app.ts:440-462 | A routing that threw, no such decline believed, charged nothing and can be retried under the same key exactly when its failure was written. |
| `PaymentSafety.ReadingIsRecorded` | services/api-gateway/src/app.ts:411-462 | When the last provider's answer was read below 400 and the result is written on the processing row, the row is a success exactly if the answer approved, pending exactly if it was in progress, failed exactly if it declined, unknown exactly if it was unreadable; it names the provider charged and the provider's id. |
| `PaymentSafety.ThrownIsRecordedFailed` | services/api-gateway/src/app.ts:440-462 | A routing that threw is recorded failed, without a provider id and with the provider as it was. |
| `PaymentSafety.ProviderIsRemembered` | packages/simulation/src/db.ts:434-462 | Over every run, no other step changes which provider a payment names. |
| `PaymentRouting.ChargedExactlyWhenBelieved` | packages/routing/src/index.ts:398-483 | A routing that reports no charge made one if and only if it believed a decline of a retried ambiguous attempt. |
| `PaymentRouting.RoutePaymentAttempts` | packages/routing/src/index.ts:398-483 | For every network behaviour: the selected provider first, then the best-ranked not asked yet, within the attempt cap; each outcome is what its calls made of it and the answer is the last one; every provider before the last was left uncharged, and a result never reports failure after a possible charge, except exactly where a decline of a retried ambiguous attempt was believed; candidates stay untried only after a stopping outcome or at the cap. |
| `PaymentRouting.AnsweredAsReported` | packages/routing/src/index.ts:398-483 | The answer is what the last provider asked reported: its own status, unknown for a timeout or an error that does not deny the charge, exhaustion for one that does; before it only declines and denied charges. |
| `PaymentRouting.NobodyIsLeftOut` | packages/routing/src/index.ts:460-478 | A failure is answered only when the attempt cap is reached or every ranked candidate was asked. |
| `Failover.NoneTwice` | packages/routing/src/index.ts:398-476 | Whoever is selected and however candidates are ranked, a cascade asks nobody twice. |
| `ProviderCalls.HttpRequest` | packages/providers/src/base.ts:493-625 | Which attempts are made and why the loop stops: it goes on exactly after retryable attempts no cancellation cut off; prior ambiguous attempts are counted exactly; a thrown error is ambiguous exactly if an attempt was, or if cancellation cut a failing one in flight. |
| `ProviderCalls.ResultIsDetermined` | packages/providers/src/base.ts:493-625 | Those conditions leave one result for every behaviour of the network and the caller's signal. |
| `ProviderCalls.RetriesWhileItMay` | packages/providers/src/base.ts:493-625 | An unsent attempt, a 429, or with `retryAmbiguous` a broken one or a 5xx, is followed by another while there is one left and the caller has not gone. |
| `ProviderCalls.StopsAtAnythingElse` | packages/providers/src/base.ts:493-625 | Any other attempt is the last: an answered one is the response, a failed one a thrown error. |
| `ProviderCalls.ProcessRequest` | packages/providers/src/base.ts:639-693 | Reports exactly what the loop's one result amounts to for an adapter, and nothing was sent if the provider is not ready. |
| `ProviderCalls.ReportIsTrue` | packages/providers/src/base.ts:639-693 | A reported failure means no attempt may have charged, if and only if the last answer was not a decline of a retried ambiguous attempt; without `retryAmbiguous` only the last attempt may have charged; a reported unknown, except for a cancelled unsent attempt, means one may have. |
| `ProviderCalls.ReportedAsRead` | packages/providers/src/base.ts:639-693 | An answer below 400 is reported as read, whatever came before it; anything else as failed or unknown. |
| `ProviderCalls.NoneAmbiguous` | packages/providers/src/base.ts:560-620 | The loop counter is zero exactly when no attempt so far was ambiguous. |
| `ProviderCalls.OnlyAmbiguousOrRefusedRetried` | packages/providers/src/base.ts:493-625 | An attempt that may have charged is followed by another only if it was ambiguous and retrying ambiguous attempts was asked for. |
| `ProviderCalls.DeclinedRetryHappens` | packages/providers/src/base.ts:493-625 | Counterexample: a lost attempt, retried, then declined with status 200 is reported failed although the first may have charged. |
| `ProviderIdentity.DifferentPaymentsDifferentIdentities` | packages/providers/src/base.ts:252-285 | Two payments with different UUIDs never get the same provider identity, whatever keys, suffix, separator and length limit and across all three fitting forms, if the truncated digests of the two differ. |
| `ProviderIdentity.CompactIdentifiesUuid` | packages/providers/src/base.ts:276-280 | Dropping the dashes loses nothing of a UUID. |
| `ProviderIdentity.IdentityFitsTheField` | packages/providers/src/base.ts:252-285 | An identity is never longer than the field, opens with the prefix, and holds only characters the field takes if it takes digests; there is none only for a blank id or a field shorter than 15 characters and the separator. |
| `ProviderIdentity.FullIdentitiesAgreeExactly` | packages/providers/src/base.ts:252-274 | For any ids, with a one-character separator, identities in the full form agree exactly for the same id and key or if one id is the other followed by the separator and the head of its key; ids without the separator never share one. |
| `ProviderIdentity.OtherIdsCollide` | packages/providers/src/base.ts:252-274 | Such ids, which the platform never issues, in a concrete pair. |
| `TransactionStatus.GuardIsGraph` | packages/database/src/transaction-status.ts:97-157 | The statuses allowed into a status are exactly the sources of its edges in the transition table. |
| `TransactionStatus.EdgesByKind` | packages/database/src/transaction-status.ts:97-119 | The whole graph in three rules: unresolved states settle, change among each other except back to processing or out of reconciliation, and success or a partial refund can be refunded. |
| `TransactionStatus.TransactionStatusesAllowedInto` | packages/database/src/transaction-status.ts:152-157 | The guard handed to the stores admits exactly the edges of the graph. |
| `TransactionRows.TransactionRepository.AllocatePaymentAttempt` | packages/simulation/src/db.ts:1863-1889 | Refused exactly when the key already has a row; otherwise one fresh processing row is added and nothing else changes. |
| `TransactionRows.TransactionRepository.TransitionStatus` | packages/simulation/src/db.ts:434-462 | Applied exactly when the row exists and the graph and the caller's guard allow it; field by field: the provider is the caller's or stays, a provider id already there survives a fill, the dates of not knowing, of reconciliation and of its resolution are set exactly on entering or leaving those states, and the payment stays the same; no other row changes. |
| `TransactionRows.TransactionRepository.RecordPaymentAttemptOutcome` | packages/simulation/src/db.ts:1890-1903 | Accepted exactly while the row is processing and the graph has the edge; afterwards the row names the provider that was charged, its id, and the outcome. |
| `TransactionRows.TransactionRepository.ReopenFailedPaymentAttempt` | packages/simulation/src/db.ts:1904-1911 | Reopens exactly a failed row without provider id that was never ambiguous, changing its status only. |
| `TransactionRows.TransactionRepository.ApplyWebhookStatus` | packages/simulation/src/db.ts:2310-2334 | Moves the one row found by provider id, else by the platform id if unassigned, when its status is allowed, field by field and nothing else. |
| `TransactionRows.WebhookTargetMeans` | packages/simulation/src/db.ts:2310-2334 | The row a webhook names is the one carrying the provider's id or, if there is none, the platform's own unless it carries another id or provider. |
| `PaymentRowSafety.AmbiguousNeverReprocessed` | packages/simulation/src/db.ts:434-462 | Over every run from allocation, a row that was ever unknown or awaiting reconciliation never re-enters processing. |
| `PaymentRowSafety.ProcessingHasNoProviderId` | packages/simulation/src/db.ts:1863-1911 | Over every run, a processing row has no provider id. |
| `PaymentRowSafety.PaidStaysPaid` | packages/database/src/transaction-status.ts:97-119 | Over every run, after success no unresolved, failed or cancelled state is reached, success is not re-entered from a refund, and a refunded row never changes. |
| `PaymentRowSafety.RefundFollowsSuccess` | packages/database/src/transaction-status.ts:97-119 | A refund state is reached only through success. |
| `PaymentRowSafety.ProviderIdLostExactlyWhenCleared` | packages/simulation/src/db.ts:434-462 | One transition makes a row with a provider id reopenable if and only if it fails a never-ambiguous payment while clearing the id and filling in none. |
| `PaymentRowSafety.ClearedRowIsReprocessed` | packages/simulation/src/db.ts:434-462 | Counterexample run of such a caller ending in processing again. |
| `PaymentRowSafety.TransitionMovesRows` | packages/simulation/src/db.ts:434-462 | A table transition moves each row by the row statement or not at all. |
| `PaymentRowSafety.RunKeepsInvariant` | packages/simulation/src/db.ts:434-462 | The row invariant behind these, over every run. |
| `CanonicalJson.CanonIdentifiesRequest` | packages/shared/src/idempotency.ts:75-87 | Two JSON values have the same canonical text if and only if they are the same up to member order, undefined members and undefined or null array elements, at any depth. |
| `CanonicalJson.RequestHashIdentifiesRequest` | packages/shared/src/idempotency.ts:71-87 | With a digest without collisions, two request hashes agree if and only if the requests are the same. |
| `JsonReader.CanonIsJson` | packages/shared/src/idempotency.ts:75-87 | The canonical text is a JSON document: a reader of the RFC 8259 grammar reads it, with nothing left over, to the same request with keys in ascending order, undefined members gone and null where JSON has no text. |
| `JsonReader.CanonReads` | packages/shared/src/idempotency.ts:75-87 | The same inside a document: at any depth the reader takes exactly the text of the value and leaves what follows. |
| `CanonicalJson.KeyLessByFirstDifference` | packages/shared/src/idempotency.ts:81-86 | Keys are ordered by the first UTF-16 unit in which they differ; a key comes before its extensions. |
| `CanonicalJson.ReadStringInvertsEscape` | packages/shared/src/idempotency.ts:75-87 | A reader following section 7 of RFC 8259 reads back exactly the string that was quoted, and what follows it. |
| `CanonicalJson.SortedOrderUnique` | packages/shared/src/idempotency.ts:81-86 | Sorting the keys of two objects with the same keys gives the same order. |
| `CanonicalJson.Unambiguous` | packages/shared/src/idempotency.ts:75-87 | No canonical text followed by a delimiter can be read as two different values. |
| `IdempotencyLedger.IdempotencyRecords.Claim` | packages/simulation/src/db.ts:2377-2418 | Granted exactly when the key is free, expired, or failed for the same or a legacy request; the record then carries a fresh id, the claimant's hash, no result and the deadline now plus the time to live, and a refusal shows the record as it is; nothing else changes. |
| `IdempotencyLedger.ClaimMeans` | packages/simulation/src/db.ts:2377-2418 | The same of the store and the reply, without the functions behind the method: the exact grant condition, every field of the record granted, and nothing changed by a refusal. |
| `IdempotencyLedger.IdempotencyRecords.Complete` | packages/simulation/src/db.ts:2419-2426 | Completes the processing record holding the id, with the result and its hash and deadline kept, and nothing else; refused exactly without such a record. |
| `IdempotencyLedger.IdempotencyRecords.Fail` | packages/simulation/src/db.ts:2427-2434 | Fails the processing record holding the id, keeping its hash and deadline, and nothing else; refused exactly without such a record. |
| `IdempotencyLedger.BooksBalance` | packages/simulation/src/db.ts:2377-2434 | Over every run before expiry: granted claims equal effective fails plus the record now held; effective completions equal the record now complete. |
| `IdempotencyLedger.AtMostOneEffect` | packages/simulation/src/db.ts:2377-2434 | From an unused key: at most one claim more than effective fails, at most one effective completion. |
| `IdempotencyLedger.CompletedIsReplayed` | packages/simulation/src/db.ts:2377-2434 | A completed record is unchanged and answered to every later claim until it expires, whatever its hash. |
| `IdempotencyLedger.HashIsKept` | packages/simulation/src/db.ts:2377-2434 | Over every run before expiry, failures and retakes included, a claimed key keeps its request hash: another request is refused and shown it. |
| `IdempotencyLedger.ClaimedKeyIsKept` | packages/simulation/src/db.ts:2377-2434 | After a claim granted under a hash, and until its own deadline, every claim under another hash is refused and shown that hash, whatever other requests and settlements came between. |
| `IdempotencyLedger.SupersededIsInert` | packages/simulation/src/db.ts:2377-2434 | An id no record carries is never carried again and acting under it changes nothing, over every run. |
| `IdempotencyLedger.ReclaimSupersedes` | packages/simulation/src/db.ts:2377-2418 | Taking a record over makes its previous id superseded. |
| `IdempotencyLedger.RefusalIsFinal` | packages/simulation/src/db.ts:2377-2418 | A refusal never carries an expired record or a failed one the same request could retake. |
| `CheckAndClaim.Run` | packages/shared/src/idempotency.ts:110-162 | The answer, the number of claims and the time waited, on a clock made of the given delays and sleeps: every reply but the last was a running twin before the deadline, or a lost race with retries left, and was followed by another claim; the last one is the answer, a running twin only at or after the deadline; at most 1 + MAX_RACE_RETRIES + the polls that fit the wait. |
| `CheckAndClaim.AnswerIsDetermined` | packages/shared/src/idempotency.ts:110-162 | The store's replies and the clock leave one answer, one number of claims and one time waited. |
| `CheckAndClaim.TwinsAnswerIsReturned` | packages/shared/src/idempotency.ts:146-151 | If the replies so far were all running and a decisive one comes before the deadline, that one is the answer: claimed, replayed, or a conflict for another request's hash. |
| `CheckAndClaim.SleepsBetweenPolls` | packages/shared/src/idempotency.ts:148-151 | A sleep lasts a poll interval or until the deadline, and never goes past it. |
| `CheckAndClaim.OtherRequestConflicts` | packages/shared/src/idempotency.ts:132-144 | Over every run of the record store before expiry, a request with another hash is answered a conflict. |
| `CheckAndClaim.LedgerNeverRaces` | packages/shared/src/idempotency.ts:110-162 | Against the record store the race path is never entered. |
| `WebhookStore.WebhookEventRepository.Claim` | packages/simulation/src/db.ts:2106-2150 | Inserts one received row under a fresh id for an unknown identity, else answers the existing row. |
| `WebhookStore.WebhookEventRepository.AcquireEnqueueLease` | packages/simulation/src/db.ts:2159-2167 | Leases a row exactly when it is not enqueued and its lease is free. |
| `WebhookStore.WebhookEventRepository.MarkEnqueued` | packages/simulation/src/db.ts:2168-2177 | Sets the enqueue columns of that row only. |
| `WebhookStore.WebhookEventRepository.ReleaseEnqueueLease` | packages/simulation/src/db.ts:2178-2186 | Clears the lease of that row, whoever holds it, and overwrites its recorded jobs. |
| `WebhookStore.WebhookEventRepository.ClaimStrandedForEnqueue` | packages/simulation/src/db.ts:2187-2204 | Leases up to the limit stranded rows, no passed-over stranded row having waited longer, and changes nothing else. |
| `WebhookStore.WebhookEventRepository.ClaimConsumer` | packages/simulation/src/db.ts:2205-2255 | Grants a consumer claim exactly when none exists, it failed, or its lease ran out, under a fresh token. |
| `WebhookStore.WebhookEventRepository.CompleteConsumer` | packages/simulation/src/db.ts:2256-2269 | Takes effect exactly for the live token, and then marks the event processed exactly when all expected consumers are. |
| `WebhookStore.WebhookEventRepository.FailConsumer` | packages/simulation/src/db.ts:2270-2287 | Takes effect exactly for the live token; a processed event stays so. |
| `WebhookStore.NewEventIsLeased` | packages/simulation/src/db.ts:2106-2150 | A new row is received now, under a fresh id, with nothing enqueued and a lease that keeps everybody else out until exactly `leaseMs` later. |
| `WebhookStore.NoLeaseMeanwhile` | packages/simulation/src/db.ts:2159-2167 | While a lease is live, or once the event is enqueued, nobody gets it and nothing changes. |
| `WebhookStore.MarkedIsNeverLeased` | packages/simulation/src/db.ts:2168-2177 | Marking records the jobs and the time, ends the lease for good, and leaves the rest of the row. |
| `WebhookStore.ReleasedIsFree` | packages/simulation/src/db.ts:2178-2186 | Releasing records the jobs and frees the lease at once. |
| `WebhookStore.ClaimableMeans` | packages/simulation/src/db.ts:2205-2255 | A consumer can be claimed exactly when it has no row, failed, or its running claim has run out; otherwise a claim changes nothing. |
| `WebhookStore.LeaseExcludesUntilItEnds` | packages/simulation/src/db.ts:2159-2167 | A lease keeps everybody else out until exactly `leaseMs` after it was taken, and changes nothing else. |
| `WebhookStore.SweepTakesTheStranded` | packages/simulation/src/db.ts:2187-2204 | A sweep takes no event that is under a live lease, enqueued and being processed, enqueued lately, or expects none of its consumers; with room left it takes every other one, leases it for `leaseMs`, and changes nothing else. |
| `WebhookStore.ClaimExcludesUntilItEnds` | packages/simulation/src/db.ts:2205-2255 | A granted claim carries a token never handed out, marks an unprocessed event processing, and keeps everybody else out until exactly `leaseMs` later. |
| `WebhookStore.EndedClaim` | packages/simulation/src/db.ts:2256-2287 | Ending a claim takes its live token; a failed consumer can be claimed again at once, a finished one never. |
| `WebhookConsumers.EventProcessedExactlyWhenConsumersAre` | packages/simulation/src/db.ts:2092-2104 | Over every run of statements, an event with expected consumers is processed if and only if all of them are. |
| `WebhookConsumers.FinishedIsForever` | packages/simulation/src/db.ts:2205-2287 | A processed consumer row never changes again; a processed event stays processed. |
| `WebhookConsumers.LostClaimIsInert` | packages/simulation/src/db.ts:2256-2287 | A token that is not live never becomes live again, and completing or failing under it changes nothing. |
| `WebhookConsumers.TakeoverFences` | packages/simulation/src/db.ts:2205-2255 | A takeover gives a fresh live token and makes the old one lost. |
| `WebhookConsumers.EffectsExactlyOnce` | packages/workers/src/webhookEvents.ts:251-312 | Over every interleaving of workers with crashes, expired leases, takeovers and replays, and of anyone else's transaction statements: a consumer's writes move the transaction they name at most once, and once it is processed its events row exists exactly once and says whether they did. |
| `WebhookConsumers.UndisturbedWorkIsProcessed` | packages/workers/src/webhookEvents.ts:251-312 | A claimable consumer whose worker nobody disturbs ends processed with its effects written. |
| `WebhookConsumers.LostWorkIsTakenOver` | packages/workers/src/webhookEvents.ts:285-312 | After failed work anybody can claim the consumer at once; after a worker that died, exactly once its lease has run out. |
| `WebhookConsumers.RunMovesAtMostOnce` | packages/simulation/src/db.ts:2295-2337 | From any state: no move under a recorded key, one at most under a new one, and the events row says so. |
| `WebhookConsumers.OnlyMovesChangeRows` | packages/simulation/src/db.ts:2295-2337 | No worker changes a transaction in any other way. |
| `WebhookConsumers.MoveKeepsExactlyOnce` | packages/workers/src/webhookEvents.ts:251-312 | Every move keeps one effect per key and an effect behind every finished consumer. |
| `WebhookConsumers.PersistKeeps` | packages/simulation/src/db.ts:2288-2337 | The single-statement write leaves exactly one events row for its key and all others. |
| `WebhookIngest.AcknowledgedIsDurable` | packages/workers/src/webhookEvents.ts:93-218 | Over every interleaving of gateways, sweepers and fallback workers, an acknowledged outcome has a durable enqueued row, and unless a fallback worker marked it, which never happens to a row a gateway created, every job type was handed to the queue, however leases overran and whatever late releases wrote. |
| `WebhookIngest.UndisturbedDeliveryIsAccepted` | packages/workers/src/webhookEvents.ts:156-190 | A new delivery nobody disturbs is accepted: all three jobs handed over in order, the row enqueued with them. |
| `WebhookIngest.RedeliveryRecovers` | packages/workers/src/webhookEvents.ts:190-218 | An event whose gateway died is recovered by the next delivery once the lease is over: the missing jobs are handed over, it is marked, and the answer says so. |
| `WebhookIngest.SweepRecovers` | packages/workers/src/webhookEvents.ts:326-350 | And without another delivery, by a sweep. |
| `WebhookIngest.AnswersByRole` | packages/workers/src/webhookEvents.ts:156-218 | A loop run through is accepted for the gateway's own event and recovered for another's; a refusal or a failing store is answered as such; a sweeper answers nobody. |
| `WebhookIngest.MoveKeepsHonest` | packages/workers/src/webhookEvents.ts:93-218 | Every store statement of every actor keeps the invariant behind it. |
| `WebhookIngest.FallbackRowAcknowledgedUnhanded` | packages/workers/src/webhookEvents.ts:264-277 | Counterexample: a row made and marked by the worker fallback is acknowledged as a duplicate although no job of it was ever queued. |
| `WebhookIngest.InboundIsSettledWhenMarked` | packages/workers/src/webhookEvents.ts:264-277 | Over every continuation from a marked row with no loop over all job types under way, its inbound message is ever handed over if and only if it had been. |
| `WebhookDrivers.EnqueueWebhookEventJobs` | packages/workers/src/webhookEvents.ts:93-140 | Run alone: hands over exactly the wanted jobs the queue accepts up to the first refusal, marks the row exactly when none is refused, and otherwise releases it with what went out. |
| `WebhookDrivers.IngestWebhook` | packages/workers/src/webhookEvents.ts:156-218 | Run alone: each answer names a row of the delivery's identity and says what became of it, its lease and the jobs handed over; accepted only for an identity never seen, in flight only under a live lease, failed only if the queue refused; no other row changes. |
| `WebhookDrivers.RunDurableWebhookConsumer` | packages/workers/src/webhookEvents.ts:251-312 | Run alone: a claimable consumer is worked on and ends processed with its effects under its key, or failed and claimable; replay exactly of a finished one and busy exactly under another live claim, both changing nothing; unresolvable exactly when no row is known and none can be made. |
| `WebhookEffects.SecondRunWritesNothing` | packages/simulation/src/db.ts:2295-2337 | Writing a second time under one key changes nothing, events or transactions, whatever it would have written. |
| `WebhookEffects.FirstRunWrites` | packages/simulation/src/db.ts:2295-2337 | Under a new key the events row goes last and says whether a transaction moved: exactly if the target names one in an allowed status, which then takes the status; no other row changes. |
| `WebhookDrivers.RecoverStrandedWebhookEvents` | packages/workers/src/webhookEvents.ts:326-350 | The sweep settles exactly the rows it leased: marks those whose jobs were all taken, frees the others, leaves all other rows alone, counts both, and hands over only what each row lacks, or its consumers if the queue lost it. |
| `WebhookDrivers.SweepNeverRepeatsInbound` | packages/workers/src/webhookEvents.ts:338-346 | A sweep hands over an inbound message only for a row never enqueued that had not handed it over. |
| `WebhookDrivers.ResolveEvent` | packages/workers/src/webhookEvents.ts:262-285 | The row with the job's id, untouched; else one of its identity; else a new one expecting only this consumer, already marked; none exactly when the identity is blank and unknown. |
| `WebhookEffects.EffectLog.PersistEffectsOnce` | packages/simulation/src/db.ts:2295-2337 | Inserts exactly when the key is new, and then moves the row the webhook names exactly if its status is allowed; under a known key nothing changes. |
| `JobRuns.StepKept` | packages/workers/src/queue.ts:27-214 | Every queue method, with producers, workers, crashes, rescues and dead-letter replays in any order, leaves every job in exactly one place. |
| `JobConservation.ExactlyOnePlace` | packages/workers/src/queue.ts:27-214 | Where the invariant holds, pending jobs are once in ready or delayed of their type, dead ones once in the dead list or retired, processing ones with exactly one live or dead worker, and no job in any other list. |
| `JobRuns.RescueIsSafeExactlyForLostJobs` | packages/workers/src/queue.ts:186-214 | A rescue keeps every job in one place if and only if no job it takes is still with a live worker. |
| `JobRuns.ExpiredJobIsDropped` | packages/workers/src/queue.ts:89-109 | A popped job is kept if and only if its stored text has not expired; otherwise nothing is answered and its id and text are gone. |
| `JobRuns.PromotionIsInDueOrder` | packages/workers/src/queue.ts:111-121 | A promotion appends exactly the due jobs to the ready list, in the order of their due times. |
| `JobRuns.DelayedUntilDue` | packages/workers/src/queue.ts:89-147 | Whatever step comes next, a delayed job stays in the delayed set under its due time unless the step is a promotion or a dequeue of its type at or after that time. |
| `JobRuns.DequeueTakesFirst` | packages/workers/src/queue.ts:89-109 | A dequeue takes the head of the ready list or, with nothing ready, the delayed job due longest. |
| `JobRuns.RescueMeans` | packages/workers/src/queue.ts:186-214 | A scan makes each stale job it meets pending and ready from now on and leaves every other job's text alone. |
| `JobRuns.RescueCountsTheFreed` | packages/workers/src/queue.ts:186-214 | It reports how many jobs it freed. |
| `JobBounds.OutstandingWorkIsBounded` | packages/workers/src/queue.ts:27-39 | Over every run without crashes and dead-letter replays, ready, delayed and held jobs of a type never exceed `maxQueueDepth` plus one per worker. |
| `JobBounds.StepBounded` | packages/workers/src/queue.ts:27-147 | Every step keeps the general bound, which grows by one per crash and per dead-letter replay and not by failing jobs. |
| `JobBounds.StartsAreBounded` | packages/workers/src/queue.ts:89-147 | Over every run a job is handed to a worker at most `maxAttempts` times (once if zero) plus once per rescue. |
| `JobBounds.DeadHasUsedItsAttempts` | packages/workers/src/queue.ts:129-154 | Over every run, a job no step buried for want of a processor is dead only once it has used all its attempts. |
| `JobBounds.NoJobLostOrDuplicated` | packages/workers/src/queue.ts:27-214 | Over every run, every job ever accepted is still there and in exactly one place. |
| `JobBounds.RunKeepsSound` | packages/workers/src/queue.ts:27-214 | Conservation, both bounds and no accepted id ever forgotten, over whole runs. |
| `JobQueue.Queue.Enqueue` | packages/workers/src/queue.ts:27-69 | Refused exactly at capacity, with the depth; otherwise the fresh job is stored and goes to the end of the ready list if its time has come, else to the delayed set until then; nothing else moves. |
| `JobQueue.Queue.EnqueueDead` | packages/workers/src/queue.ts:71-87 | A fresh pending copy with attempts reset and one more dead retry, stored and at the end of the ready list. |
| `JobQueue.Queue.Dequeue` | packages/workers/src/queue.ts:89-109 | Promotes what is due if nothing is ready, then takes the head of the ready list, which is marked processing and answered unless its text has expired or says dead. |
| `JobQueue.Queue.PromoteDelayed` | packages/workers/src/queue.ts:111-121 | The loop moves every due member from the delayed set to the ready list. |
| `JobQueue.Queue.Complete` | packages/workers/src/queue.ts:123-127 | Stores the job completed. |
| `JobQueue.Queue.Fail` | packages/workers/src/queue.ts:129-147 | Counts the attempt and keeps the rest of the job; dead exactly if that was the last one, and then at the end of the dead list; otherwise pending, in the delayed set until now plus the delay; its text is stored, nothing else moves. |
| `JobQueue.Queue.DeadLetter` | packages/workers/src/queue.ts:149-154 | Stores the job dead and puts it at the end of the dead list. |
| `JobQueue.Queue.RemoveDead` | packages/workers/src/queue.ts:165-167 | Takes the id off the dead list. |
| `JobQueue.Queue.RescueStuckJobs` | packages/workers/src/queue.ts:186-214 | The scan puts back every stale processing job it meets, key by key, and counts them. |
| `MemoryStore.Store.Get` | packages/workers/src/store.memory.ts:32-35 | Answers a live value; an expired entry is deleted when met. |
| `MemoryStore.Store.SetNx` | packages/workers/src/store.memory.ts:41-45 | Sets exactly when no live entry exists. |
| `MemoryStore.Store.Incr` | packages/workers/src/store.memory.ts:47-52 | Counts on from a live number, else from one, and renews the expiry. |
| `MemoryStore.Store.LRem` | packages/workers/src/store.memory.ts:83-92 | Removes every occurrence and answers how many there were. |
| `Lists.WithoutKeepsOrder` | packages/workers/src/store.memory.ts:83-92 | What removing leaves keeps its order. |
| `MemoryStore.Store.ZRangeByScore` | packages/workers/src/store.memory.ts:109-116 | The members in range, sorted by score. |
| `MemoryStore.Rescored` | packages/workers/src/store.memory.ts:101-107 | Adding a member keeps the other members and their order; a new one goes last. |
| `MemoryStore.SortByScore` | packages/workers/src/store.memory.ts:112-115 | The sort keeps exactly the entries it was given. |
| `MemoryStore.SortIsStable` | packages/workers/src/store.memory.ts:112-115 | Entries of one score keep the order they had. |
| `JobRuns.SortedByScore` | packages/workers/src/store.memory.ts:112-115 | The sort leaves scores in order. |
| `RateLimiter.RateIsBounded` | packages/workers/src/rateLimit.ts:19-36 | Over every call history, any closed interval of `windowMs` contains at most `maxRequests` allowed calls of a scope. |
| `RateLimiter.AllowedExactlyWithinStreak` | packages/workers/src/rateLimit.ts:19-36 | A call is allowed if and only if at most `maxRequests` calls of its scope, itself and refused ones included, came without a pause longer than the window. |
| `RateLimiter.ZeroWindow` | packages/workers/src/rateLimit.ts:19-36 | With a window of zero, a scope called once starts afresh at the next moment; called twice in one moment, its counter is never forgotten. |
| `RateLimiter.Limiter.Limit` | packages/workers/src/rateLimit.ts:19-36 | The decision, the remaining count and the counter left behind; the weight changes only what is reported as remaining. |
| `WorkerKeys.OneRunnerAtATime` | packages/workers/src/worker.ts:99-131 | Over every interleaving at store-call level, with failing store calls and crashes, at most one worker runs a processor for a key at a time. |
| `WorkerKeys.SecondSuccessExactlyWhenReleased` | packages/workers/src/worker.ts:115-130 | Over every run, with any store calls failing and workers crashing: at some moment a second run of a key's processor can succeed if and only if the error handler has released the key of one that had. |
| `WorkerKeys.OneSuccessPerKey` | packages/workers/src/worker.ts:99-131 | Over every run without such a release, at most one run per key ever succeeds. |
| `WorkerKeys.ReleasedSucceedsTwice` | packages/workers/src/worker.ts:115-130 | Right after any such release, one further delivery can succeed again. |
| `WorkerKeys.FailedCompletionRunsTwice` | packages/workers/src/worker.ts:115-130 | Counterexample: when completing the job fails after its success was recorded, the key is released and a second run succeeds. |
| `WorkerKeys.FailedRecordAdmitsTwo` | packages/workers/src/idempotency.ts:18-44 | A fact of the interface, not of the worker, which never writes a failed record: after `fail` nobody claims the key and two callers run at once. |
| `WorkerKeys.MoveKeepsExclusive` | packages/workers/src/idempotency.ts:18-66 | Every move keeps at most one worker between claim and release, with the key taken. |
| `WorkerKeys.ProcessJob` | packages/workers/src/worker.ts:99-131 | One job handled alone: whether it runs and the store left behind. |
| `WorkerKeys.JobAfterwards` | packages/workers/src/worker.ts:99-131 | A job nobody can process is dead; one whose key is taken counts as completed without being run; one that ran is completed or counts one more attempt and waits or is dead. |
| `WorkerKeys.PlaceAfterwards` | packages/workers/src/worker.ts:99-131 | The job is then listed where that status belongs: nowhere if completed, last in the dead list, or delayed until its next attempt. |
| `WorkerKeys.KeyAfterwards` | packages/workers/src/worker.ts:106-131 | The key is completed after a run that ended well, free after one that failed, untouched if nothing ran; other keys are untouched. |
| `WorkerKeys.LaterDeliveryRuns` | packages/workers/src/worker.ts:99-131 | After a run, a later delivery of the key runs if and only if the run failed or the record has expired. |
| `WorkerKeys.IdempotencyStore.Claim` | packages/workers/src/idempotency.ts:18-44 | Alone: new exactly when no live record exists, and then the record is processing. |
| `KeywordGrammar.StoredPhraseIsReachable` | packages/database/src/keyword-grammar.ts:41-83 | No message that normalises to a stored non-universal phrase is classified universal, although the classifier reads another normal form. |
| `KeywordGrammar.ClassIsByWord` | packages/database/src/keyword-grammar.ts:33-83 | The class of a message is the one its universal form opens with a word of (Stop, Help, Join by first word; Yes and No whole), each word spelled out; no text opens with words of two classes, so the order of the checks does not matter. |
| `KeywordGrammar.ReservedNamesMeanTheirClass` | packages/database/src/keyword-grammar.ts:19-29 | STOP, HELP, YES, NO and START (as Join) mean their class in any letter case, with white space around and punctuation behind. |
| `KeywordGrammar.TypingDoesNotMatter` | packages/database/src/keyword-grammar.ts:55-67 | Letter case, white space around and punctuation behind a phrase do not change how it is classified. |
| `KeywordGrammar.DashesReadAsSpaces` | packages/database/src/keyword-grammar.ts:41-53 | To a configured phrase, dashes and underscores between its words read as spaces. |
| `KeywordGrammar.DashedWordIsNoKeyword` | packages/database/src/keyword-grammar.ts:60-67 | To the universal keywords they do not: a word with a dash behind it, as in "end-of-day report", is none of them. |
| `KeywordGrammar.UniversalInBothForms` | packages/database/src/keyword-grammar.ts:41-83 | Whatever is universal in the classifier's form is universal in the keyword form, unless that opens with a question mark. |
| `KeywordGrammar.UniversalMatchIsKeywordMatch` | packages/database/src/keyword-grammar.ts:51-71 | For every word pattern, a match of the universal form is a match of the keyword form. |
| `KeywordGrammar.PhraseIsFixpoint` | packages/database/src/keyword-grammar.ts:148-155 | A stored phrase is a fixpoint of both normal forms. |
| `KeywordGrammar.CollapseIsScan` | packages/database/src/keyword-grammar.ts:41-43 | Replacing runs of white space and trimming is one left-to-right scan. |
| `KeywordGrammar.ScanTwice` | packages/database/src/keyword-grammar.ts:41-67 | Collapsing before the dashes become spaces does not change the result of collapsing after. |
| `KeywordGrammar.CutMatch` | packages/database/src/keyword-grammar.ts:55-71 | Stripping leaves a phrase or a phrase and more words exactly when the phrase stands at the start and is followed by nothing, a space, or only punctuation. |
| `KeywordCommands.ValidateKeywordCommand` | packages/database/src/keyword-grammar.ts:148-221 | Accepts exactly the acceptable definitions and answers their canonical form. |
| `KeywordCommands.AcceptedExactly` | packages/database/src/keyword-grammar.ts:148-219 | A command that is no compliance keyword is accepted if and only if it has at most ten synonyms, its phrases are capital letters and digits with single spaces up to forty, none of them opens with a word the platform answers to, its texts fit, and a reply has a text if enabled and no workflow. |
| `KeywordCommands.TextIsTrimmed` | packages/database/src/keyword-grammar.ts:121-128 | A text is stored without the white space around it, and not at all when nothing is left. |
| `KeywordCommands.RewordingAcceptedExactly` | packages/database/src/keyword-grammar.ts:185-201 | A compliance keyword is accepted if and only if it is an enabled reply without synonyms, whose wording says STOP as a word for HELP, and START or JOIN for STOP. |
| `KeywordCommands.ValidationIsIdempotent` | packages/database/src/keyword-grammar.ts:148-221 | Submitting what was stored is accepted again and stores the same definition. |
| `KeywordDispatch.MatchKeywordCommand` | packages/routing/src/keywords.ts:139-154 | Answers the longest claimed phrase the message is or starts with, for the first command that claims it, and nothing exactly when there is none. |
| `KeywordDispatch.FirstClaimantIsFirst` | packages/routing/src/keywords.ts:139-154 | Of several commands claiming a phrase the first in the list gets it. |
| `KeywordDispatch.DispatchIsDeterministic` | packages/routing/src/keywords.ts:139-154 | When no phrase is claimed by two commands, any order of the commands gives the same answer. |
| `KeywordDispatch.PhraseAndArgumentReconstruct` | packages/routing/src/keywords.ts:156-161 | Phrase and argument give the collapsed message back, case aside; without an argument only punctuation follows. |
| `KeywordDispatch.StoredPhraseReachesItsCommand` | packages/routing/src/keywords.ts:181-203 | A message that normalises to a stored phrase is dispatched to that phrase's command: not to a universal keyword, not to a shorter phrase. |
| `KeywordDispatch.Understand` | packages/routing/src/keywords.ts:181-203 | A universal keyword means its class, each spelled out by its words, whatever is configured; anything else the configured match, which is never a reserved keyword, or nothing. |
| `KeywordCommandTable.KeywordCommandRepository.Upsert` | packages/simulation/src/db.ts:973-1004 | Stores exactly acceptable definitions that clash with nothing in force for the owner, in place of the row of the same key; a conflict names a phrase and the command claiming it. |
| `KeywordCommandTable.KeywordCommandRepository.Remove` | packages/simulation/src/db.ts:1005-1010 | Removes exactly the row of that key. |
| `KeywordCommandTable.MergeEffective` | packages/database/src/keyword-grammar.ts:242-247 | Exactly the enabled rows of the tenant and the enabled application rows it does not replace. |
| `KeywordCommandTable.OwnRowDecides` | packages/database/src/keyword-grammar.ts:242-247 | Of one keyword a tenant's own row decides: in force exactly if enabled, and then alone; without one the application's enabled row is. |
| `KeywordCommandTable.OthersDoNotMatter` | packages/database/src/keyword-grammar.ts:242-247 | No row of another application or tenant matters to what is in force. |
| `KeywordCommandTable.FindPhraseConflict` | packages/database/src/keyword-grammar.ts:254-265 | None exactly when no other command shares a phrase, else such a phrase. |
| `KeywordCommandTable.RunKeepsApplicationUnambiguous` | packages/simulation/src/db.ts:973-1010 | Over every sequence of upserts and removals, the enabled application-wide commands stay phrase-disjoint. |
| `KeywordCommandTable.TenantUpsertKeepsUnambiguous` | packages/simulation/src/db.ts:973-1004 | A tenant's own upsert keeps its merged commands phrase-disjoint. |
| `KeywordCommandTable.ApplicationUpsertAndTenant` | packages/simulation/src/db.ts:973-1004 | An application-wide upsert keeps a tenant's merged commands phrase-disjoint if and only if it is disabled, overridden by the tenant, or clashes with nothing in force there. |
| `KeywordCommandTable.RemovalAndTenant` | packages/simulation/src/db.ts:1005-1010 | A removal keeps them so if and only if it is not the tenant's own row, or the application row it uncovers clashes with nothing in force there. |
| `ConversationResolver.Resolve` | packages/routing/src/conversation-resolver.ts:205-334 | The answer follows the ownership rule: exactly one plausible owner is routed to its best thread; several are listed once each with a thread of their own, on this number if they have one there; none opens a conversation only on a number of one registered owner. |
| `ConversationResolver.RoutedThreadIsTheBest` | packages/routing/src/conversation-resolver.ts:221-266 | A message is routed only to a thread on its number (recorded there; or recording none and covered by a registration of its application, tenant and supplier; or on an unregistered number of its provider), recorded on this very number before any other, then the latest. |
| `ConversationResolver.ThreadIsNeverIgnored` | packages/routing/src/conversation-resolver.ts:221-334 | Every such thread counts: its owner is routed to or is among the candidates. |
| `ConversationResolver.OwnersComeFromTheNumber` | packages/routing/src/conversation-resolver.ts:205-334 | Nobody else is an owner: whoever is routed to or listed has such a thread, or there is none and they are registered on the number. |
| `ConversationResolver.OwnershipIgnoresOrderAndRecency` | packages/routing/src/conversation-resolver.ts:205-334 | Kind, routed owner and candidate owners are the same for any order of conversations and registrations and any activity times. |
| `ConversationResolver.RoutedExactlyWhenOneOwner` | packages/routing/src/conversation-resolver.ts:205-334 | Routed if and only if one owner is plausible, or none is and one is registered. |
| `MessageRouting.RouteMessage` | packages/routing/src/index.ts:529-657 | Refused exactly for an unacceptable policy, before anything is sent; a known opt-out sends nothing; else the requested channel's cascade decides, and only its exhaustion, with the caller's opt-in, leads to the fallback channels in the caller's order up to the first that sends or aborts; each answer has its cause. |
| `MessageRouting.ChannelIsNeverChangedSilently` | packages/routing/src/index.ts:529-657 | For every message: at most one attempt is reported delivered (one that timed out counts as failed, though it may have gone out), it is the last, and the stored event meets the check constraint and names its channel; attempts on another channel are at an address with a recorded opt-in, and come only after the caller's opt-in and the reported failure of every attempt on the requested one. |
| `MessageRouting.SendOnChannel` | packages/routing/src/index.ts:704-862 | The selected provider, then each time the best-ranked not asked yet, each after the failure of the one before, within the attempt cap; the last outcome is the answer; unavailable exactly when nobody was selected or no candidate or attempt is left. |
| `MessageRouting.FirstAsked` | packages/routing/src/index.ts:718-790 | First asked is the caller's provider if it can send on the channel; else, if the caller named none, the thread's; else the rule's; else one of the pool; somebody, if anybody can send. |
| `MessageRouting.NextAskedIsBestRanked` | packages/routing/src/index.ts:801-857 | Each further provider is the best-ranked not asked yet. |
| `MessageRouting.GivenUpAfterAllWereAsked` | packages/routing/src/index.ts:845-857 | A channel is given up only when the attempts are used up or everyone able to send on it was asked; without alternates, one was. |
| `MessageRouting.OptedOutIsSentNothing` | packages/routing/src/index.ts:556-578 | A recipient known to have opted out is sent nothing on any channel, except the confirmation of the opt-out. |
| `MessageRouting.OthersAreSentTo` | packages/routing/src/index.ts:556-605 | Anybody else, even when the lookup fails, is sent to if a provider of the channel can. |
| `MessageRouting.NoAgreedChannelIsPassedOver` | packages/routing/src/index.ts:609-656 | When a message was not sent, every channel the caller listed, whose opt-in is recorded and on which someone can send, was tried at its address. |
| `MessageRouting.AskedAreCapable` | packages/routing/src/index.ts:704-862 | Only providers of the channel are asked, none twice. |
| `MessageRouting.TryFallbacks` | packages/routing/src/index.ts:609-656 | The second loop: each listed channel in order is skipped without an address or consent, else given its own cascade; the first that sends or aborts is the answer. |
| `MessageRouting.WithoutAgreementNoChange` | packages/routing/src/index.ts:529-657 | Without the caller's opt-in, or any recorded opt-in, every attempt is on the requested channel to the recipient's address. |
| `MessageRouting.SelectProvider` | packages/routing/src/index.ts:718-790 | Whatever override, thread, rule or score says, the provider chosen can send on the channel; none is chosen only if nobody can. |
| `ChannelPolicy.ParseChannelPolicy` | packages/routing/src/channel.ts:183-234 | Accepts exactly well-formed policies and reads exactly what they say. |
| `ChannelPolicy.PolicyIsConservative` | packages/routing/src/channel.ts:242-255 | Whatever the request says: no other channel without its explicit opt-in, never the requested channel as its own fallback, none twice, consent always required, every fallback address fit for its channel. |
| `ChannelPolicy.CallersOrderIsKept` | packages/routing/src/channel.ts:242-255 | An opted-in caller's channels are used in the caller's order with the requested one left out, all others without a list; without the opt-in none. |
| `ChannelPolicy.AddressShapes` | packages/routing/src/channel.ts:67-74 | Which addresses suit a channel: an at sign for email only, the WhatsApp scheme for WhatsApp only, any other for both phone channels. |
| `ChannelPolicy.ChannelsByName` | packages/routing/src/channel.ts:107-125 | The three names name their channel in any letter case. |
| `ChannelPolicy.InferredChannel` | packages/routing/src/channel.ts:84-150 | Without a named channel the address decides, then the text; a forced provider only if it cannot send on what that gives and has a channel the address suits. |
| `ChannelPolicy.ExplicitRequestIsAuthoritative` | packages/routing/src/channel.ts:107-152 | An explicit channel is that channel or a refusal, whatever the text or the forced provider. |

## Left out

- User interfaces, HTTP, authentication, logging, metrics, Redis and Drizzle: I/O and foreign libraries; the in-memory stores stand for the durable ones, as the source says they do.
- SHA-256 and HMAC: a digest is any function; where a lemma needs it not to collide, it says on which inputs.
- Payloads, raw bodies, amounts, currencies, metadata, error texts and the wording of decision reasons: no modelled branch reads them; a fallback reason is one fixed text.
- Random ids, tokens and job ids: counters or parameters never used before. Random back-off and weighted choice: arbitrary parameters.
- Numbers in `CanonicalJson`: taken as the numerals they print as.
- Provider adapters, processors and `work` callbacks: oracles with the shape the source gives them; adapters report through `httpErrorOutcome` and `paymentFailureEvent`.
- The choice of the first provider and of the capable pool, and the circuit breaker: inputs of the cascades.
- ProviderCalls.ProcessRequest: does not model adapters that read a decline out of an HTTP error body; the status decides.
- PaymentSafety.SecondChargeExactlyWhenForgotten: other writers of the row are those in its steps; a caller of the generic `updateStatus` is only covered by `PaymentRowSafety`. What a crashed gateway had charged is arbitrary.
- WebhookDrivers.IngestWebhook: runs without interference; gateways, sweepers and fallback workers interleave in `WebhookIngest`.
- WebhookDrivers.EnqueueWebhookEventJobs: runs without interference, and its store calls do not fail; both are in `WebhookIngest`.
- WebhookDrivers.RecoverStrandedWebhookEvents: runs without interference, as above.
- WebhookDrivers.RunDurableWebhookConsumer: runs without interference; a claim lost during the work is in `WebhookConsumers`.
- WebhookConsumers.EffectsExactlyOnce: assumes every `work` writes through the single-statement write with a key fixed per event and consumer.
- JobRuns.StepKept: each queue method is one step, as with one process over the in-memory store; with two clients interleaving inside `promoteDelayed` or between `enqueue`'s depth check and its push, an id can be pushed twice and the depth exceeded by the number of producers. Job texts do not expire while a worker dequeues or rescues, except in `ExpiredJobIsDropped`.
- JobQueue.Queue.Enqueue: publish and subscribe notifications are not modelled, nor the timing of worker loops.
- MemoryStore.Store.Get: locks, subscriptions and `lrange` are not modelled; key strings are structured keys, since their tags differ.
- WorkerKeys.OneRunnerAtATime: the key's record does not expire while a worker is inside; one key is modelled, as no step touches two.
- RateLimiter.RateIsBounded: `reset` is not among the calls.
- KeywordGrammar.StoredPhraseIsReachable: text is ASCII; other white space and case mappings are not modelled.
- KeywordCommands.ValidateKeywordCommand: inputs have the types the interface names, and which field a refusal blames is not specified.
- KeywordCommandTable.MergeEffective: the order by `localeCompare` is not modelled, so the result is a set of rows.
- KeywordDispatch.Understand: the handlers' consent writes, audit events and reply wording are not modelled.
- ConversationResolver.Resolve: addresses arrive normalised, candidates are in order of first occurrence instead of `localeCompare` order, and the conversation opened for a first message is not described.
- ChannelPolicy.ParseChannelPolicy: which field a refusal blames is not specified.
- MessageRouting.RouteMessage: availability does not change during one call, and a failure to record the conversation after a delivery is not modelled.
- CRM, subscriptions, tenant and application registries, sessions, login and reset flows: short guard chains that would add only easy members.
