# Gateway protection and fee collection, verified

A model of the two stateful protocols of the API gateway and proofs about all of their runs.

**Protection.** Every forwarded request passes `ProtectionService.Before` (limiter, idempotency cache, transaction guard,
circuit breaker) and, once downstream has answered, `ProtectionService.After` (breaker, cache). The model has three layers:

1. *Stores.* Each store is a pure step function on one key's state (`TokenBucket`, `TransactionGuard`, `IdempotencyCache`,
   `CircuitBreaker`) whose runs are compared with a plain statement about the whole history of calls, and a class with the
   store's own fields, updated in place (`RateLimiter`, `GuardStore`, `IdempotencyStore`, `BreakerStore`), whose methods are
   proved to do exactly that step.
2. *Service.* `Protection` composes the steps; `ProtectionService.Service` runs them on the four live stores, and
   `Routing.ForwardRequest` brackets the downstream outcome as the handler does.
3. *Interleaving.* `Gateway` lets any number of requests take their atomic store steps in any order, with time passing and
   cleanups in between. `ExactlyOnce`, `LateDeletes`, `ForwardedLimits`, `ProbeOwner` and `Replays` are invariants of all its
   runs, as are `ReplaysGiven` and `CircuitHistory`; `Repeats` has the runs that show where exactly-once ends; `Sequential`
   shows that a request run alone is what the service computes.

**Fees.** `Fees` has rounding, the bank (idempotent per key, replies may be lost) and the record a charge or retry produces;
`FeeTable` the table with its queries; `FeeService` the service on a live table and bank; `FeeSystem` the interleaving of
charges, the retry worker and manual retries with stale copies and no locks. `FeeLedger` (conservation, row shapes),
`FeeQueue` (no starvation), `FeeFinality` (when an outcome is final) and `FeeWorker` (bounded retries) are about all its runs.

Time is whole nanoseconds. Tokens are held exactly, in units of 1/(60·10^9) token, so that a bucket of `limit` tokens a minute
gains `limit` units per nanosecond and a request costs 60·10^9. "Ordered times" are assumed only where a row below says so.

Where the code does not do what its documentation or a first reading promises, the code is followed and the exact condition is
proved: fees round half up, not up (`Fees.RoundsUpIff`); the cache key is ambiguous as soon as a part holds a colon
(`Keys.CacheKeyUnambiguousIff`); the cooldown's Retry-After can fall short (`RetryAfter.CooldownHeaderSufficesIff`); a request
slower than the cooldown, or a lookup's late delete, lets a transaction repeat (`Repeats.ExactlyOnceIff`,
`Repeats.LateDeletesHarmlessIff`); a probe that cannot be built wedges its circuit (`ProbeOwner.HalfOpenForeverIff`,
`ProbeOwner.ProbeWedgesIffUnbuildable`); a date that another interrupts restarts the daily counter
(`TransactionGuard.DailyLimitHoldsIff`); a manual retry or a stale copy can undo SUCCESS (`FeeFinality.SuccessStaysIff`); a
reused request id can make the table and the bank disagree (`FeeLedger.RowsTrueIff`); an open circuit need not date from its last
failure (`CircuitBreaker.OpenedAtLastFailureIff`).

## Model

| member | source | states |
|---|---|---|
| `TokenBucket.AdmittedExactlyWithinEveryWindow` | internal/store/rate_limiter.go:32-58 | Call k is admitted if and only if, in every window ending at it, the admissions including it are at most limit/60 a second for the window plus limit for the burst, in plain nanoseconds; for any order of `now` values, windows being measured in the latest `now` seen |
| `TokenBucket.ReachedWhenOrdered` | internal/store/rate_limiter.go:43-50 | With ordered times that measure is the call's own time |
| `TokenBucket.MostPermissive` | internal/store/rate_limiter.go:32-58 | The limiter meets the burst-plus-rate bound on every window, and no list of verdicts that meets it has admitted more calls by any point of the run |
| `TokenBucket.LevelIsLeastHeadroom` | internal/store/rate_limiter.go:43-55 | The lazily refilled counter is the least headroom over all windows ending at the call, and some window attains it |
| `TokenBucket.RefillComposes` | internal/store/rate_limiter.go:43-50 | Refilling to t1 and then t2 is refilling to t2, clamping included |
| `TokenBucket.DeniedCallsLeaveNoTrace` | internal/store/rate_limiter.go:43-58 | With ordered times, the admitted calls of a run, replayed without the denied ones, are all admitted and leave a bucket no later call can tell apart |
| `TokenBucket.SwitchedOff` | internal/store/rate_limiter.go:25-27 | In every run a call with a non-positive limit is admitted and leaves the bucket as it was, or absent |
| `RateLimiter.BucketObject.Take` | internal/store/rate_limiter.go:43-58 | Refill, clamp and take in place are the refill and take of the specification; a denial reports its wait |
| `RateLimiter.RateLimiterStore.Allow` | internal/store/rate_limiter.go:24-59 | The live store's answer and new state are the specification's for that key, every other key untouched; a non-positive limit admits and changes nothing |
| `TransactionGuard.AdmittedExactly` | internal/store/transaction_guard.go:31-56 | For any order of times and dates, a call is admitted if and only if it is at least the cooldown after every earlier admission and fewer than the configured limit (10 if none) were admitted in the unbroken stretch of its date |
| `TransactionGuard.AdmittedExactlyPerDate` | internal/store/transaction_guard.go:37-56 | When no call of another date falls between two calls of one date, the stretch is the whole date: the counter is the number admitted that day |
| `TransactionGuard.AdmissionsAreSpaced` | internal/store/transaction_guard.go:43-55 | Two admissions of a user are at least the cooldown apart even when `now` values arrive out of order |
| `TransactionGuard.DailyLimitHolds` | internal/store/transaction_guard.go:50-55 | With dates unbroken in that sense no date sees more admissions than the configured limit, or 10 if none |
| `TransactionGuard.DailyLimitHoldsIff` | internal/store/transaction_guard.go:37-55 | For every cooldown and pattern of dates: all runs with those dates, at any times and under any limit, keep every date within the limit if and only if the pattern is unbroken |
| `TransactionGuard.LateDateRestartsCounter` | internal/store/transaction_guard.go:37-41 | A concrete run: a denied call dated the day before restarts the counter, and the day exceeds its limit |
| `TransactionGuard.EffectiveLimit` | internal/store/transaction_guard.go:24-26 | The limit in force is the configured one if positive, and 10 otherwise |
| `GuardStore.UserRecord.Judge` | internal/store/transaction_guard.go:37-56 | The record's three fields, updated in place, and the verdict with its wait follow the specification |
| `GuardStore.TransactionGuardStore.Allow` | internal/store/transaction_guard.go:23-57 | The live store's verdict and new state are the specification's for that user, every other user untouched |
| `IdempotencyCache.CacheRefinesLog` | internal/store/idempotency.go:26-71 | Wherever lazy deletions and cleanups fell at times up to now, a lookup answers the last response ever stored under the key if it has not expired, and nothing otherwise |
| `IdempotencyCache.CleanupLeavesUnexpired` | internal/store/idempotency.go:63-71 | After a cleanup a key is there exactly if the response last stored under it in the whole log has not expired, and holds that response |
| `IdempotencyCache.LookupLeavesUnexpired` | internal/store/idempotency.go:33-39 | After a lookup the same holds of its key, and every other key is as it was |
| `IdempotencyCache.DeleteHarmlessIffStillExpired` | internal/store/idempotency.go:33-37 | The lookup's second, unchecked locked delete changes no later lookup if and only if the entry it removes is absent or expired by then |
| `IdempotencyStore.Store.Get` | internal/store/idempotency.go:26-40 | With nobody between read and delete: the entry exactly if it has not expired, and then nothing changes; otherwise nothing is answered and the key is gone |
| `IdempotencyStore.Store.Set` | internal/store/idempotency.go:42-46 | Exactly the key's entry is replaced |
| `IdempotencyStore.Store.Cleanup` | internal/store/idempotency.go:63-71 | The deleting loop, in any order over the keys, leaves exactly the unexpired entries, unchanged |
| `CircuitBreaker.ClosedIffNoThreeLast` | internal/store/circuit_breaker.go:31-94 | In every history, times in any order: a circuit is CLOSED if and only if, since the last success, there were fewer than 5 failures and no timeout was recorded while two earlier ones still lasted, each of them until one 30 s or more later was recorded |
| `CircuitBreaker.ClosedIffHistoryIsQuiet` | internal/store/circuit_breaker.go:31-94 | With timeouts recorded in order that means no three timeouts within a span under 30 s |
| `CircuitBreaker.AfterIsSuffix` | internal/store/circuit_breaker.go:79-86 | Compaction keeps exactly the suffix of timeouts after the cutoff, in order |
| `CircuitBreaker.PrunedListDetectsThree` | internal/store/circuit_breaker.go:78-89 | Nothing the pruning forgot was needed, whatever the order of times: the pruned list reaches three exactly when two earlier timeouts of the whole history still last at the new one |
| `CircuitBreaker.HalfOpenIffProbing` | internal/store/circuit_breaker.go:35-50 | In every history HALF_OPEN holds exactly when the probe flag is set |
| `CircuitBreaker.AdmitsIff` | internal/store/circuit_breaker.go:31-51 | In every history a call is let through if and only if the circuit is closed, or open and the window since its opening is over |
| `CircuitBreaker.CountersAndOpening` | internal/store/circuit_breaker.go:65-94 | In every history and state, count and list are those of the failures since the last success that no probe reported, and a circuit not closed has opened at the time of the last failure that opened it: a probe's, or one with which five are counted or the pruned list holds three |
| `CircuitBreaker.OpenedNowRefuses` | internal/store/circuit_breaker.go:89-93 | A failure that finds the circuit closed or half-open and leaves it open dates it, and calls are refused exactly until that time plus the window |
| `CircuitBreaker.OpenedAtLastFailureIff` | internal/store/circuit_breaker.go:77-93 | An open circuit dates from the last failure if that one opened it and, unless an earlier failure bears the same time, only then |
| `CircuitBreaker.LateTimeoutKeepsOpening` | internal/store/circuit_breaker.go:78-93 | A run in which it does not: a fourth timeout 40 s after three that opened the circuit leaves the opening where it was |
| `CircuitBreaker.ProbeBudget` | internal/store/circuit_breaker.go:31-94 | In every history, if a failure at t0 takes the circuit out of CLOSED or HALF_OPEN and no success follows, calls let through up to t number at most (t - t0) / openWindow, late failures in any state included |
| `BreakerStore.BreakerObject.Allow` | internal/store/circuit_breaker.go:35-50 | Answer and in-place state change follow the specification |
| `BreakerStore.BreakerObject.RecordSuccess` | internal/store/circuit_breaker.go:57-62 | Every state goes back to the fresh closed breaker |
| `BreakerStore.BreakerObject.RecordFailure` | internal/store/circuit_breaker.go:69-93 | The three-state transition with compaction and append follows the specification |
| `BreakerStore.BreakerObject.Compact` | internal/store/circuit_breaker.go:79-85 | The loop that writes into the slice it reads leaves the timeouts after the cutoff, in order |
| `BreakerStore.BreakerObject.Append` | internal/store/circuit_breaker.go:86 | The list gains the new timeout at its end, growing the buffer when full |
| `BreakerStore.CircuitBreakerStore.GetLocked` | internal/store/circuit_breaker.go:96-103 | A missing circuit is created closed, an existing one returned; no other service changes |
| `BreakerStore.CircuitBreakerStore.Allow` | internal/store/circuit_breaker.go:31-51 | On the live map, only the named service's circuit moves, as specified |
| `BreakerStore.CircuitBreakerStore.RecordSuccess` | internal/store/circuit_breaker.go:53-63 | On the live map, only the named service's circuit closes |
| `BreakerStore.CircuitBreakerStore.RecordFailure` | internal/store/circuit_breaker.go:65-94 | On the live map, only the named service's circuit hears the failure |
| `Protection.Config.Cooldown` | internal/service/protection.go:133-139 | The configured seconds if positive, otherwise 10 s; so at least a second |
| `Protection.Config.IdempotencyTTL` | internal/service/protection.go:141-147 | The configured hours if positive, otherwise 24 h; so at least an hour |
| `Protection.Config.OpenWindow` | internal/service/protection.go:149-155 | The configured seconds if positive, otherwise 60 s; so at least a second |
| `Admission.ForwardedIff` | internal/service/protection.go:49-113 | A request is forwarded if and only if each store it meets, asked alone in the state before, would admit it; a transactional one also needs a key and an unanswered lookup |
| `Admission.RateLimitedIff` | internal/service/protection.go:54-65 | A request is rate limited, with the limiter's wait, exactly when its user and class's bucket refuses it under the limit of its class |
| `Admission.CacheAnswersIff` | internal/service/protection.go:68-89 | A transactional request past the limiter is refused for want of a key exactly if it has none, replayed exactly the unexpired response found if its body digest is the same, and refused as a conflict exactly if it differs |
| `Admission.GuardDeniedIff` | internal/service/protection.go:91-98 | The guard refuses exactly unanswered transactions it would not admit; the wait is what is left of the cooldown, or an hour when the day is full |
| `Admission.CircuitOpenIff` | internal/service/protection.go:104-110 | The circuit refuses exactly what all other stores admit and it would not |
| `Admission.ReadsMeetNoGuard` | internal/service/protection.go:67-112 | Without the transactional flag neither cache nor guard is met or changed |
| `Admission.StoppedLeavesRestAlone` | internal/service/protection.go:58-98 | A refusal or replay changes no store behind the one that stopped the request |
| `Admission.CircuitRefusalUsesSlot` | internal/service/protection.go:91-110 | A transaction refused by the circuit has taken a daily slot and started the cooldown exactly as a forwarded one |
| `ProtectionService.Service.Before` | internal/service/protection.go:49-113 | On the four live stores, decision and new state are those of the composed specification |
| `ProtectionService.Service.After` | internal/service/protection.go:115-131 | On the live stores, the new state is that of the composed specification; only a replay changes nothing |
| `CircuitHistory.AfterTells` | internal/service/protection.go:120-130 | After a forwarded request its circuit has heard a failure exactly for a timeout, a transport failure or a status of 500 or more, with that timeout flag, and otherwise a success; exactly a transactional 2xx with a key is stored, until now plus the TTL; nothing else changes |
| `CircuitHistory.CircuitIsItsHistory` | internal/store/circuit_breaker.go:31-94 | In every interleaving a service's circuit is what its own events, requests and reported outcomes in the order it heard them, make of a fresh one |
| `CircuitHistory.LetThroughIff` | internal/service/protection.go:104-110 | So in every interleaving a request is let through if and only if the circuit heard fewer than five failures and no timeout while two earlier ones lasted since the last success, or has been open for the window |
| `CircuitHistory.LetThroughWithinBudget` | internal/service/protection.go:104-124 | And after a report at t0 that opens the circuit at most (t - t0) / openWindow requests are let through up to t, while it hears no success and hears in the order of times |
| `Keys.LimiterKeyIsInjective` | internal/service/protection.go:58 | For the classes read and transactional the limiter key determines user and class |
| `Keys.CacheKeyIsInjective` | internal/service/protection.go:165-168 | With no colon in method, path and user, the key determines all four parts |
| `Keys.CacheKeyUnambiguousIff` | internal/service/protection.go:165-168 | A request's cache key is its own if and only if none of its four parts holds a colon |
| `ExactlyOnce.SameKeyIff` | internal/service/protection.go:78 | Two requests without a colon in method, path and user share a cache key if and only if they agree in method, path, user and header |
| `RetryAfter.LimiterHeaderIsSufficientAndTight` | internal/service/protection.go:157-163 | After a limiter denial a lone retry is admitted exactly from the shortest wait on; the printed whole seconds reach it and exceed it by at most one second |
| `RetryAfter.CooldownHeaderSufficesIff` | internal/service/protection.go:157-163 | A call inside the cooldown is denied, and a retry after the printed wait clears it if and only if what was left was under a second or whole seconds |
| `RetryAfter.CooldownHeaderFallsShort` | internal/service/protection.go:157-163 | With 1.5 s left, 1 s is printed, and the retry is denied again |
| `KeyedStore.KeysAreIsolated` | internal/store/rate_limiter.go:32-41 | For any keyed store, a key's answers and final state in an interleaved run are those of its own calls alone |
| `Isolation.CallersDoNotShareTokens` | internal/store/rate_limiter.go:24-59 | In any interleaved run a user and route class gets the limiter verdicts of its own calls alone |
| `Isolation.UsersDoNotShareGuards` | internal/store/transaction_guard.go:31-35 | Likewise the guard, per user |
| `Isolation.ServicesDoNotShareBreakers` | internal/store/circuit_breaker.go:96-103 | Likewise the breaker, per service |
| `Routing.ForwardRequest` | internal/handler/routing.go:146-234 | The handler, on the live service, ends in the state and answer of `Handle`; a request that cannot be built returns without `After` |
| `Routing.FailureHeardIff` | internal/handler/routing.go:176-233 | The breaker hears a failure if and only if there was a timeout, a broken exchange, a 5xx, any status outside 2xx in envelope mode, or a transactional 2xx whose fee was neither charged nor deferred |
| `CircuitHistory.ReportIsEventOf` | internal/handler/routing.go:176-233 | Each downstream outcome is heard as its own event: only a timeout as a timeout |
| `Routing.ClientGets` | internal/handler/routing.go:176-234 | Which flag `After` gets for each outcome, and what the client gets: 502 for an exchange that came to nothing, otherwise the reply's status with the body composed with the fee, enveloped, or as it came with its own headers |
| `Routing.StoredIff` | internal/handler/routing.go:203-214 | What is stored for replay are exactly the transactional successes whose fee was charged or deferred, with their status and composed body |
| `Routing.CachedAnswerTouchesOnlyLimiter` | internal/service/protection.go:78-89 | A replay or conflict changes nothing but the limiter, and nothing at all with the limiter off |
| `Routing.ReplaysAreInvisible` | internal/handler/routing.go:155-158 | With the limiter off, deleting every request answered from the cache leaves all other answers and the final state unchanged |
| `Sequential.AloneIsHandled` | internal/handler/routing.go:146-234 | A request whose atomic steps nobody interrupts takes the stores where `Handle` takes them and gets its answer |
| `Repeats.ExactlyOnceIff` | internal/service/protection.go:68-131 | For every configuration and bound: all interleavings that store in under the bound after arrival and whose lookups delete only expired entries keep two responses stored for one method, path, user and key more than a TTL apart, if and only if the bound is at most the cooldown |
| `ExactlyOnce.ExactlyOncePerTTL` | internal/handler/routing.go:146-213 | The sufficient half, as an invariant of cache coverage, guard times and requests under way |
| `ExactlyOnce.InvariantHolds` | internal/store/transaction_guard.go:43-56 | That invariant holds along every such run |
| `Repeats.LateDeletesHarmlessIff` | internal/store/idempotency.go:33-37 | Likewise when lookups may delete fresh entries too: if and only if nothing can be stored (no positive bound) or the cooldown outlasts bound and TTL together |
| `LateDeletes.GuardAloneSuffices` | internal/store/transaction_guard.go:43-56 | In that case the guard by itself keeps any two responses stored for one user more than a TTL apart |
| `Repeats.LateDeleteRepeatsTransaction` | internal/store/idempotency.go:33-37 | For every configuration with a shorter cooldown, a run in which a stale lookup deletes a fresh entry and the transaction is stored again within the TTL |
| `Repeats.SlowRequestRepeatsTransaction` | internal/store/transaction_guard.go:43-48 | For every configuration and bound above its cooldown, a run in which a request outlives the cooldown and the transaction is stored twice at one instant |
| `ForwardedLimits.ForwardedAreSpaced` | internal/service/protection.go:91-110 | In every interleaving two forwarded transactions of a user arrived at least the cooldown apart |
| `ForwardedLimits.ToldForever` | internal/service/protection.go:91-98 | In every interleaving a user's guard is where the user's own guard calls, in the order they were made, take the specification, and those past it are exactly those it admits |
| `ForwardedLimits.ForwardedWithinDailyLimit` | internal/service/protection.go:91-110 | In every interleaving in which the dates of a user's guard calls are unbroken, those forwarded on a date plus those the circuit refused are at most the daily limit |
| `ProbeOwner.HalfOpenHasOwner` | internal/handler/routing.go:147-234 | In every reachable state a circuit is HALF_OPEN exactly when its probe is out, and then the request that took it either has still to report or could not be built |
| `ProbeOwner.OwnerSettles` | internal/service/protection.go:120-124 | In every run in which an owner that can be built makes its remaining moves (two, or one if already reporting), whatever others do in between, there is a moment at which the circuit is not HALF_OPEN |
| `ProbeOwner.HalfOpenForeverIff` | internal/store/circuit_breaker.go:35-50 | A HALF_OPEN circuit stays so in every continuation if and only if no request under way will report to it |
| `ProbeOwner.WedgedForever` | internal/store/circuit_breaker.go:44-47 | It then refuses every request in every continuation |
| `ProbeOwner.ProbeWedgesIffUnbuildable` | internal/handler/routing.go:168-172 | When nobody else will report, a request that takes the probe leaves the circuit HALF_OPEN in every continuation if and only if its downstream request cannot be built |
| `Replays.ReplayRepeatsEarlierSuccess` | internal/service/protection.go:78-89 | In every run a replay has the status, headers and body that an earlier request with the same cache key (without colons: the same method, path, user and key) and body was answered with, and that was a success |
| `ReplaysGiven.RepetitionIsAnswered` | internal/service/protection.go:80-89 | In every interleaving that stores in under a bound of at most the cooldown and deletes only expired entries: a request that looks while a response for its method, path, user and key is stored and unexpired gets that response if the body is the same, and a conflict if not |
| `Fees.FeeIsNearestHalfUp` | internal/service/fee.go:35-37 | The fee is the one integer within half a unit of amount times rate, ties upward |
| `Fees.FeeIsMonotone` | internal/service/fee.go:35-37 | For a non-negative rate a larger amount never has a smaller fee |
| `Fees.DefaultFee` | internal/service/fee.go:35-37 | At the default rate the fee is (amount + 100) div 200, rounding toward minus infinity |
| `Fees.TotalErrorIsBounded` | internal/service/fee.go:35-37 | For any list of n amounts the summed fees differ from rate times the summed amounts by at most n/2 |
| `Fees.RoundsUpIff` | DOKUMENTASI_AKHIR.md:12 | The fee is the exact fee rounded up, as documented there, if and only if the exact fee is whole or its fraction is at least a half |
| `Fees.RetryDelayQuadruples` | internal/service/fee.go:191-206 | The delay starts at 30 s, quadruples with each of the next three failures, is two hours from the fifth on, and never shrinks |
| `Fees.FailedRetryWaits` | internal/service/fee.go:106-117 | A retry that fails at t counts one more, keeps the billing, and either is the last and FAILED or waits exactly the listed delay from t |
| `Fees.SettledRetryRefers` | internal/service/fee.go:124-127 | A settled retry takes the bank's reference, or one made from the request id, and waits for nothing |
| `Fees.ChargedStartsRight` | internal/service/fee.go:64-93 | A deferred charge waits 30 s from now with none of 5 retries counted, a settled one has its reference |
| `Fees.BillingNamesCharge` | internal/service/fee.go:63-71 | A charge bills the asking user the nearest fee, and names amount, rate, request id and a non-empty application |
| `FeeTable.DueListExists` | internal/repository/fee_repo.go:181-191 | The ordered, limited due query, stated as a relation, has an answer for every table |
| `FeeLedger.RowsKeepShapeAndBilling` | internal/repository/fee_repo.go:159-174 | Under stale concurrent writes and manual retries: SUCCESS has a reference, no next retry, no error; PENDING a next retry, an error and retries left; FAILED no next retry, an error and none left; rows never vanish and billing columns never change |
| `FeeLedger.MoneyIsConserved` | internal/service/fee.go:57-132 | In every interleaving with lost replies in which each request id stands for one debit: a row of any status whose key is debited was debited for exactly its fee from its user, SUCCESS rows are, no earlier debit was changed or undone, and money debited is reported revenue plus the unsettled rest; so revenue never exceeds it unless a debit is negative |
| `FeeLedger.DebitsAreNearestFees` | internal/service/fee.go:63-76 | If charges reckon their fees, every debit a row speaks of is from that row's user and the one whole number nearest to its rate times its amount |
| `FeeLedger.RowsTrueIff` | internal/service/fee.go:172-181 | For every set of charges: all runs that make only these keep every row and the ledger in agreement if and only if no two of them give one request id different users or fees |
| `FeeLedger.ReusedIdReportsSecond` | internal/middleware/request_id.go:13-24 | For any two charges under one client-supplied id, the first record lost: the first fee is debited, the second reported as revenue, and row and ledger agree if and only if both name the same debit |
| `FeeQueue.NoStarvation` | internal/service/fee.go:153-165 | A due fee with r fees ahead of it is attempted within r div 20 + 1 worker runs, whatever charges, failures and manual retries of other fees come in between |
| `FeeWorker.FiveAttemptsOverTwoHours` | internal/service/fee.go:104-131 | Without manual retries and with writes that succeed, every fee is attempted at most 5 times and becomes FAILED no earlier than 9750 s after it was deferred; a pending one waits at least the backoff due |
| `FeeFinality.SuccessStaysIff` | internal/handler/fee.go:68-78 | Under failed and stale writes and manual retries of other fees, a SUCCESS row stays SUCCESS in every continuation without a new manual retry of it if and only if no retry under way and no place in the worker's queue holds a copy of it, except retries already settled |
| `FeeFinality.TerminalIsFinal` | internal/repository/fee_repo.go:159-191 | A SUCCESS or FAILED row nobody holds a copy of is neither attempted by the worker nor changed in any continuation without a manual retry of it |
| `FeeFinality.StaleCopyInReach` | internal/service/fee.go:153-165 | For every fee a run in which it is listed as PENDING and settled by hand while the worker still holds the old copy |
| `FeeWorker.WorkerNeverHoldsTerminal` | internal/repository/fee_repo.go:186-191 | In every run without manual retries whose writes succeed, nobody holds a copy of a SUCCESS or FAILED row |
| `FeeWorker.BudgetFalls` | internal/service/fee.go:104-131 | Every worker attempt lowers the retries left over all pending rows, a failed one by exactly one; a charge raises them by 5 exactly when it inserts a PENDING row; they are never negative |
| `FeeService.SmartBank.ChargeFee` | internal/service/fee.go:172-188 | The assumed bank: a key is debited by the first call that reaches it, and the reply may be lost |
| `FeeService.Repository.Create` | internal/repository/fee_repo.go:47-73 | One new row under the next id, unless the database fails or the request id is taken; then nothing |
| `FeeService.Repository.UpdateRetryState` | internal/repository/fee_repo.go:159-174 | Exactly the five retry columns of the row are overwritten |
| `FeeService.Service.Charge` | internal/service/fee.go:57-102 | For the one whole number n nearest to rate times amount: unless the bank declines or the key is debited already, the user is debited n under "fee-" and the request id, and nobody else anything; the one new row and the result carry n, unless the write fails or the id is taken; a missing amount charges nothing |
| `FeeService.Service.Retry` | internal/service/fee.go:104-132 | The copy's user is debited the copy's fee under its key, once; the row's retry columns become those of the retried copy, whatever its status, unless the write fails |
| `FeeService.Service.RetryDue` | internal/service/fee.go:153-165 | The loop retries every listed fee once, in order, and a failure stops none of the rest |
| `FeeService.WorkerAloneIsRetryDue` | internal/service/fee.go:153-165 | The interleaving system's worker steps, with nobody in between, take table and ledger where `RetryDue` takes them |
| `FeeService.ChargeAloneIsCharge` | internal/service/fee.go:57-102 | Likewise the steps of a charge and `Charge` |
| `FeeService.ManualRetryAloneIsRetry` | internal/handler/fee.go:68-78 | Likewise the steps of a manual retry and `Retry` |

## Left out

- Repeats.ExactlyOnceIff: for methods, paths and users without a colon, which keep cache keys apart (`Keys.CacheKeyUnambiguousIff`). The code enforces neither that responses are stored within the cooldown nor that lookups delete only expired entries; both conditions are exact, here and in `Repeats.LateDeletesHarmlessIff`.
- IdempotencyStore.Store.Get: read and delete are one call of the class; the gap between the two locks is in `Gateway`, where any other step may fall into it.
- ForwardedLimits.ForwardedWithinDailyLimit: needs the dates of a user's guard calls to be unbroken, the pattern that `TransactionGuard.DailyLimitHoldsIff` shows necessary.
- FeeLedger.MoneyIsConserved: needs every request id to stand for one debit, which `FeeLedger.RowsTrueIff` shows necessary. Ids the gateway makes are fresh; a client may send its own.
- FeeQueue.NoStarvation: assumes that the worker's writes succeed and that nobody retries the waiting fee itself by hand, which is an attempt and re-dates the fee.
- FeeService.SmartBank.ChargeFee: the bank is outside this code; idempotency per key is what the gateway relies on. Its debit and the caller's hearing of the reply are one step.
- Fees.FeeIsNearestHalfUp: over exact reals; IEEE rounding and the conversion to a 64-bit integer are not part of the model. The same holds of the limiter's float64 tokens.
- SHA-256 is taken to be injective, so a digest is represented by what it digests.
- Calendar dates come in beside `now` as integers; time zones, daylight saving and the range of the time type are not modelled. An absent time is an Option.
- The downstream call is an outcome, and whether its request can be constructed is a flag of the request. HTTP transport, header copying and trimming, JSON encoding, the query string, the hop limit and the reading of the transaction amount from a body are not modelled; panics are excluded.
- A nil protection service, repository or bank client, and the constructor's cleanup goroutine: tickers are steps that may happen at any time.
- The due query is a relation with ties in any order; its answer is an argument of `RetryDue`. SQL text, AUTO_INCREMENT gaps, column widths, DATETIME rounding and pagination are not modelled, and of the summary only revenue.
- Authentication, scopes, console sessions, request logs, dashboards and configuration loading.
