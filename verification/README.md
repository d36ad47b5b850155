# OmniHub gateway: a verified model of its core

OmniHub is an AI gateway. This project models, in Dafny, the parts of it where mistakes are
easy to make and hard to see: state shared between goroutines, money, nested retries, and a
protocol translation that must be reversible. Each module follows one source file or one
component. Classes and loops stand where the source has them; each is tied to a
specification function, and what the source promises is proved about that function.

Concurrent behaviour is a transition function over one lock-protected region (or one database
statement) at a time. A disabled step changes nothing, so every list of steps is a run, and
the theorems quantify over all lists: `WriteBufferRuns`, `WriteBufferProgress`, `BillingRuns`,
`BalanceCacheRuns` and `ConcurrencyRuns`. A wallet takes two statements to read, and other steps
may come between them. `ProberRuns` ranges over all lists of passes. Elsewhere the outside world
is an oracle: a function or a list with no constraint on its answers. The steps of one call that
nothing disturbs are the sequential operation (`WriteBufferAlone`, `BillingRuns.AloneIsCharge`).

| module | what it models |
|---|---|
| `WriteBuffer`, `WriteBufferRuns`, `WriteBufferAlone`, `WriteBufferProgress` | the batched write queue, its timers, flushes and shutdown |
| `Breaker`, `Tracker` | the circuit breaker as a fold over history, and the registry |
| `Prober`, `ProberRuns` | the de-bouncing prober, pass by pass, and how it composes with the breaker |
| `Billing`, `BillingRuns` | plan credit, wallet overage, the ledger, interleaved charges |
| `BalanceCache`, `BalanceCacheRuns` | the stale-while-revalidate balance and spend caches |
| `ChargeBilling` | how a charge, the stored row and the cached balances fit together |
| `Endpoints`, `Failover` | endpoint failover inside an account, nested in the retry loop over accounts |
| `Concurrency`, `ConcurrencyRuns` | in-flight slots per account |
| `ChatMessages`, `ChatRoundTrip`, `ChatRequest` | OpenAI chat requests to the internal form and back |
| `Responses` | turning a Responses event stream back into one body |
| `TokenBucket` | the per-IP tokens-per-minute bucket |

## What the proofs say about the code

Where a promise does not hold on every input, the code is kept as it is; a lemma gives an
input on which it fails, and another says exactly when it holds.

* `MaxPending` is documented to cap the queue. It does throughout a run exactly when no failed
  batch of the run goes back to a queue without room for it (`MaxPendingCapsIff`), in
  particular while the sink accepts. The bound that always holds is `maxPending + batchSize`,
  and every configuration reaches it (`BoundIsReached`).
* A charge that the admission gate covers is refused in exactly one situation: the credit
  covers it, but rounding the remainder to six decimals leaves a positive rest that the
  wallet may not or cannot pay (`GateAgreesWithCharge`, `RoundingRefusalHappens`). Amounts on
  the six-decimal grid are never affected.
* `Result` is documented as `BilledUSD == PlanUSD + WalletUSD`
  (internal/service/billing/billing.go:27-31). A payg charge keeps it. A plan charge keeps it
  exactly when nothing is billed, no credit is left, credit falls short by more than the
  tolerance, or credit covers an amount that is on the six-decimal grid or is rounded down by
  more than the tolerance (`SplitIsExactIff`, `UnevenSplitHappens`).
* A wallet share is folded into the cached balances as computed and stored at six decimals. A
  cached payg balance therefore stays as right as it was exactly when that share is on the
  grid, and otherwise moves off by at most half a micro-dollar (`PaygFoldIsExactIff`,
  `PaygFoldIsClose`, `OffGridFoldMisses`).
* Credit consumed by a plan charge that is then refused reaches the ledger but not the cached
  plan balance (`PlanFoldIsExactIff`, `LostCreditMissesCache`). A payg charge lowers the cached
  plan balance even if the active grant may not spend the wallet (`PaygChargeOnPlanBalance`,
  `PaygChargeMissesPlan`).
* A refresh is documented to correct a cached balance. What it leaves is exactly what its
  statements have missed, each from its own instant on (`RefreshCorrects`): rows under way at
  that instant and what landed on the cell since. With neither, the value is the truth, whatever
  else happened meanwhile. A row under way is missed although nothing happens during the read
  (`RefreshMissesRow`), and a read that other statements come between can be a balance that the
  database has never had (`TornRead`).
* The prober's red count and the breaker's failure count: a closed breaker should hold
  max(0, reds - redThreshold + 1) failures. On a run of the prober they do so after every pass if
  and only if no pass forgives, that is, drops the account from the pool or gives it an
  unreported green, while the breaker is closed and the reds have reached the threshold
  (`ComposesIff`); then probes open the breaker on schedule (`ProbesOpenExactly`). Every run that
  keeps the account in the pool does if and only if the green or the failure threshold is 1
  (`StayingRunsComposeIff`, `StayingRunsOnTimeIff`); every run at all if and only if the failure
  threshold is 1 (`AllRunsComposeIff`, `AllRunsOnTimeIff`). `DepartureForgets` has a run that
  breaks them: one red, then a pass with the account disabled.
* The breaker's transitions chain head to tail exactly when no Reset ever hit an account that
  was not closed, since Reset emits nothing (`TransitionsChainIff`, `ResetTearsLog`).
* A data URI image without `;base64` comes back with it (section 3 of RFC 2397 gives the two
  forms different meanings); all other image addresses are unchanged (`UrlUnchangedIff`,
  `BareDataUriChanges`).
* A terminal Responses event whose response is `null`, together with at least one output
  item, makes the code assign to a nil map (`OutcomeMeaning`, `NilMapIsHit`).
* The token bucket's comment speaks of any remaining budget; the code asks for one whole
  token, and so lets an address in again exactly one token's inflow later (`OneTokenLater`,
  `HalfTokenHappens`).
* An upstream stream that breaks off while it is written is judged by its status alone, so as a
  success when that was 2xx or 3xx (`BrokenStreamSucceeds`).

## Model

| member | source | states |
|---|---|---|
| `WriteBuffer.Config.WithDefaults` | internal/repository/write_buffer.go:32-46 | each setting that is not positive takes its own default, every other stays as given |
| `WriteBuffer.Buffer.Enqueue` | internal/repository/write_buffer.go:89-117 | a record is refused only when stopping, else appended; the oldest goes first at the cap; the timer is armed or a flush is due |
| `WriteBuffer.Buffer.EnsureTimer` | internal/repository/write_buffer.go:119-131 | at most one handle: arms a fresh timer only when there is no handle |
| `WriteBuffer.Buffer.ClearTimer` | internal/repository/write_buffer.go:133-140 | stops the timer behind the handle and forgets it |
| `WriteBuffer.Buffer.Flush` | internal/repository/write_buffer.go:145-185 | what was written followed by what is queued is the old queue; all batches but the last are full; it fails exactly on a refusal, with the batch back in front and a timer armed |
| `WriteBuffer.Buffer.Stop` | internal/repository/write_buffer.go:191-207 | only the first call acts; at most two passes, each writing full batches until its sink refuses; nothing is lost, and what is left has a timer |
| `WriteBufferRuns.MutexKept` | internal/repository/write_buffer.go:145-185 | flushMu is held by exactly the goroutine inside the locked part of Flush |
| `WriteBufferRuns.StreamKept` | internal/repository/write_buffer.go:119-207 | no step but an append changes delivered ++ in flight ++ queued |
| `WriteBufferRuns.AppendConserves` | internal/repository/write_buffer.go:96-109 | an append, with or without dropping the oldest, keeps the stream increasing and complete |
| `WriteBufferRuns.BoundedKept` | internal/repository/write_buffer.go:96-180 | every step keeps queued + in flight within maxPending + batchSize |
| `WriteBufferRuns.HandleKept` | internal/repository/write_buffer.go:119-140 | a handle always points at a live timer unless a callback is already running, although a callback may erase a newer handle |
| `WriteBufferRuns.AttendedKept` | internal/repository/write_buffer.go:108-207 | no lost wake-up: queued records always have a live timer, a fired one, a flush, or a producer past its append |
| `WriteBufferRuns.EveryRun` | internal/repository/write_buffer.go:89-207 | mutual exclusion, conservation and order, the bound, the wake-up and the drain guarantee hold in every state of every run |
| `WriteBufferRuns.DropsOnlyWhenFull` | internal/repository/write_buffer.go:96-109 | a record is dropped only by an append at the cap, and it is the oldest |
| `WriteBufferRuns.DrainedForGood` | internal/repository/write_buffer.go:191-207 | once a flush run by Stop finds the queue empty, nothing is accepted or written again, and the sink has every record not dropped, once and in order |
| `WriteBufferRuns.NothingMissing` | internal/repository/write_buffer.go:89-185 | without overflow the conserved stream is the accepted sequence itself |
| `WriteBufferRuns.RefillThenFail` | internal/repository/write_buffer.go:156-180 | producers refilling behind a failing sink call can push the queue to its real bound |
| `WriteBufferRuns.BoundIsReached` | internal/repository/write_buffer.go:96-180 | for every configuration some run makes the queue hold maxPending + batchSize records |
| `WriteBufferRuns.MaxPendingCapsIff` | internal/repository/write_buffer.go:27-29 | MaxPending caps the queue throughout a run if and only if no failed batch goes back to a queue without room for it |
| `WriteBufferRuns.AcceptingSinkKeepsCap` | internal/repository/write_buffer.go:96-180 | while the sink accepts every batch the queue never exceeds MaxPending |
| `WriteBufferAlone.EnqueueAlone` | internal/repository/write_buffer.go:89-117 | undisturbed, the regions of Enqueue are Buffer.Enqueue: the same queue, and a flush goroutine exactly when it has reached the batch size, else a timer handle |
| `WriteBufferAlone.FlushAlone` | internal/repository/write_buffer.go:145-185 | undisturbed, the regions of Flush are Buffer.Flush: the same records written, queue and timers for every sink |
| `WriteBufferAlone.TimerAlone` | internal/repository/write_buffer.go:119-131 | a timer that fires forgets the handle, and is Buffer.Flush after that |
| `WriteBufferAlone.StopAlone` | internal/repository/write_buffer.go:191-207 | undisturbed, the regions of Stop are Buffer.Stop: the same records written in its two flushes, queue and timers |
| `WriteBufferAlone.StopAtOnce` | internal/repository/write_buffer.go:191-197 | whatever else runs, the first Stop refuses records at once and then cancels the timer, and a later Stop does nothing |
| `WriteBufferProgress.OwnStepLowers` | internal/repository/write_buffer.go:89-207 | every timer callback and every step of a started goroutine lowers a measure while the sink accepts |
| `WriteBufferProgress.RestIsEmpty` | internal/repository/write_buffer.go:89-207 | a reachable state in which nothing can move by itself has no goroutine, no armed timer and no record left |
| `WriteBufferProgress.OwnRunsDrain` | internal/repository/write_buffer.go:89-207 | from every reachable state, however own steps interleave, there are at most so many of them, and when none is left the buffer is empty |
| `WriteBufferProgress.AlwaysDrains` | internal/repository/write_buffer.go:89-207 | every run of own steps can be completed to one that ends with the buffer empty |
| `Breaker.TrippedStep` | internal/service/health/tracker.go:284-393 | how one more event changes whether a history is tripped |
| `Breaker.BreakerMeaning` | internal/service/health/tracker.go:227-419 | for every history: open or half-open exactly when tripped; the counters are the failure and success streaks, below their thresholds; the deadline counts from the latest failure |
| `Breaker.OpensExactly` | internal/service/health/tracker.go:344-369 | a closed breaker opens exactly on the threshold-th failure since the last success or reset |
| `Breaker.ClosesExactly` | internal/service/health/tracker.go:284-338 | it closes exactly on the required run of successes since the last failure, or by reset |
| `Breaker.TurnsAway` | internal/service/health/tracker.go:227-280 | a request is refused exactly while a cooldown is in force, or while tripped, with no trial since the latest failure and within its open period; all read from the history |
| `Breaker.HalfOpenMeaning` | internal/service/health/tracker.go:227-338 | half-open exactly when tripped with a success or an admitted check since the latest failure |
| `Breaker.DisabledAdmits` | internal/service/health/tracker.go:227-243 | with a failure threshold of 0 or below, a request is turned away exactly during a cooldown, whatever the history |
| `Breaker.DisabledIsInert` | internal/service/health/tracker.go:227-393 | and checks, successes and failures leave the circuit and the log as they are |
| `Breaker.HeldMeaning` | internal/service/health/tracker.go:284-393 | in every state the failure count is the failures since the breaker was last closed without any |
| `Breaker.HeldSinceMeaning` | internal/service/health/tracker.go:284-393 | and the recorded instant is that of the last failure that no reset or later success has cleared |
| `Breaker.EmissionMeaning` | internal/service/health/tracker.go:227-419 | an event emits a transition exactly when it changes the state and is no reset: from, to, failures held, a failure's reason, its own time |
| `Breaker.TransitionsChainIff` | internal/service/health/tracker.go:227-419 | the emitted transitions start closed, join head to tail and end at the current state if and only if every Reset found the account closed |
| `Breaker.ResetTearsLog` | internal/service/health/tracker.go:415-419 | a failure that opens and a Reset: the log no longer ends at the state |
| `Tracker.UpdateOne` | internal/service/health/tracker.go:227-428 | a call changes its own account as one event does, and no other account |
| `Tracker.TracksOneMore` | internal/service/health/tracker.go:227-428 | each account stays the fold of its own calls, whatever other accounts receive |
| `Tracker.KnownAccounts` | internal/service/health/tracker.go:227-428 | an outcome enters the account while its breaker is enabled, a reset removes it, nothing else changes which accounts are known |
| `Tracker.Tracker.ConfigMeaning` | internal/service/health/tracker.go:212-221 | a call runs under the account's own configuration, or under the default when there is none or it is all zero |
| `Tracker.Tracker.IsAvailable` | internal/service/health/tracker.go:227-280 | the answer, the cleared cooldown and the half-open trial are those of one Check event |
| `Tracker.Tracker.RecordSuccess` | internal/service/health/tracker.go:284-338 | the registry moves as by one Success event, transitions included |
| `Tracker.Tracker.RecordFailure` | internal/service/health/tracker.go:344-393 | the registry moves as by one Failure event, transitions included |
| `Tracker.Tracker.SetCooldown` | internal/service/health/tracker.go:154-162 | a cooldown is kept only if it lies in the future |
| `Tracker.Tracker.Reset` | internal/service/health/tracker.go:415-419 | the account starts afresh, its cooldown and other accounts untouched |
| `Prober.ProbeConfig.Normalize` | internal/service/health/prober.go:57-81 | each unsafe value takes its own default, concurrency the nearer end of its range, every other stays |
| `Prober.Prober.ApplyTests` | internal/service/health/prober.go:230-268 | the counters and the tracker calls of a whole pass, in completion order; accounts that left the pool are forgotten |
| `Prober.Prober.Observe` | internal/service/health/prober.go:230-262 | one result counts, and reaches the tracker exactly past its threshold |
| `Prober.CountersAreIndependent` | internal/service/health/prober.go:230-262 | an account's counters depend on its own tests only, however they interleave |
| `Prober.ProbesAreIndependent` | internal/service/health/prober.go:230-262 | so does what the tracker hears about it |
| `ProberRuns.PassesAreSteps` | internal/service/health/prober.go:180-269 | over any list of passes an account's counters and what the tracker hears of it are those of its own tests and of the passes without it |
| `ProberRuns.TallyIsRuns` | internal/service/health/prober.go:215-268 | the counters are the runs of consecutive reds and of quick greens: yellows and slow greens neither count nor break, a pass without the account forgets both |
| `ProberRuns.ToldMeaning` | internal/service/health/prober.go:239-262 | the tracker is told of a red that makes its run reach the threshold, with the probe's message, and of such a quick green; nothing else tells it anything |
| `ProberRuns.StaysInStepIff` | internal/service/health/prober.go:239-268 | one more test or departure keeps the two counts in step exactly when it does not forgive reds past the de-bounce that a closed breaker remembers |
| `ProberRuns.ComposesIff` | internal/service/health/prober.go:230-268 | for every run: closed implies failureCount = max(0, reds - redThreshold + 1) after every pass, if and only if no pass forgives |
| `ProberRuns.ProbesOpenExactly` | internal/service/health/tracker.go:344-369 | after a run without such a pass, a pass opens a closed breaker exactly with consecutive red number redThreshold + failureThreshold - 1 |
| `ProberRuns.StayingRunsComposeIff` | internal/service/health/prober.go:239-262 | every run that keeps the account in the pool composes if and only if the green or the failure threshold is 1 |
| `ProberRuns.AllRunsComposeIff` | internal/service/health/prober.go:263-268 | every run at all composes if and only if the failure threshold is 1 |
| `ProberRuns.StayingRunsOnTimeIff` | internal/service/health/prober.go:239-262 | probes open on schedule in every run that keeps the account if and only if the green or the failure threshold is 1 |
| `ProberRuns.AllRunsOnTimeIff` | internal/service/health/prober.go:263-268 | in every run at all if and only if the failure threshold is 1 |
| `ProberRuns.DepartureForgets` | internal/service/health/prober.go:263-268 | one red, then a pass with the account disabled: no reds, a closed breaker, one failure |
| `Billing.Round6` | internal/repository/plan.go:273-288 | storing moves an amount by at most half a micro-dollar |
| `Billing.ActiveGrantIsLatest` | internal/repository/plan.go:217-238 | the active grant is the eligible one that started last, later ids first; none exactly when none is eligible |
| `Billing.Store.GrantPlanToUser` | internal/repository/plan.go:188-215 | a new grant starts with its full credit and the plan's terms; nothing else changes |
| `Billing.Store.ConsumeGrantCredit` | internal/repository/plan.go:256-307 | the whole new database: row, status and ledger entry, or nothing when refused |
| `Billing.ConsumeTakes` | internal/repository/plan.go:273-288 | a deduction takes everything when credit is short, else the amount rounded with ties down |
| `Billing.ConsumeWrites` | internal/repository/plan.go:256-307 | when a deduction writes anything, and all of what it writes: the row less the amount, depleted exactly when that was all, and one ledger entry with grant, user, amount and charge |
| `Billing.Service.AvailableBalance` | internal/service/billing/billing.go:55-75 | the wallet for payg; the active grant's credit, plus the wallet if overage is allowed, for plan; nothing without a grant; an error exactly when a row it needs cannot be read |
| `Billing.Service.Charge` | internal/service/billing/billing.go:86-94 | the new database and the outcome of a charge in either mode, under every store fault |
| `Billing.Service.ChargePayg` | internal/service/billing/billing.go:97-112 | the payg outcome, with no change to the database |
| `Billing.Service.ChargePlan` | internal/service/billing/billing.go:116-154 | credit first, then wallet overage, with every refusal and fault |
| `Billing.ChargeBillsProduct` | internal/service/billing/billing.go:97-125 | every successful charge bills cost times the user's ratio in payg, and cost times the snapshot ratio of the latest row that counts in plan mode |
| `Billing.PaygMeaning` | internal/service/billing/billing.go:97-112 | a payg charge in full, from credits, billed rows, cost and ratio |
| `Billing.PlanRefusals` | internal/service/billing/billing.go:116-123 | an unreadable grant row is an error, and with every row passed over the charge is refused |
| `Billing.SplitIsConserved` | internal/service/billing/billing.go:27-36 | billed - (plan + wallet) lies in [-5e-7, 1e-9] for every successful charge, and is 0 when the wallet pays |
| `Billing.SplitIsExactIff` | internal/service/billing/billing.go:27-36 | the documented billed == plan + wallet, for every successful charge: payg always, plan exactly on the stated amounts |
| `Billing.UnevenSplitHappens` | internal/service/billing/billing.go:116-154 | 0.8 micro-dollars out of ten: charged, with unequal sums |
| `Billing.DrawForeseen` | internal/service/billing/billing.go:116-154 | credit taken, success and every reported amount of a draw, from the row, the wallet and the faults before it |
| `Billing.GateAgreesWithCharge` | internal/service/billing/billing.go:55-154 | an available balance that covers the amount makes the charge succeed, except for exactly the rounding refusals |
| `Billing.NoRefusalOnGrid` | internal/service/billing/billing.go:116-154 | amounts on the six-decimal grid meet no rounding refusal |
| `Billing.RoundingRefusalHappens` | internal/service/billing/billing.go:116-154 | a concrete charge with ample credit that is refused after consuming |
| `Billing.ChargeImpliesCovered` | internal/service/billing/billing.go:55-154 | a successful charge was covered up to the tolerance and to wallet debt that counts in the balance while the wallet pays nothing |
| `Billing.NoGrantNoCharge` | internal/service/billing/billing.go:116-130 | without an active grant nothing is available and every plan charge is refused |
| `BillingRuns.ConsumeKeepsBooks` | internal/repository/plan.go:256-307 | a deduction keeps every grant's ledger total equal to what it has lost |
| `BillingRuns.NextKeepsInv` | internal/repository/plan.go:256-307 | every step keeps the books and never raises a grant's remaining credit |
| `BillingRuns.EveryRun` | internal/service/billing/billing.go:97-154 | ledger sums, 0 <= remaining <= granted, depleted implies 0, and honest results, under every interleaving of statements |
| `BillingRuns.RowsArrive` | internal/repository/plan.go:188-215 | around the charges plans are granted, top-ups raise the wallet and stored rows lower it |
| `BillingRuns.PaygRunsLeaveGrants` | internal/service/billing/billing.go:97-112 | a run of payg charges leaves every grant as granted and the ledger empty |
| `BillingRuns.PaygNeverDraws` | internal/service/billing/billing.go:97-112 | however a run goes on, a payg charge stays one and the ledger has nothing of it |
| `BillingRuns.RefusedChargeIsStillPaid` | internal/service/billing/billing.go:116-154 | a charge's ledger rows are exactly the credit it consumed, however it ended |
| `BillingRuns.AloneIsCharge` | internal/service/billing/billing.go:86-154 | undisturbed, the statements of one charge are the sequential Charge: same database, result and failures whichever statement fails |
| `BalanceCache.Cache.Lookup` | internal/service/limits/balance.go:76-103 | a known key is served; exactly a stale entry with no refresh under way starts one |
| `BalanceCache.Cache.Seed` | internal/service/limits/balance.go:95-101 | a cold read seeds only if nobody else has, and serves the entry that stands |
| `BalanceCache.Cache.FinishRefresh` | internal/service/limits/balance.go:116-136 | a refresh assigns, or on error only clears its flag |
| `BalanceCache.Cache.ChargeWallet` | internal/service/limits/balance.go:145-156 | lowers both modes' cached entries |
| `BalanceCache.Cache.ChargePlan` | internal/service/limits/balance.go:161-170 | lowers the plan entry only |
| `BalanceCache.Cache.Credit` | internal/service/limits/balance.go:174-185 | raises both modes' cached entries |
| `BalanceCache.Cache.AddSpend` | internal/service/limits/cache.go:136-145 | raises one key's cached spend |
| `BalanceCacheRuns.EveryRun` | internal/service/limits/cache.go:76-145 | in every run each cached value is the last assigned one plus the folds since, each answer in a reader's hand is what its cell held at its own instant, and refreshes are single |
| `BalanceCacheRuns.CachedValues` | internal/service/limits/balance.go:138-185 | each balance is put together from answers given at their own instants before its assignment, plus credits minus wallet charges since, in plan mode minus plan charges too; each spend likewise |
| `BalanceCacheRuns.TruthStep` | internal/service/limits/balance.go:106-115 | storing a row leaves the true total as it was; a charge changes it before its row is stored |
| `BalanceCacheRuns.AnswerMissed` | internal/service/billing/repository_store.go:60-73 | what one statement's answer has missed: the rows of its cell unstored at its instant, and the statements and rows on that cell since |
| `BalanceCacheRuns.CellLanded` | internal/service/limits/balance.go:106-115 | what lands on a cell in a window: statements on it and the rows of charges |
| `BalanceCacheRuns.ReadError` | internal/service/billing/billing.go:55-75 | a read is wrong by what each of its statements has missed, signed as in the balance, and by a changed overage rule |
| `BalanceCacheRuns.CacheError` | internal/service/limits/balance.go:106-136 | the error of a cached value in every reachable state: what its statements had missed at the assignment, and what became true since without being folded |
| `BalanceCacheRuns.RefreshCorrects` | internal/service/limits/balance.go:106-136 | what is wrong at an assignment is exactly what its statements have missed; if each is still right, whatever else happened meanwhile, the cached value is the truth |
| `BalanceCacheRuns.RefreshMissesRow` | internal/service/limits/balance.go:106-136 | a row under way is missed by a refresh during which nothing happens |
| `BalanceCacheRuns.TornRead` | internal/service/billing/repository_store.go:60-73 | a top-up and a stored row between the two statements: the wallet reads -1, while the database goes from 0 over 5 to 4 |
| `BalanceCacheRuns.PaygErrorSince` | internal/service/limits/balance.go:138-185 | since an assignment a payg balance misses top-ups not folded, foreign changes and rounding only |
| `BalanceCacheRuns.PlanErrorSince` | internal/service/limits/balance.go:138-185 | the plan balance, under one grant, also deductions not folded and wallet charges that the grant does not see |
| `BalanceCacheRuns.SpendErrorSince` | internal/service/limits/cache.go:136-145 | a cached spend misses spend ageing out, foreign spend and rounding only |
| `BalanceCacheRuns.OneRefreshPerKey` | internal/service/limits/balance.go:80-90 | at most one refresh per key, and one exactly when the entry says so |
| `ChargeBilling.RecordBillingSpend` | internal/service/limits/limits.go:157-167 | plan money lowers the plan balance, wallet money both |
| `ChargeBilling.ChargeBilling` | internal/handler/gateway/billing.go:20-55 | on every path the result is as documented and the cached balances fall by exactly what it reports |
| `ChargeBilling.RecordedMeaning` | internal/handler/gateway/billing.go:28-52 | without a charger or after a failed charge the row records cost times the key's ratio, on the wallet unless a plan charge failed |
| `ChargeBilling.DrawKeepsSelection` | internal/repository/plan.go:217-238 | a draw, depleting or not, leaves the active grant the active one and the wallet alone |
| `ChargeBilling.PaygFoldIsExactIff` | internal/handler/gateway/billing.go:20-55 | billing a request leaves the error of the cached payg entry what it was if and only if the wallet share is on the six-decimal grid |
| `ChargeBilling.PaygFoldIsClose` | internal/db/migrations/0034_request_billing_split.sql:5 | and otherwise moves it by at most half a micro-dollar |
| `ChargeBilling.OffGridFoldMisses` | internal/db/migrations/0034_request_billing_split.sql:5 | four tenths of a micro-dollar: folded, but stored as nothing |
| `ChargeBilling.LostCreditMissesCache` | internal/handler/gateway/billing.go:36-54 | one micro-dollar of credit gone with a refused charge, and the cache unchanged |
| `ChargeBilling.PlanFoldIsExactIff` | internal/handler/gateway/billing.go:36-54 | a plan charge leaves the error of the cached plan entry what it was if and only if no credit is lost to a refusal, and the amount is on the six-decimal grid if the wallet pays a share; both read from the rows before |
| `ChargeBilling.PaygChargeOnPlanBalance` | internal/service/limits/balance.go:145-156 | a payg charge leaves the error of the cached plan entry what it was if and only if its price is 0, or the active grant may spend the wallet and the price is on the six-decimal grid |
| `ChargeBilling.PaygChargeMissesPlan` | internal/service/limits/balance.go:145-156 | a dollar on a payg key of a user without a grant: the plan balance stays 0, the cached one falls |
| `Endpoints.UrlListMeaning` | internal/service/provider/provider.go:209-223 | the list has the candidates' first occurrences in order, without duplicates, the account's own first |
| `Endpoints.EndpointURLs` | internal/service/provider/provider.go:209-223 | the loop with its seen set computes that list |
| `Endpoints.Dispatch` | internal/service/forward/forward.go:194-239 | URLs are asked in order up to the first that can be reached and answers neither 429 nor 500 and above, or the last; its outcome is returned and only its body is open |
| `Endpoints.FailsOnlyIfAllFail` | internal/service/forward/forward.go:212-239 | a dispatch ends unreachable, with 429 or with 500 and above if and only if every URL of the account does, and has then asked each |
| `Failover.ConfiguredAttempts` | internal/handler/gateway/anthropic.go:256-268 | 3 without settings, else the setting, brought to the nearer end of 1 to 10 |
| `Failover.Handler.Dispatch` | internal/service/forward/forward.go:194-239 | a dispatch of the loop is the endpoint loop: its outcome and its requests, and of all bodies it opens at most the returned one is left |
| `Failover.Handler.Abandon` | internal/handler/gateway/anthropic.go:410-443 | a failing dispatch closes its body, parks a rate-limited account, reports one failure and excludes the account |
| `Failover.Handler.RetryAfterRefresh` | internal/handler/gateway/anthropic.go:450-492 | one refresh, the 401 body closed, then the same account again or the next |
| `Failover.Handler.Rectify` | internal/handler/gateway/anthropic.go:499-522 | at most one rectified dispatch; the rejected body is closed; the client gets the retry's text if it answered and the rejected text otherwise |
| `Failover.Handler.Commit` | internal/handler/gateway/anthropic.go:524-527 | one reply with its text and status, nothing left open, health reported as the status calls for |
| `Failover.Handler.Exchange` | internal/handler/gateway/anthropic.go:410-527 | from the first dispatch to the commit: verdict, dispatches and requests spent, health reports, and nothing left open or owed |
| `Failover.Handler.Attempt` | internal/handler/gateway/anthropic.go:360-527 | one turn with a resolved account, token gate and slot included |
| `Failover.Handler.ReleaseAll` | internal/handler/gateway/anthropic.go:400-408 | every slot taken is returned once, last first |
| `Failover.Handler.Serve` | internal/handler/gateway/anthropic.go:360-588 | for every oracle: one client reply, the expected status and body text; every body closed or committed, across accounts and endpoints; every slot returned; dispatches, requests, cooldowns and health reports as expected |
| `Failover.BrokenStreamSucceeds` | internal/handler/gateway/anthropic.go:595-609 | a request whose response breaks off while written ends as the same request with a complete response, unless there was no status; a 2xx or 3xx is reported as a success |
| `Failover.LeftOnlyIfAllFail` | internal/handler/gateway/anthropic.go:410-492 | past the token gate and with a slot, an account is left if and only if every URL was unreachable or answered 429 or 500 and above in the deciding dispatch, or its 401 could not be refreshed |
| `Failover.CommitMeaning` | internal/handler/gateway/anthropic.go:499-609 | the committed status, and the report it makes; 429 and 500 and above are committed only from the rectified retry, as failures |
| `Failover.LeaveMeaning` | internal/handler/gateway/anthropic.go:384-492 | an attempt that commits nothing reports one failure when its URLs failed, nothing when token, slot or refresh stopped it |
| `Failover.ShownMeaning` | internal/handler/gateway/anthropic.go:499-527 | the body shown is the last dispatch's, or the rejected one before it when the rectified retry got no answer |
| `Failover.TriedAsAsked` | internal/handler/gateway/anthropic.go:360-361 | the resolver is always told every account tried so far |
| `Failover.NeverTwice` | internal/handler/gateway/anthropic.go:360-361 | with a resolver that honours the exclusion list no account is tried twice |
| `Failover.DispatchBound` | internal/handler/gateway/anthropic.go:360-527 | at most one dispatch per attempt, one for the refresh and one for the rectifier, and at most that many times the URLs of an account in requests |
| `Failover.BoundIsReached` | internal/handler/gateway/anthropic.go:360-527 | for every number of attempts and every list of URLs some outcomes make both bounds exact |
| `Failover.ReplyMeaning` | internal/handler/gateway/anthropic.go:360-623 | the reply is the first committable response; failing that 503, 500, or 429 or 502 by the last bad status |
| `Failover.GivesUp` | internal/handler/gateway/anthropic.go:584-623 | with all attempts spent the client gets 429 exactly when the last one not skipped for a full account ended with 429, else 502 |
| `Concurrency.ConcurrencyGuard.TryAcquire` | internal/service/limits/concurrency.go:27-38 | refuses exactly at a positive cap, else counts one more |
| `Concurrency.ConcurrencyGuard.Release` | internal/service/limits/concurrency.go:42-54 | counts one less, clamped at zero, and forgets the account at zero |
| `Concurrency.ConcurrencyGuard.AtCap` | internal/service/limits/concurrency.go:59-66 | full exactly when TryAcquire would refuse |
| `ConcurrencyRuns.ReleaseNeverClamps` | internal/service/limits/concurrency.go:42-54 | a handler's deferred release never meets the clamp |
| `ConcurrencyRuns.EveryRun` | internal/handler/gateway/anthropic.go:400-408 | under every interleaving the guard counts exactly the slots held |
| `ConcurrencyRuns.EmptyWhenAllReturned` | internal/service/limits/concurrency.go:42-54 | the map is empty once all slots are returned |
| `ConcurrencyRuns.CapIsRespected` | internal/service/limits/concurrency.go:27-38 | a fixed positive cap bounds the slots held at once |
| `ConcurrencyRuns.CapIsReached` | internal/service/limits/concurrency.go:27-38 | and the whole cap can be held |
| `ConcurrencyRuns.AllCanReturn` | internal/handler/gateway/anthropic.go:400-408 | from every reachable state the handlers can return and release, which empties the map |
| `ConcurrencyRuns.RefusalIsReal` | internal/service/limits/concurrency.go:27-38 | an account is refused exactly when that many slots are held |
| `ChatMessages.MessagesFromOpenAI` | internal/protocol/openai/request.go:83-132 | the loop takes messages in one by one and stops at the first error, naming its position |
| `ChatMessages.UserTurnToOpenAI` | internal/protocol/openai/convert.go:130-147 | tool results become tool messages, in order, before one user message with the rest |
| `ChatMessages.MessagesToOpenAI` | internal/protocol/openai/convert.go:77-98 | the loop emits the system line and then every turn in order |
| `ChatRoundTrip.UrlUnchangedIff` | internal/protocol/openai/request.go:203-234 | an image address comes back unchanged if and only if it is not a data URI without the base64 marker |
| `ChatRoundTrip.BareDataUriChanges` | internal/protocol/openai/request.go:225-234 | "data:," and a text comes back as a base64 URI |
| `ChatRoundTrip.ImageMeaning` | internal/protocol/openai/request.go:203-234 | a data URI gives its media type and data, with or without the marker; any other address, one without a comma included, is kept as it is |
| `ChatRoundTrip.BlankMeaning` | internal/protocol/openai/request.go:187-191 | blank is every character in the White_Space property |
| `ChatRoundTrip.UserTurnIsNormal` | internal/protocol/openai/request.go:136-160 | a user message becomes its supported parts, images without their detail, a string when that is one text, and nothing when there is none |
| `ChatRoundTrip.AssistantTurnIsNormal` | internal/protocol/openai/request.go:164-199 | an assistant message keeps its text in one string and its calls in order |
| `ChatRoundTrip.IntakeMeaning` | internal/protocol/openai/request.go:83-132 | intake fails exactly at the first message that is not acceptable |
| `ChatRoundTrip.RoundTrip` | internal/protocol/openai/convert.go:77-180 | there and back is the normal form: joined system text first, then every message with supported content in order |
| `ChatRoundTrip.SecondTripIsIdentity` | internal/protocol/openai/convert.go:77-180 | the second trip never fails and changes nothing |
| `ChatRoundTrip.ToolTrafficSurvives` | internal/protocol/openai/convert.go:102-147 | the sequences of tool calls and tool results come back unchanged |
| `ChatRoundTrip.ArgumentsSurvive` | internal/protocol/openai/request.go:187-197 | call arguments change only when blank, to the empty object |
| `ChatRoundTrip.ToolsGoFirst` | internal/protocol/openai/convert.go:130-147 | a user turn becomes one tool message for each result, in order and with its id, and then at most one user message for the rest |
| `ChatRoundTrip.ThinkingIsDropped` | internal/protocol/openai/convert.go:100-173 | a thinking block changes nothing of what is sent on |
| `ChatRequest.PassthroughFields` | internal/protocol/openai/request.go:65-77 | exactly the regenerated fields are removed |
| `ChatRequest.RequestFromOpenAI` | internal/protocol/openai/request.go:14-61 | the internal request with its sampling fields and token limit, or a refusal for a blank model, bad fields or messages |
| `ChatRequest.RequestToOpenAI` | internal/protocol/openai/convert.go:18-73 | every field is the generated one, else the passed-through one, else absent |
| `ChatRequest.PassthroughIsVerbatim` | internal/protocol/openai/request.go:52-77 | fields outside the regenerated set come back unchanged, none is added, none overrides |
| `ChatRequest.ToolsNormalize` | internal/protocol/openai/request.go:237-250 | function tools survive in order, other tools are left out |
| `ChatRequest.RequestRoundTrip` | internal/protocol/openai/convert.go:18-73 | every field of a request after the round trip, in terms of the request alone |
| `ChatRequest.ToolChoiceSurvives` | internal/protocol/openai/request.go:254-283 | auto, none, required and a named function come back, any other word as auto, none at all as none |
| `ChatRequest.FieldsRead` | internal/protocol/openai/request.go:23-38 | what is read off an accepted request, from its fields: model, stream, temperature, top_p, the token limit that counts, stop texts |
| `ChatRequest.TakenIff` | internal/protocol/openai/request.go:14-50 | a request is taken if and only if its fields have their types, its model is not blank and every message is acceptable |
| `ChatRequest.DecodesMeaning` | internal/protocol/openai/types.go:51-62 | the types of the fields that are read |
| `ChatRequest.SamplingRidesAlong` | internal/protocol/openai/request.go:23-34 | sampling fields and what is read from them survive the trip |
| `ChatRequest.SecondRequestTrip` | internal/protocol/openai/convert.go:18-73 | a rebuilt request is accepted and rebuilt unchanged |
| `Responses.AssembleResponsesBody` | internal/service/forward/forward.go:709-729 | the terminal response untouched without items, else with its output replaced; its failures |
| `Responses.WriteResponsesAggregated` | internal/service/forward/forward.go:607-685 | the outcome for every stream told from its events: an error passed on, a broken or unfinished stream, or the last terminal response with the last item of every index as its output, in increasing order |
| `Responses.AggregatedAnswers` | internal/service/forward/forward.go:709-729 | the specified outcome is that answer |
| `Responses.OutputIsInOrder` | internal/service/forward/forward.go:709-729 | the output is the items in strictly increasing index order, none lost |
| `Responses.ItemsAreLast` | internal/service/forward/forward.go:641-648 | an index's item is the last one sent for it, and every index sent has one |
| `Responses.OrderOfArrivalIsIrrelevant` | internal/service/forward/forward.go:622-675 | with each index sent once, every permutation that keeps the last terminal response gives the same outcome |
| `Responses.OneTerminalIsLast` | internal/service/forward/forward.go:637-640 | with one terminal response every permutation has the same last one |
| `Responses.OutcomeMeaning` | internal/service/forward/forward.go:660-729 | when there is no terminal event, when the nil map is hit, and that other fields are kept |
| `Responses.NilMapIsHit` | internal/service/forward/forward.go:709-729 | one item and a null terminal response end in the nil map |
| `TokenBucket.TPMCache.Allow` | internal/service/blockedip/tpm.go:38-52 | admits exactly with one whole token after refill, or when no limit applies |
| `TokenBucket.TPMCache.Charge` | internal/service/blockedip/tpm.go:57-66 | takes the tokens after refill, below zero if need be |
| `TokenBucket.TPMCache.Refill` | internal/service/blockedip/tpm.go:87-97 | tops up to the capacity and never moves the clock back |
| `TokenBucket.NeverOverfull` | internal/service/blockedip/tpm.go:71-97 | no bucket ever holds more than its capacity |
| `TokenBucket.ChargedPlusLeft` | internal/service/blockedip/tpm.go:57-97 | tokens charged since t0 plus tokens left never exceed a full bucket plus the inflow |
| `TokenBucket.AdmissionBound` | internal/service/blockedip/tpm.go:38-97 | at an admission at t, the tokens charged since t0 total at most capacity + (cap/60)(t - t0) - 1 |
| `TokenBucket.CapChangeWipesDebt` | internal/service/blockedip/tpm.go:71-83 | a changed cap starts over with a full bucket and touches no other address |
| `TokenBucket.OneTokenLater` | internal/service/blockedip/tpm.go:11-18 | the documented rule would admit right after the bucket is even; the code admits from exactly one token's inflow later on |
| `TokenBucket.HalfTokenHappens` | internal/service/blockedip/tpm.go:44-51 | half a token left is refused |

## Left out

- The sink of the write buffer is all-or-nothing: a partial database write is not modelled, and neither are write timeouts or contexts.
- The `TransitionHandler` calls are recorded in the order of the state changes; the order in which handlers see them after the tracker's lock is released is not modelled. One clock reading stands for each `RecordSuccess` and `RecordFailure`.
- The prober's choice of targets, its concurrency and its opt-in flags: its tests arrive in an arbitrary order. `ProberRuns` has one probe configuration throughout and no other caller of the tracker; its results on thresholds take each pass to test accounts in the pool, each at most once, as the choice of targets does.
- Resolver, session store, token manager, proxy pool and drivers: the model assumes that a token refresh keeps an account's id, kind and URLs, and, for `Failover.NeverTwice` only, that the resolver honours the exclusion list.
- A nil tracker or nil concurrency guard in the retry loop, metrics, logging, stored request rows and pricing. How long a rate-limited account is parked: only that it is parked.
- The OpenAI chat and Responses handlers: the same retry loop without the rectifier.
- `RPMCache`, whose behaviour is that of its rate-limiting library; `authguard`; encryption, passwords and tokens.
- Any bound on how far concurrent requests can overdraw a wallet: the code accepts that race.
- JSON text: messages, fields and events are values. Case-insensitive matching of JSON field names and escaping are not modelled.
- Floating point: money and tokens in flight are exact reals; stored money is rounded to its column's six decimals. Column overflow and a commit whose outcome is unknown are not modelled.
- A request row that the write queue drops: in `BalanceCacheRuns` it is a row that is never stored. `BillingRuns` and `BalanceCacheRuns` take the sums of stored rows as given; older rows without a wallet share are part of them.
- Reads of upstream error bodies are cut at fixed sizes; the model lets the client see the body, not how much of it.
- The cold path of a cache lookup is split into its two locked regions and the statements of the source read; its error return to the caller is the reader's disappearance.
- Cached and bucket entries are values in a map that the methods reassign, where the code updates records behind pointers; no two keys share a record in the code.
- HTTP, database drivers, listeners, commands and the user interface.
