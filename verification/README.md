# A model of gowarm

gowarm reads a sitemap, multiplies every URL with the applicable values of a few axes and
requests each combination once to warm a cache. These files model its four hard parts and
prove what holds of them over all inputs and all interleavings:

- `TokenBucket.dfy`, `Slowdown.dfy`, `WarmCalls.dfy`: the throttle. A token bucket that
  refills lazily, an adaptive slowdown built from one atomic deadline, and per-host
  semaphores, in front of any number of concurrent calls.
- `Retry.dfy`, `WorkerPool.dfy`, `Outcomes.dfy`, `Snapshots.dfy`: retries with backoff, the
  bounded pool, its counters and failure report told by the outcomes of its jobs, and what
  reading them while the pool runs can show.
- `Sequences.dfy`, `Combos.dfy`, `Sampling.dfy`, `Planner.dfy`: the run plan, the cartesian
  enumeration over one shared buffer, the submitter and the dry run.
- `Sitemap.dfy`: the worklist over a possibly cyclic sitemap graph.
- `Tally.dfy`, `Options.dfy`: counting over sequences of process states, optional values.

Concurrent code is a state machine: every atomic operation or mutex section is one step,
goroutines sit at explicit program counters, and a run is any sequence of enabled steps. The
state that Go code updates in place is a class (`TokenBucket`, `Throttle`, `HostSlots`,
`ExponentialBackoff`, `Pool`, `Enumerator`) whose methods are proved against the machine's steps
or a function, so what is proved of all runs of the machine is proved of the methods. For
`HostSlots` this holds up to empty channels, which the class keeps and the machine does not have.

Where the code does not do what it or its comments promise, the model follows the code, a
lemma shows a run or an input for which the promise fails, and another says exactly when it holds:

- A window's slowdown can be undone by an earlier window's pending restore
  (`SlowdownLostIffRestorePending`, `LateRestoreReachable`), and although the comment at
  `internal/http/throttle.go:119-121` speaks of the latest deadline, observers that swap in the
  opposite order of their clock readings cut a window short (`WindowCutShortIff`).
- Priority URLs do not survive every sampling, although `cmd/plan.go:38-40` says so
  (`PriorityKeptIff`, `RandomKeepsPriorityIff`, `PriorityUrlDropped`).
- `comboCount` saturates so that limits can still be compared (`cmd/plan.go:79-81`), but the sum
  of the counts wraps, and a limit of MaxInt limits nothing (`MaxJobsGuard`,
  `WrapDefeatsMaxJobs`).
- The backoff cap fails once the delay no longer fits a duration (`DelayBoundIffRepresentable`).
- A snapshot taken during a run can show more successes than starts (`SnapshotOvercountsIff`,
  `SnapshotCanOvercount`), and the summary of a cancelled run more failures than it counts
  (`SummaryDisagreesIff`, `SummaryCanDisagree`).

Taken alone, `comboCount` also misses an empty axis behind a saturated product
(`CountIsSaturatedProduct`, `EmptyAxisHidden`). The program never passes it one: `planRun` counts
only URLs with a value on every axis (`PlannedCounts`).

Assumptions. Floats are exact reals, and conversions to integers are truncations; a conversion
that is out of range yields an arbitrary value. The clock never goes back, and clock reading
plus slowdown duration is positive. Substring, regex and URL filters are arbitrary predicates.
The random generator, response statuses, transport errors, timer delays and the moment of
cancellation are parameters, quantified over. Fetching a sitemap is a finite map from URL to
parsed content; a URL outside it fails. An error counts as the context's if `Canceled` or
`DeadlineExceeded` is anywhere in its chain, whatever caused it, so a client timeout is one; the
pool's machine writes `Canceled` for either. A call of Warm, once made, returns.

## Model

| member | source | states |
|---|---|---|
| TokenBuckets.TokensStayInRange | internal/http/throttle.go:187-234 | whatever the sequence of Wait sections, rate changes and refills, tokens stay within [0, capacity] |
| TokenBuckets.RateBound | internal/http/throttle.go:176-234 | rate bound: with multipliers at most M, any interval [s, t] of any run sees at most capacity + baseRate·M·(t−s) grants, although a rate change re-rates the time since the last refill |
| TokenBuckets.BaseRateBound | internal/http/throttle.go:144-158 | with slowdowns only, the configured rate and burst bound the grants of every interval |
| TokenBuckets.GrantsWithinPotential | internal/http/throttle.go:187-234 | the sharper bound behind it: what the bucket could show at the start plus peak filling since |
| TokenBuckets.RefillComposes | internal/http/throttle.go:222-234 | one refill at the end equals a refill at any instant in between followed by one at the end |
| TokenBuckets.LazyRefillRefinesIdeal | internal/http/throttle.go:187-234 | refinement: at a fixed multiplier the lazy bucket grants at exactly the instants at which one refilled at arbitrary further instants does, and ends at the same level |
| TokenBuckets.EagerSimulatesLazy | internal/http/throttle.go:187-234 | the simulation behind it, from any two buckets at the same level |
| TokenBuckets.TokensConserved | internal/http/throttle.go:187-234 | conservation: initial plus credited tokens = final tokens + grants + what the cap discarded |
| TokenBuckets.TokenBucket.constructor | internal/http/throttle.go:160-171 | starts full, at the base rate, with a capacity of at least 1 |
| TokenBuckets.TokenBucket.SetMultiplier | internal/http/throttle.go:176-183 | non-positive multipliers become 0.01, others are kept; no refill takes place |
| TokenBuckets.TokenBucket.RefillLocked | internal/http/throttle.go:222-234 | adds elapsed time times baseRate times multiplier, up to the capacity; a clock that has not advanced changes nothing |
| TokenBuckets.TokenBucket.TryTake | internal/http/throttle.go:192-210 | grants exactly if a whole token is there after the refill and takes one; otherwise takes none and asks to sleep exactly until the token is there, or 250 ms if that is sooner |
| TokenBuckets.TokenBucket.Wait | internal/http/throttle.go:187-219 | ends; a granted call has taken one token, before the deadline; a cancelled one has taken none; a sole waiter sleeps at most ceil(4·missing/rate) times despite the cap, never past its token but for the overshoot of its last timer, so with exact timers and no deadline it is granted exactly missing/rate after it came |
| Slowdown.InvRun | internal/http/throttle.go:102-138 | the protocol's invariant holds in every run of any number of observers and recovery loops |
| Slowdown.UniqueOwner | internal/http/throttle.go:102-138 | the deadline is non-zero exactly if there is a window owner, who is unique; no loop ever loads 0; without owner and pending restore the limiter is at its base rate |
| Slowdown.NoEarlyEnd | internal/http/throttle.go:122-138 | only the owner's CAS ends a window, never before the deadline then stored; other changes are observers' swaps |
| Slowdown.WindowRunsAtFactor | internal/http/throttle.go:110-136 | a window opened with no restore pending runs at the clamped factor from the owner's SetMultiplier until it closes |
| Slowdown.SlowdownLostIffRestorePending | internal/http/throttle.go:110-132 | a window can lose its slowdown if and only if a restore of an earlier window is pending when it opens |
| Slowdown.LateRestoreUndoesWindow | internal/http/throttle.go:130-131 | the two steps that undo it |
| Slowdown.LateRestoreReachable | internal/http/throttle.go:102-138 | from a fresh throttle a run reaches an open window at multiplier 1.0 with nothing pending, which stays so until it closes |
| Slowdown.StaleSwapShortensWindow | internal/http/throttle.go:109-110 | from a fresh throttle a run closes a window before a deadline it had stored |
| Slowdown.WindowCutShortIff | internal/http/throttle.go:109-137 | an open window can end before its current deadline if and only if that is still ahead, an observer holds an earlier one and the owner does not wait for one at least as late |
| Slowdown.GuardHolds | internal/http/throttle.go:119-138 | otherwise every continuation keeps the window open until that deadline |
| Slowdown.RecoveryIsBounded | internal/http/throttle.go:119-138 | without further 429s and 503s only boundedly many steps are left, however they interleave with time |
| Slowdown.RestsOnlyRecovered | internal/http/throttle.go:119-138 | where no step is left, the deadline is clear and the base rate restored: no deadlock |
| Slowdown.Throttle.constructor | internal/http/throttle.go:36-55 | starts idle, at the base rate |
| Slowdown.Throttle.Observe | internal/http/throttle.go:102-109 | 429 and 503 start an observer whose deadline is the clock it read plus the duration; every other status changes nothing |
| Slowdown.Throttle.Swap | internal/http/throttle.go:110 | stores the new deadline and returns the old one |
| Slowdown.Throttle.CompareAndSwap | internal/http/throttle.go:130 | replaces the deadline exactly if it is the expected one |
| Slowdown.Throttle.Advance | internal/http/throttle.go:109-137 | each atomic section of an observer or a loop is the machine's step |
| WarmCalls.PerHostCap | internal/http/throttle.go:71-94 | in every run at most maxPerHost of the calls whose Begin was for a host are in flight; its channel holds one entry per unreleased acquire, so a release never blocks |
| WarmCalls.KeepsOwnHost | internal/http/client.go:134-151 | a call keeps the host it began with until it ends, and then backs off exactly if it is retried |
| WarmCalls.OnlyCapBlocks | internal/http/throttle.go:61-81 | a call under way always has a next step of its own, except exactly when all slots of its capped host are taken |
| WarmCalls.BlockedByMover | internal/http/throttle.go:71-80 | a call that cannot get a slot is blocked by another call to its host that can move |
| WarmCalls.LimiterRuns | internal/http/throttle.go:66-70 | the limiter sees exactly the claims and rate changes of the run, in order |
| WarmCalls.TokensAccounted | internal/http/client.go:140-149 | conservation: tokens held at first plus tokens granted = requests dispatched + tokens forfeited by cancelled calls + tokens still held |
| WarmCalls.DispatchesPaidFor | internal/http/client.go:140-149 | requests up to t never exceed the tokens held at the start plus those granted since |
| WarmCalls.Pacing | internal/http/client.go:140-149 | end to end, retries included: at most burst + rps·(t−s) requests plus the calls then holding a token leave in [s, t] |
| WarmCalls.RateNeverAboveBase | internal/http/throttle.go:176-183 | no run without speed-ups drives the limiter above its base rate |
| WarmCalls.InvRun | internal/http/throttle.go:61-94 | every run keeps each channel at its number of holders and the bucket in range |
| WarmCalls.HostSlots.constructor | internal/http/throttle.go:37-39 | starts without channels, in agreement with every initial state of the machine |
| WarmCalls.HostSlots.SlotsFor | internal/http/throttle.go:85-94 | creates a missing channel empty and leaves every length as it is |
| WarmCalls.HostSlots.Acquire | internal/http/throttle.go:71-80 | takes the machine's TakeSlot step if it acquires and its GiveUp step if it is cancelled; blocks exactly if there is no room and the context has not fired; leaves other hosts alone |
| WarmCalls.HostSlots.Release | internal/http/throttle.go:77 | takes the machine's Finish step: gives back exactly the slot taken, which in every reachable state is there to take |
| Retry.ErrorChains | internal/retry/retrier.go:43-47 | an error is permanent, or the context's, exactly if something in its chain is |
| Retry.ExecuteTrace | internal/retry/retrier.go:71-101 | at most max(1, MaxAttempts) calls; all but the last failed retryably with the sleep completed; nil exactly if the last call succeeded; otherwise its error or the context's, which has then fired |
| Retry.DelayExact | internal/retry/retrier.go:103-114 | what is slept: the uncapped delay rounded down or the cap, and the draw on top |
| Retry.BackoffDoubles | internal/retry/retrier.go:103-108 | with the default factor the backoff starts at BaseDelay and doubles from attempt to attempt, up to the cap |
| Retry.ScaledGrows | internal/retry/retrier.go:104-105 | the uncapped delays start at BaseDelay, each is Factor times the one before, and none shrinks for factors from 1 on |
| Retry.BackoffGrows | internal/retry/retrier.go:103-114 | without a draw, what is slept never shrinks from attempt to attempt |
| Retry.DelayBoundIffRepresentable | internal/retry/retrier.go:103-114 | cap and jitter bound a sleep for every draw and every conversion result if and only if the uncapped delay fits a duration |
| Retry.TotalBackoff | internal/retry/retrier.go:71-114 | all sleeps of one Execute ask for at most (attempts−1)·(MaxDelay+Jitter), if the delays slept fit a duration |
| Retry.ExponentialBackoff.ComputeDelay | internal/retry/retrier.go:103-114 | the delay that the bounds are about: power, cap, then jitter |
| Retry.ExponentialBackoff.Execute | internal/retry/retrier.go:71-101 | normalises its fields and returns, calls and sleeps as the trace says, each sleep asking for its attempt's delay |
| Retry.StatusClasses | internal/http/client.go:173-180 | 200 to 399 is a success, exactly 429 and 500 on are retryable, everything else is permanent, and no status looks like a cancellation |
| Retry.LastResultMeaning | internal/worker/pool.go:189-194 | the captured result is that of the last call that had one |
| Retry.JobOutcome | internal/http/client.go:173-180 | a job without error has the result of its last attempt, with status 200 to 399; no permanent status is retried |
| WorkerPool.SectionsAreExecute | internal/worker/pool.go:188-196 | a worker's sections inside Execute are the retrier's attempt loop: same calls, same end, same captured result |
| WorkerPool.ProcessIsExecute | internal/worker/pool.go:187-196 | a worker about to start a job gives it all configured attempts and no earlier result, and leaves it as Execute does |
| WorkerPool.ExecutionEnds | internal/retry/retrier.go:80-86 | a job ends without error only with a good result; one that finds the context fired before its first attempt ends with the context's error |
| WorkerPool.InvRun | internal/worker/pool.go:142-242 | every run keeps the job accounting, the counter ledger and the bounds |
| WorkerPool.Conservation | internal/worker/pool.go:142-185 | every run, cancelled or not: submitted = rejected + queued + in process + processed + abandoned, as multisets and in number; the queue keeps its bound; each worker abandons at most one job |
| WorkerPool.DrainedCompletely | internal/worker/pool.go:152-185 | if the context never fires, all workers exited means every submitted job was processed exactly once |
| WorkerPool.CounterLedger | internal/worker/pool.go:187-242 | at every interleaving Total = Success + Failed + context endings + unclassified jobs; cache counters sum to counted results; the failure list plus failures not yet reported is Failed |
| WorkerPool.FinalCounters | cmd/report.go:147-156 | once all workers have exited, the failure list has exactly Failed entries, Cached is CacheHits, every counted job is classified |
| Outcomes.CountersTellOutcomes | internal/worker/pool.go:187-227 | once all workers have exited, Total, Success, Failed and each cache counter are the numbers of processed jobs that ended that way |
| Outcomes.FailureList | cmd/report.go:118-157 | at every interleaving the failure list names, in the order of the reports, exactly the processed jobs that failed for another reason than the context |
| Outcomes.FirstInFirstOut | internal/worker/pool.go:144-183 | workers receive the jobs in the order in which they were sent, without gaps; every submitted job was sent or rejected |
| Outcomes.CancelStopsStarts | internal/worker/pool.go:179-188 | after a cancel only jobs already past the look at the context are still counted |
| Snapshots.CountersGrow | internal/worker/pool.go:56-67 | no counter ever decreases |
| Snapshots.SnapshotConsistent | internal/worker/pool.go:69-83 | although not atomic, a snapshot never shows more Cached than CacheHits, and each field lies between its values at the start and at the end |
| Snapshots.SnapshotOvercountsIff | internal/worker/pool.go:69-83 | a snapshot begun in a given state can show more successes than starts if and only if the context has not fired and either the queue is open or the jobs not counted yet outnumber those that did not or cannot succeed |
| Snapshots.SnapshotCanOvercount | internal/worker/pool.go:69-83 | in every pool a snapshot can show more successes than starts |
| Snapshots.FinalSnapshotExact | cmd/main.go:247-251 | a snapshot begun after the last worker's exit is exact |
| Snapshots.SummaryDisagreesIff | cmd/main.go:247-299 | after a cancel, the reported failure list can outgrow the counter beside it if and only if some worker is in a call of Warm or has a failure not counted yet |
| Snapshots.SummaryCanDisagree | cmd/main.go:247-299 | every pool that captures failures can get into such a state |
| WorkerPool.ProducedPrefix | cmd/main.go:420-443 | a producer that goes through a job list has submitted a prefix of it, and all of it when it stops uncancelled |
| WorkerPool.DrainIsBounded | internal/worker/pool.go:152-185 | after Stop the workers take boundedly many more steps |
| WorkerPool.WorkersNeverStuck | internal/worker/pool.go:176-185 | after Stop, where no worker can take a step any more, all have exited |
| WorkerPool.Pool.constructor | internal/worker/pool.go:118-140 | at least one worker, each waiting, with everything else empty |
| WorkerPool.Pool.Submit | internal/worker/pool.go:144-150 | with the queue open, enqueues at the end if fewer than 4·size jobs wait, or rejects if the context has fired, as the select chooses |
| WorkerPool.Pool.Stop | internal/worker/pool.go:153-155 | closes the queue, idempotently, and changes nothing else |
| WorkerPool.Pool.Cancel | internal/worker/pool.go:142-150 | the context fires; nothing else changes |
| WorkerPool.Pool.CountResult | internal/worker/pool.go:201-211 | adds the result to exactly one of the four cache counters |
| WorkerPool.Pool.CountOutcome | internal/worker/pool.go:214-227 | success, failure, or neither for a context ending |
| WorkerPool.Pool.Record | cmd/report.go:118-157 | appends exactly the failures that the pool counts, if capturing |
| WorkerPool.Pool.RunSection | internal/worker/pool.go:176-242 | each atomic section of a worker changes queue, worker, counters and failure list as the machine's step |
| WorkerPool.Pool.Advance | internal/worker/pool.go:176-242 | the same together with the accounting, so that the conservation laws are about this object |
| Combos.DigitsAreIndex | cmd/main.go:486-502 | mixed-radix digits are in range and determine their number |
| Combos.RankInRange | cmd/main.go:486-502 | every choice of one index per axis is the digits of exactly one number below the product |
| Combos.DigitsLexicographic | cmd/main.go:486-502 | counting up walks through the choices in lexicographic order |
| Combos.CombosInOrder | cmd/main.go:486-502 | the k-th visit sees on each axis the value at the k-th choice of indices in lexicographic order |
| Combos.CombosAreTheProduct | cmd/main.go:484-485 | the combinations are exactly the choices of one value per axis |
| Combos.CallsMadeMeaning | cmd/main.go:484-485 | the calls end with the first refusal, or go through |
| Combos.Enumerator.constructor | cmd/main.go:487-488 | a fresh buffer with one place per axis |
| Combos.Enumerator.CallBack | cmd/main.go:490-492 | a call sees the buffer as it then is, and its answer decides |
| Combos.Enumerator.Rec | cmd/main.go:488-500 | the closure calls back, in order and through the shared buffer, on every combination behind the buffer's current prefix until a refusal; the prefix is restored |
| Combos.Enumerator.Branch | cmd/main.go:493-498 | one value of one axis: the same behind the longer prefix |
| Combos.Enumerator.ForEach | cmd/main.go:486-502 | the callback sees the cartesian product in lexicographic order, cut off right after its first refusal |
| Sampling.StrideIsExact | cmd/plan.go:126-128 | in exact arithmetic the computed index is floor(i·n/keep) |
| Sampling.StridesAdvance | cmd/plan.go:126-131 | strides never reach the last URL, so the clamp is dead, and advance by floor(n/keep) or ceil(n/keep) |
| Sampling.StridesIncrease | cmd/plan.go:126-132 | no URL position is taken twice |
| Sampling.StridesBelow | cmd/plan.go:126-132 | of the first p positions exactly those of the first ceil(p·keep/n) strides are taken |
| Sampling.KeepCount | cmd/plan.go:115-119 | the kept number is the percentage rounded down, but at least 1 |
| Sampling.StridedAt | cmd/plan.go:126-133 | the i-th URL of the sample is the one at the i-th stride |
| Sampling.StridedSample | cmd/plan.go:123-134 | a stride sample is a subsequence of exactly keep URLs and takes ceil(p·keep/n) of p leading ones |
| Sampling.PrioritySurvivesIff | cmd/plan.go:38-40 | the first p of n URLs all survive a stride sample if and only if p·(n−keep) < n |
| Sampling.PriorityKeptIff | cmd/plan.go:38-44 | how many priority URLs survive ordering plus non-random sampling, and exactly when all do |
| Sampling.RandomKeepsPriorityIff | cmd/plan.go:38-44 | a random sample that drops something keeps all priority URLs for every draw if and only if there are none |
| Sampling.PriorityUrlDropped | cmd/plan.go:38-40 | a list of which 50 percent sampling drops one of two priority URLs |
| Sampling.PrioritisedFacts | cmd/plan.go:162-184 | the priority order is a permutation with the priority URLs in front, each part in its original order |
| Sampling.ApplyPriority | cmd/plan.go:164-184 | the loops compute the stable partition: the priority URLs in their order, then the others in theirs; without the option or any pattern nothing moves |
| Sampling.SampleStride | cmd/plan.go:123-134 | the loop computes the stride sample |
| Sampling.DrawDistinct | cmd/plan.go:141-149 | the loop keeps the first keep different positions drawn |
| Sampling.FirstPositions | cmd/plan.go:152-157 | every URL is mapped to its first position |
| Sampling.SortByPosition | cmd/plan.go:150-158 | the picks come back as a permutation in the order of their first positions |
| Sampling.SampleRandom | cmd/plan.go:136-159 | exactly the URLs at the positions drawn, back in the order of the list; for distinct URLs a subsequence |
| Sampling.SamplePercent | cmd/plan.go:115-160 | all URLs, or exactly keep of them, the stride sample unless random |
| Sampling.ApplySampling | cmd/plan.go:102-110 | percent wins over first_n, which is a prefix; the result has the advertised size and keeps the order of distinct URLs |
| Planner.CountIsSaturatedProduct | cmd/plan.go:79-97 | with no empty axis the count is the number of combinations, saturated; with one it is 0 if and only if the axes in front of it are in range |
| Planner.EmptyAxisHidden | cmd/plan.go:79-97 | a list of axes without combinations that `comboCount`, taken alone, counts as MaxInt |
| Planner.ComboCount | cmd/plan.go:82-97 | the division test alone keeps every intermediate in range and yields that count |
| Planner.BuildApplicable | cmd/main.go:473-482 | fails exactly if some axis has no applicable value, and else lists all applicable ones per axis |
| Planner.EveryAxisHasValue | cmd/main.go:473-482 | a URL passes exactly if some value applies on every axis |
| Planner.ApplicableValues | internal/config/config.go:192-200 | exactly the applicable values of one axis, in order and multiplicity |
| Planner.PlanRun | cmd/plan.go:33-77 | the plan lists exactly the sampled URLs that no reason excludes, with matching arrays, and fails exactly if the wrapped total exceeds the limit and the run is not forced |
| Planner.PlanSampled | cmd/plan.go:52-68 | the loop over the sampled URLs |
| Planner.AddUrl | cmd/plan.go:52-67 | one round lists the URL or counts it under one reason |
| Planner.PlanAccounting | cmd/plan.go:17-27 | original = planned + skipped for lack of values + over the cap + sampled out |
| Planner.PlannedUrls | cmd/plan.go:52-67 | a URL is planned exactly if it was sampled, has an applicable value on every axis and, unless forced, no more combinations than the limit; a limit of MaxInt limits nothing |
| Planner.PlannedValues | cmd/plan.go:64 | for each planned URL and axis the plan holds exactly the applicable values, in order |
| Planner.PlanKeepsOrder | cmd/plan.go:38-44 | for distinct URLs, or without random sampling, the planned URLs follow the stable priority order |
| Planner.PlannedCounts | cmd/plan.go:58-65 | each planned count is the saturated number of combinations, positive, and within the per-URL limit unless forced |
| Planner.TotalAgainstJobs | cmd/plan.go:58-66 | the sum of the saturated counts never exceeds the number of jobs, and equals it below MaxInt |
| Planner.MaxJobsGuard | cmd/plan.go:66-75 | the run is refused exactly if it has more jobs than the limit, if and only if the sum of the counts is in range or exceeds the limit by more than it wraps around; with a limit of MaxInt, if and only if the plan stays within it |
| Planner.WrapDefeatsMaxJobs | cmd/plan.go:66-75 | two URLs whose total wraps to -2 and passes every limit |
| Planner.SlotItem | cmd/main.go:427-438 | the job in a URL's k-th slot is that URL with its k-th combination |
| Planner.JobsAreTheProduct | cmd/main.go:420-443 | the jobs are, for each planned URL, one for each choice of an applicable value on every axis, and no others |
| Planner.JobsArePlanned | cmd/main.go:431-437 | the same for the jobs that reach the pool: their URL and, axis by axis, their values |
| Planner.SubmitUrl | cmd/main.go:427-440 | one URL's combinations up to the inspection that finds the context fired |
| Planner.SubmitPlanJobs | cmd/main.go:420-443 | submits, in order, exactly the jobs in front of which the context has not fired, and returns their number |
| Planner.PrintDryRun | cmd/main.go:690-701 | lists exactly the jobs that an uncancelled submit goes through, in the same order |
| Planner.TotalJobsIsJobCount | cmd/plan.go:11-13 | while the total stays below MaxInt, TotalJobs is the number of those jobs |
| Planner.RunMatchesPlan | cmd/main.go:236-251 | end to end: a run whose producer goes through the plan and whose workers have exited has submitted a prefix of the dry run's jobs; uncancelled it has processed exactly these, that is every planned URL with every choice of applicable values, TotalJobs of them, each ending as success, failure or context ending |
| Sequences.FirstOccurrencesFacts | cmd/main.go:643-654 | deduplication keeps the same elements, none twice, in the order in which they first appear |
| Sitemap.Dedup | cmd/main.go:643-654 | the loop keeps exactly the first occurrences |
| Sitemap.AppendAllowed | cmd/main.go:348-352 | appends the pages that pass the filter, in order |
| Sitemap.PagesConcatenate | cmd/main.go:348-352 | the pages are those of one fetched sitemap after the other |
| Sitemap.PagesOfOne | cmd/main.go:348-352 | those of one sitemap are its allowed pages, in order |
| Sitemap.FetchKeepsWorklist | cmd/main.go:335-355 | fetching keeps the search invariant: soundness, breadth-first order and coverage of everything seen |
| Sitemap.SkipKeepsWorklist | cmd/main.go:335-339 | so does skipping a repeated entry |
| Sitemap.SearchComplete | cmd/main.go:334-358 | an empty queue means every reachable sitemap has been fetched, by non-decreasing shortest distance |
| Sitemap.CollectURLs | cmd/main.go:327-359 | ends on every graph, cyclic or not; succeeds exactly if every reachable sitemap can be fetched; has then fetched each once, in order of distance and at equal distance in the order of the index entries; returns exactly the allowed pages they list, in that order, first occurrences only |
| Sitemap.OnlyRootWithoutFollow | cmd/main.go:353-355 | without follow_index only the root is reachable |

## Left out

- TokenBuckets.TokenBucket.Wait: its count of sleeps is for a sole waiter at a constant rate; with several waiters the machine of critical sections bounds grants, not sleeps, since the source promises no fairness.
- Sampling.SampleRandom: that the generator eventually draws enough different positions is not modelled; the draws are a parameter.
- Planner.TotalJobsIsJobCount: a total of exactly MaxInt is excluded, since a single saturated count looks the same.
- Rounding of floats and of durations to nanoseconds.
- `BytesIn`, `TotalTime` and the other fields of a result; the per-job file, the summary's formatting, logs, progress and exit codes.
- `Pool.Wait`'s select, beyond its two outcomes: all workers exited, or the context fired first.
- Construction of requests and job inputs (`buildRequest`, `mergeCookies`, `buildJobInputs`), cache classification, configuration loading and validation: first-match scans, field checks and last-wins maps.
- HTTP transport, XML parsing and the cancellation of a fetch: a fetch is a map lookup.
- The wall clock going back, and goroutine scheduling beyond arbitrary interleaving.
