# A verified model of ActServe

ActServe serves robot policies: clients hand observations with deadlines to a scheduler, the scheduler
forms batches for an inference backend, and the resulting action chunks are buffered per robot session.
This project models four of its parts in Dafny and proves what they promise over whole runs, for every
input and every order of events.

* **The deadline scheduler** (`src/actserve/scheduler.py`, counters in `src/actserve/metrics.py`).
  `SchedulerState` is the state machine on values: one function per locked section (`Enqueue`, one turn of
  the worker, `Close`) and one for a backend's reply. The clock is a list of readings within a section, the
  estimator any function of the batch size, and the reply any list of chunks or an exception.
  `Run` is the state after any list of events. `SchedulerInvariants` and `SchedulerSafety` prove an inductive
  invariant of it; `SchedulerOutcomes`, `SchedulerRouting`, `SchedulerDraining`, `SchedulerFreshness`,
  `SchedulerAdmission`, `SchedulerVerdicts`, `SchedulerBatches`, `SchedulerChoices`, `SchedulerInversion`,
  `SchedulerWaiting`, `SchedulerSleeping` and `SchedulerPunctuality` hold the theorems about runs, told from the
  requests, the clock and the limits themselves; `SchedulerGathering` builds the runs that serve as
  witnesses. `Scheduler` is the object itself: envelopes that are updated in place, a heap, a pointer map, a
  sequence map and counters, whose methods are proved to do to the abstract state what the functions say, so that
  `OnTrack` ties every reachable object to a run.
* **The adapter residency planner** (`src/actserve/adapter_planner.py`): `AdapterPlanner`, the dynamic
  program as nested loops over a sparse table, with optimality, the tie-break and independence of the
  order of the demands. `Lexicographic` is Python's order on tuples and names.
* **The asynchronous action queue** (`src/actserve/action_queue.py`) and its producer/consumer loop
  (`src/actserve/async_benchmark.py`): `ActionQueue` (sections on values and the trace specification),
  `AsyncActionQueue` (the object), `ActionQueueMonitor` (sleepers, wake-ups and the refill slot) and
  `ControlLoop` (the closed loop under any schedule).
* **Percentiles and the learned latency estimate** (`src/actserve/integrations/http_json.py`,
  `src/actserve/integrations/smolvla.py`, `src/actserve/metrics.py`, `src/actserve/profiler.py`):
  `Statistics`, `LatencyEstimator`, `Metrics` and `Profiler`. The monotonicity of the estimate is what makes
  the scheduler's greedy batch the largest safe one (`EdfBatchIsLargestSafe`).

Each of the following holds only under a condition. The exact condition is proved, as an if-and-only-if, and each
failing side has a run that shows it.

* Session freshness needs the sequence check, and either coalescing or a capacity of one pending request
  (`OrderlyExactly`; the two runs are `UncheckedSequencesGoBack` and `UncoalescedSessionsGoBack`).
* The no-miss theorem needs `drop_unserviceable_requests` (`PunctualExactly`; `SlowRunIsLate`).
* No batch passes over a compatible request that sorts before one of its members: on every sorted queue exactly
  under `edf` or with batches of one (`NeverInvertsExactly`); over all runs exactly under `edf`, with batches of
  one, or with room for at most two pending requests (`RunsNeverInvertExactly`; `TightRunInverts`).
* After the batching wait nobody is retired exactly when the worker wakes before the deadline of every pending
  request and, where it drops, in time for each to be served alone (`WaitIsSafeExactly`, for any moment and any
  estimate at the wake-up). Under `edf`, or with room for one request only, this is a matter of the head of the
  queue alone. With requests stamped when they are received, no punctual wait of any run loses a request exactly
  when there is no batching window, or the guard is positive and the policy is `edf` or there is room for one
  request only (`WaitsKeepAllExactly`; `WaitMayLose`). The same holds of a sleep during which requests are turned
  away (`SleepsKeepAllExactly`; `SleepMayLose`).
* The planner's index list is the lexicographically least for every budget exactly when no adapter of zero
  size and zero benefit sorts before one with a benefit (`TieBreakExactly`).
* Claims of the refill slot minus finishes is 0 or 1 exactly while nobody finishes a refill that nobody
  holds (`OneSlotExactly`).
* `docs/ARCHITECTURE.md:63-65` says that a whole backend call fails when one action does not match its
  request. The code fails only the requests from the mismatch on, because the earlier ones are already
  resolved: the whole batch fails exactly when the backend raises, the reply has the wrong length or its first
  action does not match (`WholeBatchFailsExactly`), and `MismatchSparesEarlier` is a run in which the request before
  the mismatch completes. `RoutingFailsClosed` gives every outcome.

Conventions and assumptions: times are integers in nanoseconds; latencies, sizes, benefits and percentiles
are exact reals. A locked section is one atomic step, and so is `enqueue` with its `_accepting` check.
`batch_key` and the estimator are total functions and the estimator does not raise. Clients do not cancel
their futures. `heapq`, `sorted`, `max`, `statistics.quantiles` and `asyncio.Condition` are taken by their
contracts: minimum first, sorted permutation, inclusive deciles, atomic sections between awaits. A run may wake the
worker at any moment; whether it was notified is read off the run (`Asleep`).

## Model

| member | source | states |
|---|---|---|
| SchedulerSafety.StepKeepsInv | src/actserve/scheduler.py:93-311 | every section and every reply keeps the invariant: sorted heap with all pending requests, exact pointers, truthful counters, one phase per request, fresh dispatch log |
| SchedulerSafety.RunIsSound | src/actserve/scheduler.py:93-311 | every state reached by any list of sections and replies satisfies the invariant |
| SchedulerSafety.SweepEffect | src/actserve/scheduler.py:313-347 | a sweep resolves exactly the listed pending requests whose deadline lies before the cutoff and touches no other |
| SchedulerSafety.CleanUpEffect | src/actserve/scheduler.py:174-176 | the clean-up passes of a turn expire or drop exactly the pending requests whose deadlines ask for it and touch no other |
| SchedulerSafety.TakeBatchKeepsInv | src/actserve/scheduler.py:205-243 | taking a batch moves its requests from the queue to the flight and keeps the invariant |
| SchedulerOutcomes.Conservation | src/actserve/scheduler.py:359-385 | in every reachable state submitted = live pending + in flight + the sum of all status counts, dispatched = completed + missed + failed + in flight, and batch items = dispatched |
| SchedulerOutcomes.BatchesAreCalls | src/actserve/metrics.py:96-99 | in every run the batch counter is the number of wake-ups that started a backend call |
| SchedulerOutcomes.OutcomesAreFinal | src/actserve/scheduler.py:369-385 | an outcome, once set, is never changed by any later event of a run |
| SchedulerOutcomes.OutcomesAreTruthful | src/actserve/scheduler.py:270-297 | in every run an outcome with an action carries one whose request id, session, sequence number and model are those of the request; completed means on time, missed means late, and a late action is shown exactly if missed actions are kept |
| SchedulerOutcomes.RoutingFailsClosed | src/actserve/scheduler.py:256-311 | for any reply the outcomes of a batch are a delivered prefix and a failed suffix, and nobody else is touched; every delivered action agrees with its request in request id, session, sequence number and model, and the first of the suffix differs in one of them, unless the reply is an exception or has the wrong length, when the prefix is empty |
| SchedulerRouting.WholeBatchFailsExactly | src/actserve/scheduler.py:266-311 | the whole batch fails if and only if the backend raised, the reply has the wrong length, or its first action differs from the first request in request id, session, sequence number or model |
| SchedulerRouting.MismatchSparesEarlier | src/actserve/scheduler.py:270-281 | wherever two requests can share a batch there is a run in which the second action of a reply mismatches, the first request completes with its action and only the second fails |
| SchedulerOutcomes.NoDeadlineIsMissed | src/actserve/scheduler.py:205-347 | with dropping on, estimates for all sizes and replies by the predicted instant, no run yields a missed deadline, for batches of any size |
| SchedulerOutcomes.SelectIsSafe | src/actserve/scheduler.py:217-235 | every envelope that joins keeps the enlarged batch within prediction and guard of its earliest deadline |
| SchedulerPunctuality.PunctualExactly | src/actserve/scheduler.py:322-347 | a configuration never misses under punctual backends if and only if it drops unserviceable requests |
| SchedulerPunctuality.SlowRunIsLate | src/actserve/scheduler.py:330-331 | without dropping there is a run with a punctual backend that misses a deadline |
| SchedulerOutcomes.CloseCancels | src/actserve/scheduler.py:152-167 | closing stops admission; with cancellation it cancels exactly the pending requests and empties the queue, without it changes no request and not the queue |
| SchedulerOutcomes.ClosedDrains | src/actserve/scheduler.py:169-203 | after admission stops, further backend calls never exceed the pending requests, whatever else happens |
| SchedulerOutcomes.ClosedTurnProgresses | src/actserve/scheduler.py:173-200 | a turn of the closed scheduler past the dispatch time takes a batch, or returns when nothing is pending |
| SchedulerOutcomes.ReturnedResolvesAll | src/actserve/scheduler.py:177-179 | when the worker has returned, the heap is empty, nothing is in flight and every request has its outcome |
| SchedulerDraining.ClosedRunDrains | src/actserve/scheduler.py:152-203 | from any reachable closed state, any continuation with enough rounds, each holding a wake-up past the batching window and a reply among anything but a restart, ends with the worker returned, the queue empty and every request resolved |
| SchedulerFreshness.SessionsMoveForward | src/actserve/scheduler.py:105-149 | over any run of an orderly configuration the dispatched sequence numbers of each session strictly increase |
| SchedulerFreshness.OrderlyExactly | src/actserve/scheduler.py:105-149 | a configuration keeps all sessions moving forward if and only if it checks sequences and coalesces, or holds one request |
| SchedulerFreshness.DispatchedBatchIsFresh | src/actserve/scheduler.py:205-243 | every dispatched request is the latest admitted of its session and no batch holds two of one session |
| SchedulerFreshness.UncheckedSequencesGoBack | src/actserve/scheduler.py:109-116 | without the sequence check some run dispatches an older observation after a newer one |
| SchedulerFreshness.UncoalescedSessionsGoBack | src/actserve/scheduler.py:117-121 | without coalescing and with room for two, some run dispatches an older observation after a newer one |
| SchedulerVerdicts.OutOfOrderExactly | src/actserve/scheduler.py:105-116 | in every run a request is out of order if and only if the check is on and an earlier request of its model and session was admitted with a sequence number at least as large |
| SchedulerVerdicts.EnqueueVerdict | src/actserve/scheduler.py:93-150 | in every run, the exact effect of one enqueue told from the requests: out of order, overloaded (nothing of its session to replace and the queue full of requests that have not expired) or pending; every older request expires, is replaced by name under coalescing, or stays |
| SchedulerVerdicts.RunRemembers | src/actserve/scheduler.py:137 | in every reachable state the sequence map holds, for exactly the sessions with an admitted request, the number of the last one, the greatest with the check on |
| SchedulerVerdicts.DispatchedIsNewest | src/actserve/scheduler.py:105-149 | with the check, and coalescing or room for one, a request handed to the backend is ahead of every other request of its model and session ever admitted |
| SchedulerVerdicts.RestartAdmits | src/actserve/scheduler.py:82-86 | started again after its worker has returned, the scheduler keeps all outcomes and admits the next request, unless it is out of order |
| SchedulerAdmission.PendingIndexIsExact | src/actserve/scheduler.py:117-147 | under coalescing the session map is a bijection from (model, session) onto the pending requests in the heap |
| SchedulerAdmission.CapacityIsRespected | src/actserve/scheduler.py:123-148 | pending requests never exceed the capacity and the heap never exceeds them by more than one |
| SchedulerBatches.QueueIsInServiceOrder | src/actserve/scheduler.py:98-103 | in every reachable state the queue is ordered by deadline (or arrival), then higher priority, then submission |
| SchedulerBatches.BatchIsAdmissible | src/actserve/scheduler.py:210-237 | the batch is led by the head of the queue, respects both size limits and shares one batch key |
| SchedulerBatches.ChoicePartitionsQueue | src/actserve/scheduler.py:216-239 | batch plus remainder is the old live queue as a multiset |
| SchedulerBatches.EdfBatchHasNoInversion | src/actserve/scheduler.py:205-243 | under edf the batch is the queue minimum and the first compatible entries in order; every compatible entry left behind sorts after all selected ones |
| SchedulerInversion.NeverInvertsExactly | src/actserve/scheduler.py:99-102 | on every sorted queue of pending requests, whatever the backend, estimator and clock that does not go back, no batch passes over a compatible request that sorts before one of its members, if and only if the policy is edf or batches are limited to one |
| SchedulerInversion.RunsNeverInvertExactly | src/actserve/scheduler.py:205-243 | over all runs no batch does so if and only if the policy is edf, or batches are limited to one, or at most two requests may be pending |
| SchedulerInversion.TightRunInverts | src/actserve/scheduler.py:217-237 | every other configuration has a run in which the second of three compatible requests is passed over for the third |
| SchedulerInversion.ReachableBatchSplitsQueue | src/actserve/scheduler.py:173-243 | in every run a wake-up that calls the backend splits the cleaned queue into the batch, led by its head, and the new queue; under edf the batch is the head and the first compatible ones and nobody compatible is passed over |
| SchedulerInversion.ReachableBatchIsLargestSafe | src/actserve/scheduler.py:173-243 | in every run under edf, with a standing clock and the estimate learned from any history of measurements, the batch is the largest safe one up to the compatible requests, the backend limit and the configured limit |
| SchedulerBatches.EdfBatchIsLargestSafe | src/actserve/scheduler.py:212-236 | with a standing clock and the learned estimate the edf batch size is the greatest k up to the number compatible, the backend limit and the configured limit whose prediction and guard meet the earliest deadline |
| SchedulerChoices.NobodyIsLeftWithoutReason | src/actserve/scheduler.py:217-237 | in every run and under any policy, a compatible request that is left out has its place among the batch by queue order, and those before it left no room within the limits, or with it the prediction and guard go beyond its deadline or one of theirs |
| SchedulerChoices.BatchIsFullWithoutEstimates | src/actserve/scheduler.py:212-237 | in every run and under any policy, without estimates a compatible request is left out only behind the whole batch, and only when the batch has reached the backend limit or the configured one |
| SchedulerChoices.PredictedInstant | src/actserve/scheduler.py:217-235 | the instant that the no-miss theorem takes a reply to be due by is a clock reading of the wake-up plus the prediction for the size of the batch plus the guard |
| SchedulerWaiting.DispatchTimeExactly | src/actserve/scheduler.py:183-200 | in every run a wake-up with a queue calls the backend if and only if the head has waited for the batching window or has no more than guard and prediction left before its deadline; otherwise the worker waits for the earlier of the two |
| SchedulerWaiting.WakeVerdict | src/actserve/scheduler.py:169-243 | the exact verdict of a wake-up on every request of every run: untouched, expired, dropped, handed over in the batch, or left in the queue because the leader goes first or it is not yet time for the head, nor, where the head has the earliest deadline, for this request |
| SchedulerWaiting.PlannedWaitIsSafe | src/actserve/scheduler.py:183-191 | under edf, or with room for one, the planned wake-up leaves guard and prediction before the deadline of every pending request |
| SchedulerWaiting.WaitLosesNobody | src/actserve/scheduler.py:192-199 | under edf, or with room for one, a wake-up not after the planned instant neither expires nor drops anybody when guard plus prediction is positive |
| SchedulerWaiting.WaitIsSafeExactly | src/actserve/scheduler.py:188-199 | after a wait, under any policy and for any clock and estimate at the wake-up, nobody is retired if and only if the clock is before every pending deadline and, where the configuration drops, leaves each its prediction and guard; under edf, or with room for one, if and only if this holds of the head |
| SchedulerWaiting.WaitsKeepAllExactly | src/actserve/scheduler.py:173-200 | with truthful stamps no punctual wait of any run loses a request if and only if there is no batching window, or the guard is positive and the policy is edf or there is room for one request only |
| SchedulerWaiting.WaitMayLose | src/actserve/scheduler.py:188-199 | every other configuration has a run of truthfully stamped arrivals at whose end a punctual wake-up finds a request expired |
| SchedulerSleeping.SleepIsExplained | src/actserve/scheduler.py:149-200 | in every run a worker asleep that nobody has notified since its last wake-up either sleeps for good, open and with nothing pending, or until the dispatch time of a request that sorts before all that is pending |
| SchedulerSleeping.WorkComesNotified | src/actserve/scheduler.py:93-150 | a worker that sleeps for good gets work from a call of enqueue if and only if the call notifies it |
| SchedulerSleeping.SleepLeavesReserve | src/actserve/scheduler.py:188-199 | in every run under edf, or with room for one, a worker asleep until an instant leaves guard and prediction before every pending deadline, whoever was turned away meanwhile |
| SchedulerSleeping.SleepLosesNobody | src/actserve/scheduler.py:173-199 | under edf, or with room for one, a punctual wake-up from any sleep with a positive reserve retires nobody |
| SchedulerSleeping.SleepsKeepAllExactly | src/actserve/scheduler.py:149-200 | with truthful stamps no sleep of any run, interrupted in vain or not, costs a request its service when it ends punctually, if and only if there is no batching window, or the guard is positive and the policy is edf or there is room for one request only |
| SchedulerSleeping.SleepMayLose | src/actserve/scheduler.py:188-199 | every other configuration has a run at whose end a worker asleep wakes punctually and finds a request expired |
| SchedulerScan.BatchLeavesRest | src/actserve/scheduler.py:216-239 | what the scan sets aside is exactly the compacted queue after the batch is dispatched |
| Scheduler.DeadlineScheduler.Finish | src/actserve/scheduler.py:359-385 | resolves a future once, counts its outcome, and does nothing to a resolved one |
| Scheduler.DeadlineScheduler.ClearSessionPointer | src/actserve/scheduler.py:354-357 | removes the session pointer exactly when it names this envelope |
| Scheduler.DeadlineScheduler.RemoveInactiveLocked | src/actserve/scheduler.py:349-352 | the heap keeps exactly its active envelopes, in order |
| Scheduler.DeadlineScheduler.SweepLocked | src/actserve/scheduler.py:313-347 | the loop over the heap retires in place what the sweep on the abstract state retires |
| Scheduler.DeadlineScheduler.ExpireRequestsLocked | src/actserve/scheduler.py:313-320 | expires the pending requests whose deadline is not after now, and compacts |
| Scheduler.DeadlineScheduler.DropUnserviceableRequestsLocked | src/actserve/scheduler.py:322-347 | drops the pending requests that prediction and guard cannot serve, if configured and predicted |
| Scheduler.DeadlineScheduler.EnqueueLocked | src/actserve/scheduler.py:93-150 | the in-place section does to the abstract state what the admission function says, and returns the new future |
| Scheduler.DeadlineScheduler.FindPrevious | src/actserve/scheduler.py:117-121 | finds the active, undispatched request that the session pointer names, under coalescing only |
| Scheduler.DeadlineScheduler.AcceptLocked | src/actserve/scheduler.py:117-149 | clean-up, capacity, replacement and admission in place, for a previous request found before the clean-up |
| Scheduler.DeadlineScheduler.TakeBatchLocked | src/actserve/scheduler.py:205-243 | the popping scan with push-back computes the batch of the specification and leaves its queue |
| Scheduler.DeadlineScheduler.ScanNext | src/actserve/scheduler.py:217-237 | one popped envelope is skipped, selected and dispatched, or set aside, as the admission test says |
| Scheduler.DeadlineScheduler.PushBack | src/actserve/scheduler.py:238-239 | pushing the remaining envelopes one by one restores them in order |
| Scheduler.DeadlineScheduler.DecideTurn | src/actserve/scheduler.py:177-200 | on the cleaned queue the worker returns, waits until the dispatch time, or takes a batch |
| Scheduler.DeadlineScheduler.RunTurn | src/actserve/scheduler.py:173-200 | one turn of the inner loop, from the three clean-up passes to the decision |
| Scheduler.DeadlineScheduler.DeliverBatch | src/actserve/scheduler.py:270-297 | hands out matching actions until the first mismatch and fails what is left |
| Scheduler.DeadlineScheduler.FailBatch | src/actserve/scheduler.py:304-311 | fails every unresolved request of the batch |
| Scheduler.DeadlineScheduler.SettleBatch | src/actserve/scheduler.py:256-311 | the reply, of the right length or not, settles the batch as specified |
| Scheduler.DeadlineScheduler.CloseLocked | src/actserve/scheduler.py:152-165 | stops admission and, on request, cancels and empties the queue; does nothing once the worker is gone |
| Scheduler.DeadlineScheduler.Enqueue | src/actserve/scheduler.py:93-150 | the object stays on the track of its run; the call raises exactly when the scheduler is not accepting |
| Scheduler.DeadlineScheduler.Turn | src/actserve/scheduler.py:169-203 | the object stays on the track of its run; the batch returned is the one in flight |
| Scheduler.DeadlineScheduler.Execute | src/actserve/scheduler.py:256-311 | the object stays on the track of its run |
| Scheduler.DeadlineScheduler.Close | src/actserve/scheduler.py:152-165 | the object stays on the track of its run |
| Scheduler.DeadlineScheduler.CountersAddUp | src/actserve/metrics.py:82-112 | the counters of every reachable object satisfy both conservation laws |
| Metrics.SchedulerMetrics.RecordSubmit | src/actserve/metrics.py:93-94 | counts one submission and nothing else |
| Metrics.SchedulerMetrics.RecordDispatch | src/actserve/metrics.py:96-99 | counts one batch and its items and nothing else |
| Metrics.SchedulerMetrics.RecordOutcome | src/actserve/metrics.py:101-112 | counts the status and nothing else, and keeps the first samples of queueing and, for dispatched statuses, end-to-end time: spans of nanoseconds told in milliseconds |
| Statistics.PercentileIsWithinSamples | src/actserve/metrics.py:10-20 | a percentile lies between two samples |
| Statistics.PercentileCoversItsShare | src/actserve/metrics.py:10-20 | at least floor((n - 1) p) + 1 samples do not exceed the percentile |
| Statistics.PercentileExactly | src/actserve/metrics.py:10-20 | for any ascending arrangement of the samples and h = (n - 1) p, the percentile is the sample of rank floor(h) plus the fraction of h of the step to the next |
| Statistics.MedianIsTheMiddle | src/actserve/metrics.py:10-20 | the 0.5 percentile of an odd number of samples is the middle one |
| Statistics.PercentileIgnoresOrder | src/actserve/metrics.py:11 | the percentile does not depend on the order of the samples |
| Statistics.InterpolatedIsMonotone | src/actserve/profiler.py:13-22 | the interpolated percentile is monotone in the percentage |
| Statistics.SnapshotIsOrdered | src/actserve/profiler.py:117-131 | min <= p50 <= p95 <= p99 <= max |
| Profiler.StageProfiler.Observe | src/actserve/profiler.py:87-97 | keeps the first `sample_limit` observations per (name, unit) and rejects empty names and units |
| Profiler.StageProfiler.Snapshot | src/actserve/profiler.py:110-135 | one metric per observed key, in key order, with ordered figures of exactly its kept samples |
| Profiler.Describe | src/actserve/profiler.py:117-131 | count, total, mean, extremes and percentiles of one key |
| LatencyEstimator.WindowsAreTheLastSamples | src/actserve/integrations/http_json.py:55-57 | after any history the window of a size is exactly the last `latency_window` measurements of that size |
| LatencyEstimator.NinthDecileIsPercentile | src/actserve/integrations/http_json.py:86-90 | the inclusive ninth decile is the 0.9 percentile of the same samples |
| LatencyEstimator.EstimateExists | src/actserve/integrations/http_json.py:79-100 | there is an estimate for all sizes or for none: for all exactly with a floor or a sample |
| LatencyEstimator.EstimateCovers | src/actserve/integrations/http_json.py:91-100 | the estimate is at least the floor, if there is one; for every window with samples it is at least the decile times the safety factor, and times the measured size at least the batch size times that |
| LatencyEstimator.EstimateIsAttained | src/actserve/integrations/http_json.py:93-99 | and it is one of these figures: the floor, or for some window the decile times the factor, as it is or in proportion to the batch size |
| LatencyEstimator.EstimateIsMonotone | src/actserve/integrations/http_json.py:79-100 | a larger batch is never predicted faster |
| LatencyEstimator.EstimateIsSubadditive | src/actserve/integrations/smolvla.py:140-160 | a merged batch is never predicted slower than its two parts in turn |
| LatencyEstimator.EstimateCoversOwnWindow | src/actserve/integrations/smolvla.py:140-160 | a measured size is predicted at least the safety factor times the decile of its own window |
| LatencyEstimator.PredictedNsIsMonotone | src/actserve/scheduler.py:245-254 | truncation to nanoseconds keeps the estimate monotone and present for all sizes or none |
| LatencyEstimator.PredictedNsTruncates | src/actserve/scheduler.py:245-254 | the prediction n in nanoseconds of an estimate e in milliseconds satisfies n <= 1000000 e < n + 1, and exists exactly with the estimate |
| LatencyEstimator.AdaptiveLatency.RecordLatency | src/actserve/integrations/http_json.py:129-130 | appends a measurement to the bounded window of its size |
| LatencyEstimator.AdaptiveLatency.EstimateBatchLatencyMs | src/actserve/integrations/http_json.py:79-100 | the loop over the windows computes the estimate; sizes below one are rejected |
| AdapterPlanner.PlanAdapterResidency | src/actserve/adapter_planner.py:51-92 | rejects a negative budget, then duplicate names, and otherwise returns the optimal plan with its tie-break |
| AdapterPlanner.AddAdapter | src/actserve/adapter_planner.py:67-76 | one inner loop, over the states in any order, merges every offer with its incumbent |
| AdapterPlanner.TableGrows | src/actserve/adapter_planner.py:63-76 | the table holds, per exact rounded size, a most valuable selection and among the lean ones the least index list |
| AdapterPlanner.BestState | src/actserve/adapter_planner.py:78-81 | picks most benefit, then least memory |
| AdapterPlanner.PlanIsOptimal | src/actserve/adapter_planner.py:61-92 | the plan takes some of the demands, in name order; its figures are the sums of requests times cold load and of the sizes over them; it fits the budget; no subset of the demands whose sizes, rounded up one by one, fit the whole mebibytes of the budget is worth more, and none worth as much needs less rounded memory |
| AdapterPlanner.ChosenIsUnique | src/actserve/adapter_planner.py:78-81 | benefit, memory and index list leave no tie |
| AdapterPlanner.PlanIgnoresOrder | src/actserve/adapter_planner.py:62 | the whole plan is the same for every permutation of the demands |
| AdapterPlanner.ExcludedAreTheOthers | src/actserve/adapter_planner.py:82-91 | the excluded names are exactly those not selected, in name order |
| AdapterPlanner.LexLeastExactly | src/actserve/adapter_planner.py:95-100 | a plan is the least index list of its benefit and memory if and only if no adapter of size zero and without requests or load time sorts before a selected one |
| AdapterPlanner.TieBreakExactly | src/actserve/adapter_planner.py:62-81 | it is so for every budget if and only if no adapter of size zero and without requests or load time sorts before one with both; in particular with positive sizes |
| Lexicographic.NameOrderExactly | src/actserve/adapter_planner.py:62 | names are ordered by their first differing character, a proper prefix first |
| ActionQueue.TraceIsExplained | src/actserve/action_queue.py:214-258 | the served actions are the concatenation of one prefix of the actions of each accepted chunk in order, the buffer that of the remainders; chunks are used up one after another |
| ActionQueue.ItemsAreAuthentic | src/actserve/action_queue.py:232-243 | in every run each served or waiting item is the action of an accepted chunk at its own index, with the names, size and time of that chunk, and accepted sequence numbers rise |
| ActionQueue.PublishVerdict | src/actserve/action_queue.py:214-248 | in every run a chunk is accepted by an open queue if and only if it is for the session and model, has actions and is newer than all accepted before; then all its actions join in order, behind what waited or in its place; otherwise only the rejection is counted |
| ActionQueue.ClaimVerdict | src/actserve/action_queue.py:110-149 | in every run a claim takes the refill slot if and only if it is free, the queue is open and at most the low watermark waits, and changes nothing else |
| ActionQueue.CallsAddUp | src/actserve/action_queue.py:155-248 | in every run accepted plus rejected is the number of publications on an open queue, and served plus underruns the number of calls for an action that were not refused for being closed |
| ActionQueue.RunIsConsistent | src/actserve/action_queue.py:214-258 | accepted actions = served + replaced + remaining; append loses nothing; replace buffers a suffix of the latest chunk; (sequence_no, chunk_index) strictly increases |
| ActionQueueMonitor.NoLostWakeups | src/actserve/action_queue.py:118-163 | a sleeping getter implies an empty open queue and a sleeping refiller an open queue that needs no refill |
| ActionQueueMonitor.WaitersAreKnown | src/actserve/action_queue.py:137-163 | in every run a caller whose last pass had to wait either sleeps still or has been woken and is about to look again |
| ActionQueueMonitor.OneSlotExactly | src/actserve/action_queue.py:126-149 | claims minus finishes is 0 or 1 and tells whether the slot is taken if and only if nobody finishes a refill that nobody holds |
| ActionQueueMonitor.MonitorRunsAreQueueRuns | src/actserve/action_queue.py:118-198 | every run with sleepers and timeouts is a run of queue sections |
| AsyncActionQueue.AsyncQueue.PutLocked | src/actserve/action_queue.py:214-248 | raises on a closed queue; rejects misrouted, stale and empty chunks; otherwise hands off by policy, in place |
| AsyncActionQueue.AsyncQueue.PutChunk | src/actserve/action_queue.py:118-124 | publishes and notifies, or raises on a closed queue |
| AsyncActionQueue.AsyncQueue.FinishRefillWith | src/actserve/action_queue.py:126-135 | publishes, releases the slot and notifies; raising on a closed queue leaves the slot taken |
| AsyncActionQueue.AsyncQueue.TryAcquireRefill | src/actserve/action_queue.py:137-149 | claims the slot exactly at low water on an open queue with a free slot |
| AsyncActionQueue.AsyncQueue.PopLocked | src/actserve/action_queue.py:254-258 | takes and counts the first action |
| AsyncActionQueue.AsyncQueue.TryGet | src/actserve/action_queue.py:155-163 | takes an action and notifies, raises on a closed queue, or has to wait |
| AsyncActionQueue.AsyncQueue.GiveUp | src/actserve/action_queue.py:170-173 | a timeout counts one underrun |
| AsyncActionQueue.AsyncQueue.GetOrFail | src/actserve/action_queue.py:179-189 | takes an action, raises on a closed queue, or counts an underrun |
| AsyncActionQueue.AsyncQueue.Close | src/actserve/action_queue.py:195-198 | closes and notifies |
| ControlLoop.LoopExecutesTheScript | src/actserve/async_benchmark.py:62-102 | under any schedule the executed actions are a prefix of the script, the i-th is number i modulo the chunk size of chunk i / chunk size, the buffer stays within low watermark plus one chunk, and an exit means all chunks * chunk_size actions, once and in order |
| ControlLoop.NeverStuck | src/actserve/async_benchmark.py:62-99 | in no reachable unfinished state are both sides stuck |
| ControlLoop.MovesCountDown | src/actserve/async_benchmark.py:62-99 | every effective move lowers the remaining work by one |
| ControlLoop.ClosedLoopCompletes | src/actserve/async_benchmark.py:86-102 | every fair schedule of 2 * chunks + chunks * chunk_size rounds executes the whole script |
| ControlLoop.ProduceOnce | src/actserve/async_benchmark.py:62-78 | one move of the producer: it claims, stays blocked, publishes, or has returned |
| ControlLoop.AwaitProducer | src/actserve/async_benchmark.py:101 | once the consumer is done, awaiting the producer ends, with every chunk published |
| ControlLoop.RunAsynchronous | src/actserve/async_benchmark.py:46-110 | the loop over the queue object mirrors the schedule, finishes exactly when all actions are executed, and leaves a closed queue that served the whole script |

## Left out

- The HTTP, torch and LeRobot calls, thread executors and request payloads: a backend is any reply and any estimator.
- Command lines, JSON files, Prometheus text, GPU sampling, replay output and wall-clock benchmarks: input and output only.
- Profiler hooks inside the scheduler and the queue, and the metadata profile of actions: observers only.
- Floating-point rounding: reals are exact, and a profile value that is not finite does not occur.
- The check of `get` that a given timeout is positive: it raises before the queue is touched.
- A concrete binary heap: the heap field is a list in sort order, so heap order inside the list and its cost are not captured.
- Scheduler.DeadlineScheduler.Close: ends before it waits for the worker; the worker is its turns, and that these end is SchedulerDraining.ClosedRunDrains.
- The asyncio handle of the worker: a flag says whether it runs, and starting again after it has returned is one step.
- `completed_ns or time.monotonic_ns()`: a completion time of exactly zero would be replaced by another clock reading.
- Error texts of outcomes, and the observation and metadata of requests: nothing depends on them.
- The snapshot of the scheduler metrics with its rates: simple quotients of the counters that are proved conserved.
- The construction checks of configurations, demands and settings: they are the `Valid` predicates, stated once.
- The synchronous loop of the benchmark, the serial benchmark, the training profiler and batch slicing: easy members.
- LatencyEstimator.AdaptiveLatency.RecordLatency: the windows are a list of sizes and a map, so the iteration order is that of first measurement.
- The numbered request ids and the times of the synthetic chunks: constants, since nothing in the loop depends on them.
- ControlLoop.RunAsynchronous: sleeps are the choice of the schedule, so ticks and inference times have no length and the result has no wall time.
