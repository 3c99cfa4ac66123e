# A verified model of the scx-slam-fresh workloads

The repository drives an external scheduler with per-job hints and measures what comes of it. This
project models its hard parts in Dafny and proves what they promise, for all inputs, runs and
interleavings:

- **the executor** (`Executor*.dfy`): the dispatcher/worker protocol of `FreshnessExecutor::spin` as a
  transition system, one atomic action per critical section, sink call or call into foreign code.
  `ExecutorProofs` holds the invariant, `ExecutorSteps` the lemmas per action, `ExecutorTheorems`,
  `ExecutorHints` (what is published, and what becomes of exceptions) and `ExecutorTermination` the results;
- **the EDF simulator** (`Edf.dfy`) behind the feasibility claim, for any task list;
- **the timeline analysis** (`Timeline.dfy`, `TimelineAnalysis.dfy`): the two-pointer sweep against a
  pointwise specification of state and occupant, and in `TimelineMeaning.dfy` what the states, totals and
  verdicts mean, said of the event list alone;
- **the dependent graph and its workload** (`Graph.dfy`, `GraphProofs.dfy`, `GraphCalls.dfy`, `Workload.dfy`);
- **the queue and the fixed-window accounting** of the older demo (`WindowQueue.dfy`, `WindowLedger.dfy`,
  `CpuBounds.dfy`);
- **source-opportunity accounting** of the three-stage ROS chain (`Opportunities.dfy`).

State that the source updates in place is a class whose methods are proved against pure functions; the
theorems are about runs of those functions. Where several threads interleave, a run is any sequence of
enabled steps.

Clock readings, results of foreign calls (readiness, takes, extractors, observers, callbacks, sinks) and
the instants at which worker threads finish are parameters or nondeterministic choices. Assumed: the
monotonic and CPU clocks never decrease, callbacks return or throw, `return_message` does not throw, and a
sink call that throws leaves the worker's hint slot as it was.

Two promises hold only under a condition, which is proved to be exact. A woken consumer's hint can name
an item that a later push evicted (`WokenHintIsHeadIff`, with the runs in `WokenHintCanBeLost`). The
printed unfinished count is exact when the opportunities the audit has yet to offer and the drops an
observer has yet to pass on are equally many, and otherwise only in the case `ReportExactIff` names;
`AuditLagMisreports` and `ObserverLagMisreports` show a wrong one for each kind of lag.

`dafny verify dfyconfig.toml` checks everything.

## Model

| member | source | states |
|---|---|---|
| `Executor.ExpiryIsAgeBound` | ros2/scx_slam_executor/src/freshness_executor.cpp:213-231 | work made from a profile is expired at a 64-bit instant iff its age exceeds a nonzero relative deadline or a nonzero stale bound: the saturating addition and the zero that means "no deadline" never change the decision |
| `ExecutorHints.PublishedHints` | ros2/scx_slam_executor/src/freshness_executor.cpp:193-220 | on every run every published hint carries the stage, class, stale bound, budget, slice and weight of the profile bound to its executable, the job id and release time its metadata or the executor gave it, and the deadline these make, saturating |
| `ExecutorHints.StampedInOrder` | ros2/scx_slam_executor/src/freshness_executor.cpp:203-212 | on every run executables without an extractor get the job ids 1, 2, 3 and so on in dispatch order, with the clock reading as release |
| `ExecutorHints.EarlyDropIff` | ros2/scx_slam_executor/src/freshness_executor.cpp:477-491 | on every run the dispatcher drops early exactly the messages whose profile rejects expired ones and that are past their deadline or stale bound at its check; none of these is published |
| `ExecutorHints.EverySelectionObserved` | ros2/scx_slam_executor/src/freshness_executor.cpp:484-487 | on every run the reported selections are those of the described messages whose binding has an observer |
| `ExecutorHints.LeavesIff` | ros2/scx_slam_executor/src/freshness_executor.cpp:430-513 | the dispatcher leaves its loop exactly when it found the context invalid or the executor cancelled, or has cleaned up after an exception; failed takes, early drops and empty selections go on |
| `ExecutorHints.RethrowsIff` | ros2/scx_slam_executor/src/freshness_executor.cpp:511-534 | when spin is over, the dispatcher has an exception to rethrow exactly if it met one, and the worker exactly if it did |
| `ExecutorSteps.DispatcherKeepsInv` | ros2/scx_slam_executor/src/freshness_executor.cpp:420-527 | every dispatcher step, on every branch (failed take, bad metadata, observer exception, early expiry, failing sink, cancellation, final clear), keeps the invariant on flags, hint slot, sink history, resources and observer events |
| `ExecutorSteps.WorkerKeepsInv` | ros2/scx_slam_executor/src/freshness_executor.cpp:353-418 | every worker step (late expiry, callback return or throw, cleanup, failing clear, error publication) keeps the same invariant |
| `ExecutorTheorems.RunKeepsInv` | ros2/scx_slam_executor/src/freshness_executor.cpp:353-527 | the invariant holds after every interleaving of dispatcher, worker and cancellation steps |
| `ExecutorTheorems.HintOwnership` | ros2/scx_slam_executor/src/freshness_executor.cpp:363-403 | from handoff until the worker has parked again, through the callback, the destruction of the work and the parking step itself, the worker's hint slot holds the item's hint and no step of either thread publishes, clears or hands over, except the worker's own clear after the item's message and group were given back; only that clear and the parking step end this |
| `ExecutorTheorems.PublishFindsParkedWorker` | ros2/scx_slam_executor/src/freshness_executor.cpp:430-508 | whenever the dispatcher publishes or hands over, the worker is parked and idle, owns no item and no stop or error is set |
| `ExecutorTheorems.ExactlyOnce` | ros2/scx_slam_executor/src/freshness_executor.cpp:143-151 | in every reachable state a created message is with the pool or with exactly one of the dispatcher's work, the pending slot and the worker's work, likewise each message-aware callback group; when spin is over each was returned or released exactly once |
| `ExecutorTheorems.Shutdown` | ros2/scx_slam_executor/src/freshness_executor.cpp:515-527 | when spin is over, everything handed over was finished, in order, and without a failing sink the sink saw the publications in handoff order followed by exactly one clear, or nothing at all |
| `ExecutorTheorems.BlockedDispatcherHasWorker` | ros2/scx_slam_executor/src/freshness_executor.cpp:423-442 | whenever the dispatcher is asleep or joining, the worker is neither asleep nor gone and has an enabled step: no wake-up is lost |
| `ExecutorTheorems.WorkerUnblocksDispatcher` | ros2/scx_slam_executor/src/freshness_executor.cpp:363-418 | each such worker step unblocks the dispatcher or brings the worker strictly closer to doing so, whatever sink, observer and callback do |
| `ExecutorTermination.NeverStuck` | ros2/scx_slam_executor/src/freshness_executor.cpp:353-527 | in every reachable state before the end one of the threads has an enabled step other than a spurious wake-up |
| `ExecutorTermination.CancelledSpinEnds` | ros2/scx_slam_executor/src/freshness_executor.cpp:430-527 | once spinning is false it stays so, and however the threads go on they take at most a fixed number of steps, computed from the two program counters and the pending slot, plus one for each spurious wake-up |
| `ExecutorTermination.StoppedRunIsDone` | ros2/scx_slam_executor/src/freshness_executor.cpp:515-527 | a run that neither thread can carry on has ended with the dispatcher done |
| `ExecutorTheorems.AdmissionBalance` | ros2/scx_slam_executor/src/freshness_executor.cpp:477-491 | observed selections = callbacks entered + drops before start + aborts + outstanding items, with at most one outstanding and at most one abort, which only a spin that rethrows can have |
| `ExecutorTheorems.NoLateEntry` | ros2/scx_slam_executor/src/freshness_executor.cpp:379-388 | at the worker's check the callback is entered iff the work does not both reject expired messages and lie past its deadline or stale bound at that instant; otherwise it is dropped |
| `ExecutorTheorems.SpinCanComplete` | ros2/scx_slam_executor/src/freshness_executor.cpp:353-527 | for every profile and message that is fresh when both threads check it there is a run of spin that executes it and ends without error, with the message and group given back once and the sink seeing its hint, then the clear |
| `ExecutorTheorems.RejectionIsMonotone` | ros2/scx_slam_executor/src/freshness_executor.cpp:222-231 | work rejected at one instant is rejected at every later one, so a dispatcher rejection would also be a worker rejection |
| `Edf.Simulate` | tests/test_edf_workload.py:15-32 | the tick loop computes the run function for every task list, policy, release horizon and number of ticks |
| `Edf.Chosen` | tests/test_edf_workload.py:25-26 | the chosen job is the first one with the least key |
| `Edf.ChosenMeaning` | tests/test_edf_workload.py:25-26 | EDF chooses the earliest deadline; a favoured task goes first if it has a job, then deadlines decide; ties go to the job released first |
| `Edf.MissesAreLate` | tests/test_edf_workload.py:27-30 | under every policy misses is the number of jobs that finished after their deadline |
| `Edf.JobsConserved` | tests/test_edf_workload.py:20-30 | under every policy each released job is pending or finished, exactly once |
| `Edf.DemandInvariant` | tests/test_edf_workload.py:15-32 | with utilisation at most one, at every tick of EDF the backlog due by any future instant plus the demand still to be released for it fits into the remaining ticks |
| `Edf.EdfMeetsDeadlines` | tests/test_edf_workload.py:15-32 | with utilisation at most one, EDF finishes every job by its deadline, for every number of tasks, every horizon and every tick |
| `Edf.EdfDrains` | tests/test_edf_workload.py:19-32 | one period after the last release nothing is pending and nothing was missed, so the final assertion holds |
| `Edf.OverloadMisses` | tests/test_edf_workload.py:15-32 | with utilisation above one, every policy of the simulator has a job late or overdue after one hyperperiod |
| `Edf.EdfFeasibleIff` | tests/test_edf_workload.py:15-32 | EDF meets all deadlines for all horizons iff the utilisation is at most one |
| `Edf.EdfIsOptimal` | tests/test_edf_workload.py:25-26 | if any policy of the simulator meets all deadlines for all horizons, EDF does |
| `Edf.TwoTaskUtilization` | tests/test_edf_workload.py:20-22 | for two tasks, utilisation at most one is the integer inequality C_A*T_B + C_B*T_A <= T_A*T_B |
| `Edf.TwoTaskEdf` | tests/test_edf_workload.py:15-32 | two tasks are scheduled by EDF without a miss for every horizon iff that inequality holds |
| `Edf.EdfTaskSet` | tests/test_edf_workload.py:37-37 | the set (100,42), (140,59) with horizon 1400 and 1600 ticks ends with no miss and nothing pending |
| `Edf.FavouringMisses` | tests/test_edf_workload.py:38-39 | the same set misses at least one deadline when either task is favoured |
| `Timeline.BuildStates` | scripts/e4_execution.py:104-140 | the state timeline tiles from the first event to at least the window end, and each segment has at every instant the state and reason folded from all events up to that instant |
| `Timeline.Transition` | scripts/e4_execution.py:119-139 | a wake-up or a switch changes state, reason and wake flag as the state machine says |
| `Timeline.SweepResidence` | scripts/e4_execution.py:150-163 | the inner loop extends the rows by exactly one residence of one CPU occupant, each row correct at every instant, and the occupancy table is the sum of the rows |
| `Timeline.Sweep` | scripts/e4_execution.py:144-163 | for every bracketed switch list the rows tile [start, end) exactly, give the folded state and the last switched-in task at every instant, and the occupancy table is the sum of the rows |
| `Timeline.OccupantBetween` | scripts/e4_execution.py:146-148 | between two neighbouring switches the CPU's occupant is the first one's successor, also with equal timestamps |
| `Timeline.AgreementAt` | scripts/e4_execution.py:98-140 | after the chain check, at every instant the task is on_cpu iff the CPU's occupant is that task, for all wake, stop and switch interleavings and ties |
| `TimelineMeaning.StateMeaning` | scripts/e4_execution.py:102-140 | at every instant of every sorted trace, by the last switch from or to the task: on_cpu iff it switched to the task; runnable_wait iff the task is off the CPU and was left runnable or woken since; blocked, in the named system call, iff it was left unable to run, raced no wake-up, was no exit and was not woken since; likewise exit_path and unknown |
| `TimelineMeaning.FoldMeans` | scripts/e4_execution.py:107-139 | the same after any events, together with the wake flag: a wake-up while on the CPU, with neither a stop nor a switch since |
| `TimelineMeaning.InstantsMeaning` | scripts/e4_execution.py:164-165 | the totals count the window instants of which the event list says so |
| `TimelineMeaning.OccupancyIsInstants` | scripts/e4_execution.py:161-162 | the occupancy table has for each state, reason and occupant the number of window instants with all three, and no other entries |
| `TimelineMeaning.PairingIff` | scripts/e4_execution.py:175-189 | the callbacks pair up exactly when no start lies inside a callback and no stop outside one at or after the window start; the first misfit decides the complaint |
| `TimelineMeaning.ValidIff` | scripts/e4_execution.py:91-196 | the exact conditions, over the event list, under which a trace is valid |
| `TimelineMeaning.RejectionReason` | scripts/e4_execution.py:91-196 | the exact condition for every reason of rejection; the contradiction is none of them |
| `TimelineMeaning.SummaryMeaning` | scripts/e4_execution.py:216-220 | each number of the summary counts the instants its name says |
| `TimelineAnalysis.TotalsCoverWindow` | scripts/e4_execution.py:164-168 | the totals of a tiling always sum to the window, so the sum check can fail only for a reversed window |
| `TimelineAnalysis.TotalIsInstants` | scripts/e4_execution.py:164-165 | the total of a state is the number of window instants spent in it |
| `TimelineAnalysis.Uncovered` | scripts/e4_execution.py:164-168 | the combined check fires iff the window is reversed or some instant is ambiguous |
| `TimelineAnalysis.RowsAgree` | scripts/e4_execution.py:169-171 | no emitted row contradicts its occupant, so the contradiction check never fires |
| `TimelineAnalysis.PairCallbacks` | scripts/e4_execution.py:175-189 | the pairing loop with its early returns computes the fold over all events |
| `TimelineAnalysis.CallbackTotal` | scripts/e4_execution.py:190-193 | the clipped running/stopping pairs measure exactly the window instants at which the last callback event was a start |
| `TimelineAnalysis.Analyze` | scripts/e4_execution.py:86-224 | for every sorted event list the analysis returns exactly the pointwise verdict and summary, with correct rows and occupancy; contradiction is not among its verdicts |
| `TimelineAnalysis.DrainNonInterference` | scripts/e4_execution.py:102-193 | two traces that agree on every event before the window end and are both judged valid get identical summaries |
| `Graph.Construct` | demo/dependent_graph.h:59-61 | construction fails exactly for a zero capacity or a zero batch limit; otherwise the new graph is empty, with the given limits |
| `Graph.DependentGraph.Offer` | demo/dependent_graph.h:62-73 | the new fields and the reply are those of the call function, including both reasons to throw and the full inbox |
| `Graph.DependentGraph.Select` | demo/dependent_graph.h:74-87 | likewise, through the batching loop |
| `Graph.DependentGraph.Complete` | demo/dependent_graph.h:88-99 | likewise, through the consuming loop, with the checks in the code's order |
| `Graph.DependentGraph.Tick` | demo/dependent_graph.h:100-106 | likewise for a control tick |
| `Graph.FillBatch` | demo/dependent_graph.h:78-83 | the loop takes exactly the first min(limit, total) elements of the merge and leaves the rest of each inbox |
| `Graph.ConsumeBatch` | demo/dependent_graph.h:93-97 | the loop counts the batch by stream and retains the newest of each stream |
| `Graph.ThrowsKeepsState` | demo/dependent_graph.h:49-106 | a call that throws changes nothing |
| `Graph.MergeStreams` | demo/dependent_graph.h:78-83 | merging loses nothing and keeps each stream in order |
| `Graph.MergeRest` | demo/dependent_graph.h:78-83 | what a batch of any size leaves in the inboxes merges to the rest of the merge |
| `GraphCalls.ThrowsIff` | demo/dependent_graph.h:49-106 | a call of any run throws exactly when an earlier call that did not throw has a later time, it offers a measurement from the future or one not above all earlier ones of its stream, or it completes a batch that is not outstanding |
| `GraphCalls.AcceptedIff` | demo/dependent_graph.h:62-73 | an offer of any run that does not throw is accepted, and waits last, exactly when fewer measurements of its stream wait than the capacity |
| `GraphCalls.OfferCounts` | demo/dependent_graph.h:69-70 | offered counts the offers that did not throw, and dropped those of them that found the inbox full |
| `GraphCalls.RunningIsOutstanding` | demo/dependent_graph.h:74-99 | the running batch is the one selected and not completed, never a second one |
| `GraphCalls.NumberedInOrder` | demo/dependent_graph.h:77-105 | batches and ticks are numbered 1, 2, 3 and so on in call order, and a tick carries the call's setpoint and time |
| `GraphCalls.SnapshotIsLastCompletion` | demo/dependent_graph.h:91-98 | the snapshot names the batch completed last and its time, and there is none until one is completed |
| `GraphProofs.RunKeepsInv` | demo/dependent_graph.h:40-106 | every sequence of calls keeps the stream, snapshot and batch invariants |
| `GraphProofs.HistoryRefinement` | demo/dependent_graph.h:62-113 | after any calls, consumed then running then waiting measurements of a stream are its accepted offers in order with strictly increasing sequences, hence offered = dropped + consumed + pending + in flight |
| `GraphProofs.SnapshotMeaning` | demo/dependent_graph.h:91-98 | the retained measurement of a stream is the last consumed one among those with the greatest source time ever completed, and none iff none was completed |
| `GraphProofs.SnapshotNeverOlder` | demo/dependent_graph.h:88-99 | no call makes the retained measurement older or forgets it |
| `GraphProofs.ControlFreshness` | demo/dependent_graph.h:100-106 | after any calls a tick is missing iff no IMU measurement was ever completed and usable iff some completed one is within the age bound; the age subtraction never wraps |
| `GraphProofs.SelectTakesMergePrefix` | demo/dependent_graph.h:74-87 | select returns the first min(limit, total) elements of the merge and nothing iff the inboxes are empty |
| `GraphProofs.MergeInSourceOrder` | demo/dependent_graph.h:79-82 | inboxes in source order merge into source order with the IMU first on ties |
| `GraphProofs.DrainOrder` | demo/dependent_graph.h:74-99 | draining without new offers yields the merge for every batch limit, in the number of elements divided by the limit, rounded up, select/complete rounds |
| `Workload.Worker.Offer` | demo/dependent_workload.cpp:133-137 | a job is queued unless 32 are waiting; every offer is counted |
| `Workload.Worker.Dispatch` | demo/dependent_workload.cpp:138-147 | the oldest queued job goes to an idle worker; the order of the jobs is unchanged |
| `Workload.Worker.Collect` | demo/dependent_workload.cpp:148-163 | a finished job is the oldest accepted one; it is removed and counted once |
| `Workload.Workload.constructor` | demo/dependent_workload.cpp:207-225 | the initial state satisfies the composition invariant |
| `Workload.Workload.OfferToGraph` | demo/dependent_workload.cpp:243-248 | a collected measurement is always in sequence and in time, so the offer does not throw; it waits in its inbox afterwards exactly when fewer than 32 of its stream waited before |
| `Workload.Workload.CompleteInGraph` | demo/dependent_workload.cpp:283-287 | completing the running batch does not throw, and a batch with a camera measurement leaves a camera measurement in the snapshot, so the dereference is defined |
| `Workload.Workload.SelectFromGraph` | demo/dependent_workload.cpp:272-274 | selecting does not throw; no batch means both inboxes are empty |
| `Workload.Workload.TickGraph` | demo/dependent_workload.cpp:259-259 | a control tick does not throw; its outcome is missing iff no IMU measurement has been completed and usable iff some completed one is at most 20 ms old |
| `Workload.Workload.AnswerControl` | demo/dependent_workload.cpp:252-270 | an admitted control release is answered from the measurements completed by then, no earlier than it is due, and its job carries that outcome |
| `Workload.Workload.FinishBatch` | demo/dependent_workload.cpp:282-288 | a completed batch is recorded once, and mapping is offered its snapshot exactly if it holds a camera measurement |
| `Workload.Workload.RunningIffHeld` | demo/dependent_workload.cpp:272-296 | the graph has a running batch iff the estimator holds a job queued or busy, and it is that batch's job |
| `Workload.Workload.Drained` | demo/dependent_workload.cpp:294-296 | the exit test succeeds exactly when the reading has reached the end of the window, no worker has a job queued or busy and both inboxes are empty |
| `Workload.Workload.Iterate` | demo/dependent_workload.cpp:236-296 | one pass of the loop keeps the composition invariant and exits exactly when its clock reading has reached the end of the window and nothing is queued, busy or pending; with all releases made and every worker finishing what it works on, it leaves strictly less to do |
| `Workload.Workload.LoadBounded` | demo/dependent_workload.cpp:133-136 | what is left to do never exceeds the weight of full queues and inboxes |
| `Workload.WholeWindow` | demo/dependent_workload.cpp:241-271 | a release loop that has passed the end of the window has made exactly rate times seconds releases |
| `Workload.Workload.Drive` | demo/dependent_workload.cpp:235-298 | when the loop exits: exactly 200, 20 and 100 releases per second were offered to the IMU, camera and control workers; every worker has offered = completed + dropped; usable, stale and missing are the numbers of answered releases that deserve it by the measurements completed before each; every batch was executed and mapping offered those with a camera measurement; each stream has offered = consumed + dropped with nothing pending or in flight, its accepted measurements are on schedule and went into the batches in order. And the loop does exit, within a fixed number of iterations of the one from which every worker keeps up and the clock has reached the end of the window |
| `WindowQueue.BlockingQueue.EvictStale` | demo/slam_pipeline_demo.cpp:325-340 | the erasing pass leaves exactly the items that are not stale, in order, and counts the others |
| `WindowQueue.BlockingQueue.Push` | demo/slam_pipeline_demo.cpp:249-273 | the new queue state is that of the push step: evict, count, publish only over a waiting consumer, append |
| `WindowQueue.BlockingQueue.PopSection` | demo/slam_pipeline_demo.cpp:275-297 | each critical section of pop has the effect of the pop step |
| `WindowLedger.FifoOrder` | demo/slam_pipeline_demo.cpp:249-297 | for every interleaving the items popped so far followed by those queued are the pushed items in push order, less those a later push found queued and older than the bound, and as many as those were counted as evicted |
| `WindowLedger.FifoWithoutEviction` | demo/slam_pipeline_demo.cpp:249-297 | with eviction off, popped and queued items together are the pushed ones, in order |
| `WindowLedger.PopOutcome` | demo/slam_pipeline_demo.cpp:275-297 | a pop ends the consumer if the queue was stopped, puts it to sleep if nothing is queued, and otherwise hands it the oldest item still queued |
| `WindowLedger.WokenConsumerPopsPromise` | demo/slam_pipeline_demo.cpp:249-297 | a woken consumer whose promised item was not evicted pops exactly that item |
| `WindowLedger.StartDecision` | demo/slam_pipeline_demo.cpp:397-416 | the consumer skips a popped item exactly when its age exceeds a nonzero bound and stale items are dropped |
| `WindowLedger.PoppedAreHandled` | demo/slam_pipeline_demo.cpp:392-430 | every popped item was completed, skipped as stale, or is the one the consumer holds |
| `WindowQueue.CountersStopAtCutoff` | demo/slam_pipeline_demo.cpp:249-297 | at the end of a run the window counters are those of the state after the last step before the cutoff |
| `WindowQueue.CutoffReconstruction` | demo/window_metrics.h:45-51 | for every interleaving of producers and one consumer, with the operations before the cutoff being exactly those with an earlier timestamp, the counters give the true queue length and in-flight count (0 or 1) at the cutoff, no subtraction wraps, offered = completed + dropped + evicted + pending + in flight, and the next queue got at most one item fewer than were completed, never more |
| `WindowQueue.PoppedItemKeepsHint` | demo/slam_pipeline_demo.cpp:249-297 | from the return of pop until the consumer waits again, the hint is exactly the popped item and no push publishes |
| `WindowQueue.WokenHintIsHead` | demo/slam_pipeline_demo.cpp:249-297 | with eviction off, a woken consumer's hint names the queue's head until it pops, whatever is pushed in between |
| `WindowQueue.WokenHintIsHeadIff` | demo/slam_pipeline_demo.cpp:325-340 | with eviction on this holds iff no push since the waking one found the promised item stale; once one did, the item is gone from the queue |
| `WindowQueue.WokenHintCanBeLost` | demo/slam_pipeline_demo.cpp:325-340 | for every configuration with eviction there is a run in which the woken consumer's hint names an evicted item |
| `CpuBounds.CpuWindowBounds.Sample` | demo/window_metrics.h:16-26 | a closed object ignores the sample; otherwise lower, upper and closed follow from the two wall readings |
| `CpuBounds.CpuWindowBounds.Finish` | demo/window_metrics.h:28-32 | an object still open takes the total as its upper bound |
| `CpuBounds.OneStraddles` | demo/window_metrics.h:6-9 | at most one sample straddles the cutoff |
| `CpuBounds.MeasuredWork` | demo/slam_pipeline_demo.cpp:122-150 | for every nondecreasing CPU clock with bracketed readings: lower <= CPU really used before the cutoff <= upper <= elapsed, the two differ only for a job running at the cutoff, and then by at most two sampling steps |
| `CpuBounds.StageCpu` | demo/slam_pipeline_demo.cpp:418-421 | over any number of jobs the window CPU is a lower bound and window CPU + uncertainty an upper bound of the CPU used before the cutoff, and the uncertainty stems from one job and never exceeds the drain CPU, as scripts/run_e4_eval.py:208-213 demands |
| `Opportunities.StageStats.Begin` | ros2/scx_slam_workload/src/slam_pipeline.cpp:164-170 | the first lock section of a measured job counts it as executed and active |
| `Opportunities.StageStats.End` | ros2/scx_slam_workload/src/slam_pipeline.cpp:178-190 | the second counts it as completed and inactive |
| `Opportunities.Observe` | ros2/scx_slam_workload/src/slam_pipeline.cpp:577-599 | an unmeasured message changes nothing, a selection counts one arrival, a drop counts one drop here and one upstream drop at each downstream stage |
| `Opportunities.CountersAreCensus` | ros2/scx_slam_workload/src/slam_pipeline.cpp:543-599 | in every reachable state each counter of each stage is the number of measured messages that passed its point, for every interleaving of callbacks, observers and audit |
| `Opportunities.CountersBySourceTime` | ros2/scx_slam_workload/src/slam_pipeline.cpp:192-198 | ... measured being the messages whose source time lies in the window of the given duration that begins one warm-up after the source start |
| `Opportunities.SourceConservation` | ros2/scx_slam_workload/src/slam_pipeline.cpp:543-599 | at every stage each measured message is exactly one of completed, dropped there, dropped upstream, in flight or pending, with the counters saying how many; arrivals = executed + dropped + selected but undecided; offers lag by what the audit has not seen |
| `Opportunities.UpstreamBalance` | ros2/scx_slam_workload/src/slam_pipeline.cpp:590-597 | mapping's upstream drops = vision drops + estimator drops and the estimator's = vision drops, up to what an observer is passing on, hence exactly between observer steps |
| `Opportunities.ReportExactIff` | ros2/scx_slam_workload/src/slam_pipeline.cpp:376-393 | the printed in-flight count is always right and never wraps; the printed unfinished count is right iff the offers and the upstream drops still to be told add up to the measured messages, or nothing is unfinished and they are fewer; then the pending count is right too |
| `Opportunities.ReportsExactWhenCaughtUp` | ros2/scx_slam_workload/src/slam_pipeline.cpp:792-862 | with the vision stage's offer count read in an earlier state of the run and the stage counters in a later one, all three reports are exact if the audit had by the earlier state offered every message measured in the later one, and no observer is at work in the later one |
| `Opportunities.AuditLagMisreports` | ros2/scx_slam_workload/src/slam_pipeline.cpp:376-393 | a reachable state in which a message is pending at a stage and the report says nothing is unfinished, because the audit has not offered it yet |
| `Opportunities.ObserverLagMisreports` | ros2/scx_slam_workload/src/slam_pipeline.cpp:586-597 | a reachable state in which nothing is unfinished at the estimator and the report says one message is, because an observer has yet to pass its drop on |

## Left out

- The scheduler itself, the BPF maps and libfreshqos: the hint map is one slot per worker. A demo consumer's
  hint target is taken to be configured, and `publish_hint`'s ignored error result is not modelled.
- rclcpp and DDS internals: `get_next_executable`, `execute_any_executable`, QoS and discovery are
  nondeterministic steps. Callback groups of work without a metadata extractor are released inside
  `execute_any_executable` and not followed.
- A throwing clock, a throwing constructor of the worker thread, and a second `spin` on one executor.
- A `Graph` stream tag outside the enumeration.
- 64-bit wrap-around of counters, identifiers and timestamps, except where a subtraction or the
  saturating deadline could wrap.
- In the dependent workload: hog workers, worker enrolment and thread errors, job costs and deadlines,
  late and age statistics, traces.
- Workload.Workload.Drive: promises the exit of the loop only if the workers keep up from some iteration
  on, because whether they do is up to the scheduler.
- In the older demo: the IMU thread, LiDAR costs, late and burst statistics, the focus job. The consumer's
  own clock readings are steps of the run, ordered by their timestamps.
- In the timeline analysis: `parse_execution` (the event list is taken as sorted), the `away` rows, and the
  percentages and sorting of the occupancy table.
- In the ROS pipeline: the synthetic window (the measured window is fixed, as in external mode), ages, CPU
  totals and first/last identifiers, exceptions, and message loss in transit, after which a message stays
  pending in the model.
- Argument parsing, printing, the evaluation scripts and small helpers such as `project_hint`,
  `window_iterations`, `SourceJobIndex` and `percentile_99`: they keep no state and take no part in the
  protocols and accounts above.
