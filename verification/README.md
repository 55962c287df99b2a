# Proofs about a CPU scheduling simulator

The repository simulates CPU schedulers.  Its core is a discrete-event engine in two shapes:
`Simulator` (one ready queue shared by all cores) and `MultiCoreSimulator` (a queue per core, a
load balancer, optional work stealing).  Four policies run on it: MLFQ, CFS, Stride and EEVDF.
Workloads come from a multi-stream Lehmer generator, results are summarised by `Metrics`, and an
older engine with CPU and IO bursts in integer microseconds is kept in `include/simulator.h`.
This project models these parts in Dafny and proves what the simulator rests on.

## How the model is laid out

* **Generator** - `Lehmer` (arithmetic modulo 2^31 - 1: primality by way of the factors of
  2^31 - 2, the order of 48271, full period, stream spacing) and `Rngs` (the Schrage step and the
  library's static state as class `Generator`).
* **Engine** - `Common`, `Tasks`, `Policies` (a scheduler class as a table of functions, and the laws the
  engine needs of it: `Lawful`, `Local`) and `Engine` (every handler of both engines as a function
  on states; a run is a list of tie-breaks, since events compare by time only).  `Simulation` is
  the same engine in the source's form: task objects and a simulator object changed in place, each
  method proved to compute the function of the same name.  `EngineInvariant`, `EngineRuns`,
  `EngineWork`, `EngineTermination`, `EngineAgreement`, `EngineUsage`, `EngineTurnaround`,
  `EngineFields`, `EngineSteps` (the parts of a step), `EngineHistory` (starts and completions), `EngineCounters` (switches,
  preemptions, steals, assignments) and `EngineGrants` (slices) hold the theorems for any lawful policy, any number of
  cores, both shapes, both balancers, stealing on or off, and every tie-break.
* **From the engine to one scheduler** - `Lanes` describes one core and its scheduler on their own:
  the sequence of calls `add_task`, `on_cpu_used`, `schedule`/`remove_task` they see.  `EngineLanes`
  proves that a run of the per-core engine is, for every core, such a trace with the same charges.
  `EngineOpening` covers the runs in which every job arrives at time 0.
* **Policies** - `SingleQueue`, `MultiQueue` (the two base classes) and, for each policy, a module
  with its functions and its class (`Mlfq`, `Cfs`, `Stride`, `Eevdf`), modules that reason about
  traces (`MlfqRules`, `CfsFairness`, `StrideProgress`, `StrideFairness`, `EevdfDeadlines`) and
  modules that carry the results over to runs of the engine (`MlfqRuns`, `CfsRuns`, `StrideRuns`,
  `StrideShares`, `EevdfRuns`).  `CfsExamples` drives two runs step by step.  `EngineAgreement.EnginesAgree` carries the one-core results over
  to the shared engine.
* **Burst engine** - `Burst` (handlers as functions), `BurstInvariant`, `BurstRuns`, `BurstHistory` (slices and
  first runs), `BurstPolicies` (what the scheduler can rely on), and `BurstSimulation`, the engine and its event queue
  as objects.
* **Metrics** - `Metrics` (the summary and Jain's index) and `MetricsRuns` (its bounds on runs).

A predicate `Reached(p, cfg, sched, jobs, choices, stop, s)` says that `s` is a state of a run of
the engine started with `jobs` (distinct identifiers, arrivals from 0 on, something to execute).
`busy` is the CPU time charged on a core so far.

Where the code's own comments and its behaviour differ the model follows the code.  The CFS
comparator is no strict weak order, so a task can be chosen while one the comparator puts before
it waits: `CfsExamples.ScanMissesInRuns` is a run in which that happens, `Cfs.UnbeatenIffLeader`
says exactly for which queues it cannot, and `Cfs.ChoiceNearLeast` by how much the choice is off at
most, which `Cfs.ChoiceBoundIsSharp` shows to be attained.  CFS slices divide the period by a total in which the chosen task is counted twice, so no
slice is longer than half the period or the granularity (`CfsRuns.SliceBound`).  The comment at
`src/core/multi_core_simulator.cpp:135` announces a cancelled timer, but `cancel_task` does nothing, so
timers go stale; `EngineRuns.ChargesInBounds` shows that this is harmless.

## Model

| member | source | states |
|---|---|---|
| Lehmer.FullPeriod | lib/rngs.c:18-22 | from any seed in 1 .. M-1 two of the first M draws agree only if they are the first and the last: the period is exactly M-1 |
| Lehmer.PrimitiveRoot | lib/rngs.c:39-40 | no power of 48271 below M-1 is 1 modulo M, so its order is exactly M-1 |
| Lehmer.FullPower | lib/rngs.c:39-40 | 48271 to the M-1 is 1 modulo M |
| Lehmer.EveryStateIsAPower | lib/rngs.c:51-68 | every state 1 .. M-1 is a power of the multiplier, hence reached from every other |
| Lehmer.JumpIsDraws | lib/rngs.c:39-43 | one multiplication by A256 = 22925 equals 8367782 draws |
| Lehmer.StreamsDisjoint | lib/rngs.c:71-98 | 256 streams started 8367782 draws apart share no state within 8367782 draws of each |
| Lehmer.DrawsInRange | lib/rngs.c:51-68 | draws from 1 .. M-1 stay in 1 .. M-1, for any number of draws |
| Rngs.Schrage | lib/rngs.c:57-67 | for both multipliers and every seed in range the split-quotient value lies strictly between -M and M, is never 0, and corrected by M when not positive is the product modulo M, itself in 1 .. M-1 |
| Rngs.Supplied | lib/rngs.c:101-126 | whatever is passed to PutSeed, once a prompt is answered with a seed in range the seed installed is in 1 .. M-1, and it is the argument when that is in range already |
| Rngs.PlantedStreamsDisjoint | lib/rngs.c:71-98 | after PlantSeeds two draws, each within 8367782 of the start of its stream, see the same state if and only if they are the same draw of the same stream |
| Rngs.PlantedIsDrawable | lib/rngs.c:71-98 | planted seeds are all in range, whichever stream is selected |
| Rngs.Generator.constructor | lib/rngs.c:46-48 | the library starts valid, on stream 0, with the default seed |
| Rngs.Generator.Random | lib/rngs.c:51-68 | replaces the current stream's seed by 48271 times it modulo M, leaves the other streams alone, and returns a number strictly between 0 and 1 |
| Rngs.Generator.PlantSeeds | lib/rngs.c:71-98 | seed 0 is the seed supplied and seed j is exactly j * 8367782 draws after it; the selected stream is kept |
| Rngs.Generator.PutSeed | lib/rngs.c:101-126 | the seed of the current stream becomes the seed supplied, nothing else changes |
| Rngs.Generator.GetSeed | lib/rngs.c:129-137 | returns the current stream's seed |
| Rngs.Generator.SelectStream | lib/rngs.c:140-150 | selects the index modulo 256, and plants all streams from the default seed if none was planted and the index is not 0 |
| Rngs.Generator.TestRandom | lib/rngs.c:153-179 | the library's check (10000 draws from seed 1, then the first jump) succeeds from every valid state |
| EngineInvariant.StepKeeps | src/core/simulator.cpp:21-169 | every step, whichever earliest event is taken, keeps the invariant (places, clock, accounts, timers), and the clock never goes back |
| EngineInvariant.RunKeeps | src/core/multi_core_simulator.cpp:31-227 | every state of every run satisfies the invariant, for both engines |
| EngineInvariant.ChargeBound | src/core/simulator.cpp:77-133 | whatever event is popped, a busy core has run its task for at least 0 and at most its slice and its remaining time |
| EngineRuns.ExactlyOnce | src/core/multi_core_simulator.cpp:66-227 | in every reachable state every task is in exactly one of: pending arrival, one ready queue (once), one core, completed (once) |
| EngineRuns.TimesAddUp | src/core/task.cpp:18-58 | in every reachable state, for a ready or running task, now - arrival = wait + (execution - remaining) + time since its last change; for a completed one turnaround = wait + execution - leftover with leftover at most 0.001; response never exceeds wait |
| EngineRuns.ChargesInBounds | src/core/event.cpp:19-23 | lazy cancellation is safe: every busy core has a pending timer for its task at its deadline, every charge lies between 0 and min(slice, remaining), and the clamp to 0 in execute changes nothing |
| EngineWork.NeverIdleWithWork | src/core/simulator.cpp:52-169 | work conservation: in every reachable state no core is idle while the queue it serves holds a task |
| EngineWork.StolenTaskRuns | src/core/multi_core_simulator.cpp:179-227 | the stolen task is exactly the one dispatched on the thief |
| EngineWork.LeastLoadedStealing | include/scheduler/load_balancer.hpp:68-82 | with least-loaded balancing and stealing, while any core is idle its queue is empty and no core's queue holds two tasks |
| EngineTermination.StepCost | src/core/simulator.cpp:21-169 | every event taken before stop lowers an explicit natural-valued measure (timer ticks left, spent ready tasks, pending arrivals) |
| EngineTermination.RunsTerminate | src/core/multi_core_simulator.cpp:31-64 | a run handles at most as many events as the measure of the submitted arrivals, despite stale timers and zero-length dispatches |
| EngineTermination.DrainedRunCompletes | src/core/multi_core_simulator.cpp:31-64 | a run that drains its events has completed every task, once |
| EngineAgreement.EnginesAgree | src/core/simulator.cpp:21-169 | on one core the two engines take the same choices through the same states, dispatches and counters, for any policy, balancer and stealing flag |
| EngineAgreement.EnginesStartAlike | src/core/simulator.cpp:7-19 | on one core the two engines start in the same state for every set of jobs |
| EngineUsage.CpuTimeIsConserved | src/core/task.cpp:28-33 | in every reachable state the tasks executed exactly what the cores were charged, which is at most cores * now, and completed work exceeds that capacity by at most 0.001 a task |
| EngineFields.FieldsAlwaysFit | src/core/multi_core_simulator.cpp:66-227 | any claim about a task's scheduling fields and the queue holding it that the calls of a scheduler keep holds of every arrived task in every reachable state of both engines |
| EngineTurnaround.TurnaroundIsPositive | src/core/task.cpp:55-58 | in every reachable state of both engines every completed task has a positive turnaround time, however short it is |
| EngineHistory.StepStarts | src/core/task.cpp:18-37 | in every step of both engines: a start time changes only for a task that never started, which the step puts on a core, and is then the time of the event taken, with response time = waiting time; and exactly the task whose live timer finds at most 0.001 left completes |
| EngineHistory.ResponseIsFirstWait | src/core/task.cpp:44-53 | in every run, the response time of a task that has started, so of every completed one, is the time it had waited when it was first put on a core, which the run passes through |
| EngineCounters.SwitchesAddUp | src/core/multi_core_simulator.cpp:90-177 | in every reachable state of both engines preemptions = the sum of the tasks' preemptions, and context switches = preemptions + completions + busy cores + the arrivals of the run that displaced a task, of which there are none under a policy that never preempts |
| EngineCounters.ArrivalPreempts | src/core/simulator.cpp:52-75 | an arrival preempts, once, exactly if all cores of the queue it is sent to are busy and one of them runs a task that gives way to it, in both engines |
| EngineCounters.StealsAreCounted | src/core/multi_core_simulator.cpp:179-227 | in every step of the per-core engine the steal counter moves, by one, exactly if a task leaves its queue without running on that queue's core |
| EngineCounters.ArrivalsAreAssigned | include/scheduler/load_balancer.hpp:47-82 | in every step of the per-core engine an arriving task is queued, or runs at once, on the next core in turn or on the first with the fewest queued and running tasks; only arrivals advance the turn |
| EngineCounters.RoundRobinInRuns | include/scheduler/load_balancer.hpp:47-59 | in every run with round robin the (n + 1)-th task to arrive goes to core n modulo the number of cores |
| EngineGrants.StepGrants | src/core/multi_core_simulator.cpp:148-177 | after every step of both engines a busy core either goes on with its slice and its task's fields unchanged, or its scheduler has just chosen the task from the ready ones and granted the slice (the default if it gave none); weights never change |
| EngineGrants.SlicesAreGranted | src/core/multi_core_simulator.cpp:148-177 | in every reachable state of both engines the slice of a busy core is what its scheduler granted when it chose the task, whose fields, and everybody's weights, are unchanged since |
| Simulation.TaskObject.Begin | src/core/task.cpp:18-22 | the start time becomes the time given if the task never started, and stays otherwise; EngineHistory.StepStarts says when it is called |
| Simulation.TaskObject.Execute | src/core/task.cpp:28-33 | remaining time falls by the duration, not below 0 |
| Simulation.TaskObject.MarkReady | src/core/task.cpp:39-42 | the ready flag and the ready time are set, nothing else |
| Simulation.TaskObject.MarkDispatched | src/core/task.cpp:44-48 | time since ready is added to the waiting time, once, if the task was ready |
| Simulation.Simulate | apps/main.cpp:350-357 | submitting the jobs and running ends with the simulator in the state some run reached (all events drained, or cut at stop), where completed tasks are listed once, their times add up, and all jobs are completed if the events were drained |
| Simulation.Simulator.constructor | src/core/multi_core_simulator.cpp:7-24 | the state of the engine before any task is added |
| Simulation.Simulator.AddTask | src/core/multi_core_simulator.cpp:26-29 | the task is pending and its arrival event scheduled; nothing else changes |
| Simulation.Simulator.Run | src/core/multi_core_simulator.cpp:31-64 | the loop ends, having taken a run's worth of events in time order, with no event left or the clock at stop and the first later event dropped |
| Simulation.Simulator.NextEvent | include/scheduler/event.hpp:40-42 | the event popped is one of the earliest, which one is left open |
| Simulation.Simulator.HandleSharedArrival | src/core/simulator.cpp:52-75 | the in-place handler computes the shared-queue arrival step: enqueue, then the first idle core dispatches, else the first preemptible core is preempted and dispatches |
| Simulation.Simulator.HandlePerCoreArrival | src/core/multi_core_simulator.cpp:66-88 | the in-place handler computes the per-core arrival step: the balancer's core gets the task, and dispatches if idle or preempted |
| Simulation.Simulator.HandleTimeSlice | src/core/multi_core_simulator.cpp:90-124 | the in-place handler computes the timer step: a stale timer changes nothing; else the task is charged, completed or requeued, and the core dispatches |
| Simulation.Simulator.PreemptCore | src/core/multi_core_simulator.cpp:126-146 | charging, requeueing and counting a preempted task, with its timer left pending |
| Simulation.Simulator.DispatchNext | src/core/multi_core_simulator.cpp:148-177 | dispatch from the own queue, else a steal, else idle |
| Simulation.Simulator.TryWorkSteal | src/core/multi_core_simulator.cpp:179-227 | reports whether a task was stolen, and then the thief runs its own scheduler's choice |
| Simulation.Simulator.FindBusiest | src/core/multi_core_simulator.cpp:180-193 | the loop finds the first core, other than the thief, with most ready tasks, if that is at least two |
| Simulation.Simulator.Assign | include/scheduler/load_balancer.hpp:47-82 | round robin returns its position modulo the number of cores and advances it, least-loaded keeps it and returns a core with the fewest tasks |
| Simulation.Simulator.LeastLoadedCore | include/scheduler/load_balancer.hpp:68-82 | the loop returns the first core with the fewest queued and running tasks |
| Engine.Busiest | src/core/multi_core_simulator.cpp:180-193 | nobody but the thief has more ready tasks than the victim, and nobody before it as many; no victim means no other core has two |
| Engine.LeastLoadedBelow | include/scheduler/load_balancer.hpp:71-81 | no core has a smaller load than the one chosen, and no earlier core as small a one |
| Engine.FirstIdle | src/core/simulator.cpp:59-65 | the core found is idle and all before it are busy; if none is found all are busy |
| Engine.FirstPreempted | src/core/simulator.cpp:67-74 | the core found runs a task the arriving one preempts, and no core before it does |
| Lanes.MoveIsCalls | src/core/multi_core_simulator.cpp:90-177 | each thing that can happen to a core is a short sequence of scheduler calls with the same CPU time and the same waiting tasks |
| EngineLanes.StepIsMove | src/core/multi_core_simulator.cpp:66-227 | every step of the per-core engine is, for each core, one move of that core alone, stealing included |
| EngineLanes.RunIsTrace | src/core/multi_core_simulator.cpp:31-227 | a run is, for every core, a trace of calls to its scheduler, charging exactly the CPU time the core is charged; on one core nothing happens from outside |
| EngineLanes.ReachedLane | src/core/multi_core_simulator.cpp:31-227 | in every reachable state each core and its scheduler are where some trace from a fresh scheduler ends |
| EngineOpening.ArrivalsFirst | src/core/simulator.cpp:21-50 | with all arrivals at time 0, they are all taken before any timer |
| EngineOpening.StepKeepsOneTimer | src/core/simulator.cpp:77-169 | on one core, as long as no arrival preempts, there is never more than one timer and none is stale, so every slice is whole |
| EngineOpening.StepSwitches | src/core/multi_core_simulator.cpp:90-177 | on a busy core without preemption only the timer of the running task leads to a dispatch, and to one at most |
| SingleQueue.DropCounts | include/scheduler/single_queue_scheduler.hpp:32-38 | erasing an identifier removes all its occurrences and keeps all other tasks as often as before |
| SingleQueue.MinElementLeast | include/scheduler/single_queue_scheduler.hpp:50-53 | with a strict weak order no queued task beats the one found |
| SingleQueue.TotalWeightAdds | include/schedulers/cfs_scheduler.hpp:99-102 | the total weight of a queue is that of its parts together, and of one task its weight |
| SingleQueue.ReadyQueue.RemoveTask | include/scheduler/single_queue_scheduler.hpp:32-38 | the shifting loop leaves the queue without the identifier, in the old order |
| SingleQueue.ReadyQueue.FindBest | include/scheduler/single_queue_scheduler.hpp:50-53 | the loop returns the scan's element, or nothing for an empty queue |
| MultiQueue.QueuedDrop | include/scheduler/multi_queue_scheduler.hpp:38-46 | removal takes the task out of every level and leaves every other task queued as often |
| MultiQueue.BoostKeepsTasks | include/scheduler/multi_queue_scheduler.hpp:98-110 | a boost loses and duplicates no task |
| MultiQueue.FirstLevel | include/scheduler/multi_queue_scheduler.hpp:68-75 | the level found holds a task and all higher levels are empty |
| MultiQueue.LevelQueues.Append | include/scheduler/multi_queue_scheduler.hpp:30-36 | the task goes to the end of its level, the other levels are unchanged |
| MultiQueue.LevelQueues.RemoveTask | include/scheduler/multi_queue_scheduler.hpp:38-46 | the task is gone from every level, the order of the others kept |
| MultiQueue.LevelQueues.ReadyCount | include/scheduler/multi_queue_scheduler.hpp:48-54 | counts every queued task |
| MultiQueue.LevelQueues.FindBest | include/scheduler/multi_queue_scheduler.hpp:68-75 | the loop returns the front of the first non-empty level |
| MultiQueue.LevelQueues.BoostAll | include/scheduler/multi_queue_scheduler.hpp:98-110 | the two loops move all lower levels, in order, behind the top one, and set exactly those tasks to level 0 |
| Mlfq.TableIsLawful | include/schedulers/mlfq_scheduler.hpp:41-103 | MLFQ meets what the engine relies on: nobody is lost or duplicated, and a task is chosen whenever one is ready, with a positive slice |
| Mlfq.AddFacts | include/schedulers/mlfq_scheduler.hpp:48-57 | a new task enters level 0 with a full allotment; a returning one keeps its level (clamped) and its allotment; nobody else changes |
| Mlfq.ChargeFacts | include/schedulers/mlfq_scheduler.hpp:70-91 | a charge keeps the set of ready tasks and changes the fields of the charged task and, in a boost, of the queued ones, level by level as Rules 4 and 5 say |
| Mlfq.ChoosesTopFront | include/schedulers/mlfq_scheduler.hpp:59-68 | the choice is the front of the highest non-empty level, and if tasks are queued by level it is granted the quantum the table has for that level |
| Mlfq.MlfqScheduler.AddTask | include/schedulers/mlfq_scheduler.hpp:48-57 | the in-place method is the enqueueing function the theorems are about |
| Mlfq.MlfqScheduler.OnCpuUsed | include/schedulers/mlfq_scheduler.hpp:70-91 | the in-place method is the charging function the theorems are about: allotment, demotion, boost |
| Mlfq.MlfqScheduler.Schedule | include/schedulers/mlfq_scheduler.hpp:59-68 | returns the choice described by ChoosesTopFront, with the quantum the table has for the task's level |
| Mlfq.MlfqScheduler.ShouldPreempt | include/schedulers/mlfq_scheduler.hpp:93-98 | yes exactly if nothing runs or the new task's level is higher |
| MlfqRules.MoveKeepsRule1 | include/schedulers/mlfq_scheduler.hpp:59-113 | after whatever happens to a core, boosts included, every queued task is in the queue of its level and none outranks the running task |
| MlfqRules.TopWait | include/schedulers/mlfq_scheduler.hpp:59-113 | a task in the top queue waits for at most a top-level quantum for each task ahead and the running slice, whatever arrives |
| MlfqRules.WaitIsBounded | include/schedulers/mlfq_scheduler.hpp:83-90 | with boosts on, the CPU time charged while a task stays ready is less than boost interval + longest quantum + a top-level quantum for each task ahead when it reaches the top |
| MlfqRules.NoBoostYet | include/schedulers/mlfq_scheduler.hpp:83-90 | until a waiting task is boosted, the time since the last boost grows by exactly the CPU time charged |
| MlfqRules.BoostRestores | include/schedulers/mlfq_scheduler.hpp:83-113 | the charge that brings the time since the last boost to the interval puts every queued task at the top, in the order of the levels, with the top level's whole allotment, and starts the interval anew |
| MlfqRules.DemotedByAllotment | include/schedulers/mlfq_scheduler.hpp:70-81 | however slices are cut, a task that came to a non-bottom level with its full allotment leaves it exactly when its CPU time there reaches the allotment, within one quantum |
| MlfqRuns.NoReadyTaskOutranks | include/schedulers/mlfq_scheduler.hpp:93-98 | Rule 1 in every reachable state of the per-core engine: no ready task outranks its core's running one |
| MlfqRuns.AllotmentsAlwaysFit | include/schedulers/mlfq_scheduler.hpp:72-81 | in every reachable state of both engines an arrived task has a level of the table, has 0 < allotment left <= that level's allotment or, without one, its quantum, and is queued at its level only |
| MlfqRuns.WaitIsBoundedInRuns | include/schedulers/mlfq_scheduler.hpp:83-113 | the waiting bound on every core of every run, through arrivals, stealing and stale timers |
| MlfqRuns.DemotedByAllotmentInRuns | include/schedulers/mlfq_scheduler.hpp:70-81 | the demotion rule, in the quanta and allotments of the table, along the calls by which any run leads on from a reachable state, on every core; a demoted task has the next level's whole allotment |
| MlfqRuns.QuantaInRuns | include/schedulers/mlfq_scheduler.hpp:59-68 | in every reachable state of both engines a running task has a level of the table, and its core was granted the quantum the table has for that level |
| MlfqRuns.ArrivalsDisplaceInRuns | include/schedulers/mlfq_scheduler.hpp:93-98 | in every run of both engines an arrival displaces a task exactly if all cores of its queue are busy and one runs a task below the top level |
| Stride.TableIsLawful | include/schedulers/stride_scheduler.hpp:27-76 | Stride meets what the engine relies on |
| Stride.ChoosesLeastPass | include/schedulers/stride_scheduler.hpp:79-83 | the comparator finds a ready task with the least pass, of these with the least stride, and of these with the least identifier |
| Stride.Advance | include/schedulers/stride_scheduler.hpp:60-62 | a charge advances the pass by at least 1, by at most the stride up to a quantum, and by exactly the stride for a whole quantum |
| Stride.AdvanceMeans | include/schedulers/stride_scheduler.hpp:60-62 | a pass advances by n with n * quantum <= stride * cpu < (n + 1) * quantum, or by 1 if stride * cpu is below the quantum |
| Stride.StrideMeans | include/schedulers/stride_scheduler.hpp:36-38 | constant - weight < stride * weight <= constant for weights up to the constant, and the stride is 1 for larger ones |
| Stride.HeavierStride | include/schedulers/stride_scheduler.hpp:36-38 | a heavier task never has a larger stride |
| Stride.GlobalPassFollows | include/schedulers/stride_scheduler.hpp:58-76 | a charge never lowers the global pass, and raises it to the least ready pass if that is ahead of it |
| StrideProgress.CallKeepsBehind | include/schedulers/stride_scheduler.hpp:34-64 | every call of a scheduler, enqueueing included, keeps the global pass at or below every ready pass |
| Stride.StrideScheduler.AddTask | include/schedulers/stride_scheduler.hpp:34-50 | the in-place method is the enqueueing function the theorems are about, and the stride it sets is the constant over the weight, rounded down, at least 1 |
| Stride.StrideScheduler.OnCpuUsed | include/schedulers/stride_scheduler.hpp:58-64 | the in-place method is the charging function the theorems are about |
| Stride.StrideScheduler.UpdateGlobalPass | include/schedulers/stride_scheduler.hpp:85-93 | the loop raises the global pass to the least ready pass, never lowers it, and keeps it when nobody is ready |
| StrideRuns.GlobalPassIsLeast | include/schedulers/stride_scheduler.hpp:85-93 | in every reachable state of the per-core engine the global pass is at most every ready pass |
| StrideRuns.StridesFitInRuns | include/schedulers/stride_scheduler.hpp:36-38 | in every reachable state of both engines every arrived task's stride is the constant over its weight, rounded down, at least 1 |
| StrideRuns.QuantaInRuns | include/schedulers/stride_scheduler.hpp:52-76 | in every reachable state of both engines every busy core was granted the quantum, and no arrival has displaced anybody: context switches = preemptions + completions + busy cores |
| StrideProgress.SlicesAreBounded | include/schedulers/stride_scheduler.hpp:34-93 | while a task waits, each charge spends at least 1 of the sum of the other tasks' leads over it, tasks yet to arrive counted at the global pass |
| StrideRuns.WaitIsBounded | include/schedulers/stride_scheduler.hpp:34-93 | on one core, while a task waits, at most one task is dispatched for each unit of that sum over the unfinished others and one for the running slice, and the CPU time is at most a quantum for each |
| StrideFairness.PassesStayNear | include/schedulers/stride_scheduler.hpp:34-93 | if all tasks arrive before the first charge, no unfinished pass is ahead of another by more than its own stride, whatever the weights and however slices are cut |
| StrideFairness.FullQuantumLeads | include/schedulers/stride_scheduler.hpp:58-64 | with equal weights a whole quantum takes the running task to or past the least ready pass |
| StrideFairness.TraceKeepsTally | include/schedulers/stride_scheduler.hpp:58-93 | with whole slices and any weights, as long as no task just charged falls behind the global pass, a task's pass is its quanta times its stride, through every call of a trace |
| StrideFairness.ReaddInTally | include/schedulers/stride_scheduler.hpp:43-47 | putting a task back keeps its pass at quanta times stride if and only if the global pass is not past it |
| StrideShares.PassesStayNearInRuns | include/schedulers/stride_scheduler.hpp:34-93 | on one core with all jobs at time 0, the bound on passes in every reachable state |
| StrideShares.SharesFollowStridesInRuns | include/schedulers/stride_scheduler.hpp:34-93 | on one core with all jobs at time 0, whatever the weights, as long as that has not happened in the run, executed times of unfinished tasks are whole quanta, and quanta times strides of any two are within a stride |
| StrideShares.SharesFollowWeightsInRuns | include/schedulers/stride_scheduler.hpp:34-93 | then executed times follow weights: for any two unfinished tasks, (executed time of x - quantum) * weight of y * (constant - weight of x) <= executed time of y * weight of x * constant, with weights above the constant counted as the constant |
| StrideShares.QuantaDifferByOneInRuns | include/schedulers/stride_scheduler.hpp:34-93 | with equal weights it never happens, so executed times of unfinished tasks differ by at most one quantum |
| Eevdf.TableIsLawful | include/schedulers/eevdf_scheduler.hpp:29-102 | EEVDF meets what the engine relies on |
| Eevdf.ChoiceFacts | include/schedulers/eevdf_scheduler.hpp:54-76 | if the eligible time of some ready task is at most 1e-9 past virtual time, the choice is one of these with the least deadline, and else a task with the least eligible time |
| Eevdf.AddFacts | include/schedulers/eevdf_scheduler.hpp:36-51 | an enqueued task is eligible no earlier than virtual time and its deadline is one request after |
| Eevdf.EnqueuesOnTime | include/schedulers/eevdf_scheduler.hpp:36-52 | a new task starts at virtual time, a returning one is put forward to it only if behind, and (deadline - eligible) * weight = base slice * 1024 |
| Eevdf.ChargeFacts | include/schedulers/eevdf_scheduler.hpp:78-88 | a charge sets eligible = vruntime and deadline = eligible + request, and never moves virtual time back |
| Eevdf.ChargesService | include/schedulers/eevdf_scheduler.hpp:78-88 | a charge moves virtual runtime by cpu * 1024 / weight and virtual time by cpu * 1024 / total ready weight, and renews eligible time and deadline from them |
| Eevdf.SliceMeans | include/schedulers/eevdf_scheduler.hpp:117-120 | slice * 1024 = base slice * weight, or the slice is the minimum and that is more |
| Eevdf.EevdfScheduler.AddTask | include/schedulers/eevdf_scheduler.hpp:36-51 | the in-place method is the enqueueing function the theorems are about |
| Eevdf.EevdfScheduler.Schedule | include/schedulers/eevdf_scheduler.hpp:53-76 | the loop and its fallback return the choice described by ChoiceFacts |
| Eevdf.EevdfScheduler.FindEarliestEligible | include/schedulers/eevdf_scheduler.hpp:122-132 | the loop returns the first task with the least eligible time |
| Eevdf.EevdfScheduler.OnCpuUsed | include/schedulers/eevdf_scheduler.hpp:78-88 | the in-place method is the charging function the theorems are about |
| Eevdf.EevdfScheduler.AdvanceVirtualTime | include/schedulers/eevdf_scheduler.hpp:134-144 | the loop's total weight moves virtual time as the function says, for an empty queue at the weight of nice 0 |
| EevdfDeadlines.CallSpendsTime | include/schedulers/eevdf_scheduler.hpp:36-144 | while a due task waits, no later arrival gets a deadline as early, only tasks with deadlines as early are dispatched, and every charge uses up their slices |
| EevdfDeadlines.NoOvertaking | include/schedulers/eevdf_scheduler.hpp:36-144 | while a due task waits, the CPU time charged and the number of slices are bounded by the running slice and one slice of each task then ready with no later deadline |
| EevdfDeadlines.WaitIsBounded | include/schedulers/eevdf_scheduler.hpp:36-144 | a waiting task waits at most for virtual time to reach its deadline at the heaviest load, one slice, and a slice of each rival then |
| EevdfRuns.DeadlinesAlwaysRegular | include/schedulers/eevdf_scheduler.hpp:36-88 | in every reachable state of both engines every arrived task has eligible = vruntime and (deadline - eligible) * weight = base slice * 1024 |
| EevdfRuns.SlicesInRuns | include/schedulers/eevdf_scheduler.hpp:54-76 | in every reachable state of both engines a busy core was granted a slice with slice * 1024 = base slice * its task's weight, or the minimum if that is more |
| EevdfRuns.ArrivalsDisplaceInRuns | include/schedulers/eevdf_scheduler.hpp:90-97 | in every run of both engines an arrival displaces a task exactly if all cores of its queue are busy and one runs a task whose deadline is more than virtual time + base slice * 1024 / the newcomer's weight |
| EevdfRuns.NoOvertakingInRuns | include/schedulers/eevdf_scheduler.hpp:36-144 | no overtaking after the deadline, on every core of every run |
| EevdfRuns.WaitIsBoundedInRuns | include/schedulers/eevdf_scheduler.hpp:36-144 | on one core, a waiting task waits at most for virtual time to reach its deadline with all unfinished jobs ready, their longest slice and one slice of each |
| Cfs.TableIsLawful | include/schedulers/cfs_scheduler.hpp:33-82 | CFS meets what the engine relies on, with slices of at least the granularity |
| Cfs.ChoiceNearLeast | include/schedulers/cfs_scheduler.hpp:85-89 | the task chosen among n has at most (n - 1) * 1e-9 more virtual runtime than any ready task |
| Cfs.ChoiceBoundIsSharp | include/schedulers/cfs_scheduler.hpp:85-89 | that bound is reached: for every n and every step up to 1e-9 some queue of n tasks has a choice with exactly (n - 1) steps more than the least |
| Cfs.UnbeatenIffLeader | include/schedulers/cfs_scheduler.hpp:85-89 | no queued task is put before the one chosen if and only if some queued task is put before all others; and then the choice is within the tolerance of the least virtual runtime |
| Cfs.UnbeatenWhenTransitive | include/schedulers/cfs_scheduler.hpp:85-89 | nor is one whenever being within the tolerance is transitive on the queue |
| Cfs.ChoiceIsShare | include/schedulers/cfs_scheduler.hpp:91-106 | the slice of the chosen task times the total of all queued weights and its own once more is the period times its weight, the period being the latency or, with more tasks than that has room for, a granularity each; or the slice is the granularity and that is more |
| Cfs.HeavierGetsMore | include/schedulers/cfs_scheduler.hpp:99-105 | of two tasks of one queue the heavier gets no shorter a slice, and a longer one if it is above the granularity |
| Cfs.ReturnIsClamped | include/schedulers/cfs_scheduler.hpp:45-49 | a returning task keeps its virtual runtime unless its lag behind the minimum times its weight exceeds latency * 1024, to which it is then cut |
| Cfs.MinimumFollows | include/schedulers/cfs_scheduler.hpp:108-116 | a charge never lowers the minimum, and raises it to the least ready virtual runtime if that is ahead of it |
| Cfs.PreemptsLaggards | include/schedulers/cfs_scheduler.hpp:71-77 | a task gives way exactly to one it is ahead of by more than granularity * 1024 / its own weight |
| CfsExamples.ScanMissesInRuns | include/schedulers/cfs_scheduler.hpp:54-89 | on any one-core configuration, a run of three equal jobs reaches a state in which a task has just been chosen while one put before it waits |
| CfsFairness.ReaddKeepsSpread | include/schedulers/cfs_scheduler.hpp:45-49 | putting a charged task back keeps all unfinished virtual runtimes, and the minimum, as near each other as they were |
| Cfs.CfsScheduler.AddTask | include/schedulers/cfs_scheduler.hpp:40-52 | the in-place method is the enqueueing function the theorems are about |
| Cfs.CfsScheduler.CalcTimeSlice | include/schedulers/cfs_scheduler.hpp:91-106 | the loop's total gives the slice of the model, which is the task's share of the period by weight, itself counted twice, or the granularity if that is more |
| Cfs.CfsScheduler.OnCpuUsed | include/schedulers/cfs_scheduler.hpp:64-69 | the in-place method is the charging function the theorems are about |
| Cfs.CfsScheduler.UpdateMinVruntime | include/schedulers/cfs_scheduler.hpp:108-116 | the loop raises the minimum to the least ready virtual runtime, never lowers it, and keeps it when nobody is ready |
| Cfs.CfsScheduler.ShouldPreempt | include/schedulers/cfs_scheduler.hpp:71-77 | yes exactly if nothing runs or the new task is behind by more than the scaled granularity |
| CfsRuns.SliceBound | include/schedulers/cfs_scheduler.hpp:91-106 | no slice exceeds the larger of half the period and the granularity, since the chosen task is counted twice, whatever the weights |
| CfsRuns.DispatchIsShareInRuns | include/schedulers/cfs_scheduler.hpp:54-106 | in every step of every run of both engines a core that was dispatched is granted its task's share by weight of the tasks then ready: those still queued and the task, whose weight counts twice |
| CfsRuns.SlicesAreSharesInRuns | include/schedulers/cfs_scheduler.hpp:54-106 | in every reachable state of both engines the slice of a busy core is its task's share by weight of some set of tasks ready together with it |
| CfsRuns.ArrivalsDisplaceInRuns | include/schedulers/cfs_scheduler.hpp:71-77 | in every run of both engines an arrival displaces a task exactly if all cores of its queue are busy and one runs a task whose virtual runtime is above the queue's minimum by more than granularity * 1024 / its weight |
| CfsFairness.VruntimesStayNear | include/schedulers/cfs_scheduler.hpp:40-116 | if all tasks arrive before the first charge, unfinished virtual runtimes differ by at most the largest charge of one slice + (n - 1) * 1e-9 |
| CfsFairness.TraceKeepsService | include/schedulers/cfs_scheduler.hpp:40-69 | if that bound is within every credit, the clamp never fires and virtual runtime is CPU time scaled by weight |
| CfsRuns.VruntimesStayNearInRuns | include/schedulers/cfs_scheduler.hpp:40-116 | on one core with all jobs at time 0, in every reachable state unfinished virtual runtimes differ by at most the largest virtual runtime charged in one step of the run so far + (n - 1) * 1e-9 |
| CfsRuns.SharesAreProportionalInRuns | include/schedulers/cfs_scheduler.hpp:40-116 | if that bound is within every job's credit, in every reachable state virtual runtime is executed time * 1024 / weight, and these differ by at most the bound |
| CfsRuns.JobsBoundCharges | include/schedulers/cfs_scheduler.hpp:64-106 | no step of any run charges more virtual runtime than half a period, or the granularity, at the weight of the lightest job |
| CfsRuns.EqualWeightsShareInRuns | include/schedulers/cfs_scheduler.hpp:40-116 | with equal weights and no more jobs than the latency has room for, both hold in every reachable state, with half the latency as the largest charge |
| CfsExamples.SharesAreProportionalSomewhere | include/schedulers/cfs_scheduler.hpp:29-116 | with the default parameters, a run of two jobs in which one waits after being charged meets all conditions of SharesAreProportionalInRuns |
| Burst.CancelCounts | include/event.h:54-64 | cancel removes every event of the process and kind and keeps every other as often as before |
| Burst.TopComesFirst | include/event.h:20-25 | the event popped is one of the earliest, and at the same time arrivals come before ends of bursts, these before ends of slices, and ends of IO last |
| BurstInvariant.WorkNonnegative | include/process.h:52-66 | a process has no work left exactly when it is done |
| BurstRuns.NoStaleEvents | include/simulator.h:116-152 | every pending event is the one its process waits for, so the guards against stale events are never taken: cancel makes them unreachable |
| BurstRuns.StepKeeps | include/simulator.h:31-268 | every step, whichever of the first events is popped, keeps the invariant and leaves strictly less work |
| BurstRuns.RunKeeps | include/simulator.h:31-268 | every state of every run satisfies the invariant, and each event handled takes work off |
| BurstRuns.StepIsBusy | include/simulator.h:98-268 | after every event the CPU is busy or nobody is ready |
| BurstRuns.RunsTerminate | include/simulator.h:31-59 | without a stop time, no run handles more events than the work submitted |
| BurstRuns.EndOfRun | include/simulator.h:98-196 | when no event is left every process has completed, its CPU time is the sum of its CPU bursts, turnaround = CPU + IO + wait, and 0 <= response <= wait |
| BurstRuns.EndOfRunTotals | include/simulator.h:37-40 | when no event is left, total time = idle time + all CPU time |
| BurstHistory.StepHistory | include/simulator.h:98-268 | in every step only the running process is charged, for the time since its dispatch, and a first run is recorded once, at the time of the event, for the process put on the CPU, with response = wait |
| BurstHistory.StepChooses | include/simulator.h:225-253 | after every step the running process either goes on with its slice, or the scheduler has just chosen it, with that slice |
| BurstHistory.StepSwitches | include/simulator.h:98-223 | in every step a context switch is counted, once, exactly if a slice ends or a process that becomes ready preempts the running one |
| BurstHistory.SlicesAreKept | include/simulator.h:255-267 | in every reachable state the running process has the slice its scheduler granted at its dispatch; if that is positive and shorter than what is left of the burst its slice event is pending for exactly start + slice, else its completion for start + remaining; and whatever event comes next charges it no more than the slice |
| BurstHistory.ResponseIsFirstWait | include/simulator.h:239-247 | the response time of a process that has run is what it had waited when it first ran, a state the run passes through |
| BurstPolicies.FirstRankRuns | include/simulator.h:104-113 | under a scheduler that ranks processes, in every reachable state no ready process comes before the running one |
| BurstPolicies.CpuTimeIsReported | include/simulator.h:128-223 | whatever record of CPU time a scheduler keeps shows, in every reachable state, exactly what each process was charged |
| BurstSimulation.EventQueue.Push | include/event.h:30-32 | the event is added, nothing lost |
| BurstSimulation.EventQueue.Pop | include/event.h:34-38 | an event that none precedes by time and kind is removed |
| BurstSimulation.EventQueue.Cancel | include/event.h:54-64 | the rebuilding loop leaves exactly the events CancelCounts describes |
| BurstSimulation.Simulator.constructor | include/simulator.h:72-96 | every process restarted and its arrival scheduled |
| BurstSimulation.Simulator.Run | include/simulator.h:31-59 | the loop ends with no event left, having gone through a run |
| BurstSimulation.Simulator.HandleArrival | include/simulator.h:98-114 | the in-place handler computes the arrival step: ready, then dispatch, preemption or neither |
| BurstSimulation.Simulator.HandleBurstComplete | include/simulator.h:116-149 | the in-place handler computes the step at a burst's end: IO, next burst or completion |
| BurstSimulation.Simulator.HandleTimeSlice | include/simulator.h:151-170 | the in-place handler computes the step at a slice's end |
| BurstSimulation.Simulator.HandleIoComplete | include/simulator.h:172-196 | the in-place handler computes the step at the end of IO, with no dispatch over a running process |
| BurstSimulation.Simulator.PreemptCurrent | include/simulator.h:204-223 | the running process is charged and requeued, and all its completion and slice events are gone |
| BurstSimulation.Simulator.DispatchNext | include/simulator.h:225-268 | the chosen process runs from now, with one new event: at now + slice if the slice is positive and shorter than the burst, else at now + remaining |
| BurstSimulation.Simulate | include/simulator.h:17-69 | a whole simulation of any processes ends, and then the facts of EndOfRun and EndOfRunTotals hold of the objects |
| Metrics.CauchySchwarz | src/core/metrics.cpp:53-62 | n times the sum of squares is at least the square of the sum, with equality exactly when all terms are equal |
| Metrics.JainBounds | src/core/metrics.cpp:53-62 | 1/n <= Jain's index <= 1, and it is 1 exactly when all shares are equal |
| Metrics.PercentileMeans | src/core/metrics.cpp:38-41 | with k = fraction * n rounded down, the value reported is one of the times, more than k are no larger, and at most k are below it |
| Metrics.ListsAt | src/core/metrics.cpp:22-28 | the lists hold the response, waiting, turnaround and execution times of the tasks in order |
| Metrics.QuotientsMean | src/core/metrics.cpp:30-62 | mean * n = sum, throughput * time = 1000 n, and index * n * sum of squares = square of the sum |
| Metrics.RatesMean | src/core/metrics.cpp:43-51 | utilization * time * cores = the execution times of the tasks together, and without time throughput and utilization are 0 |
| Metrics.PercentilesOrdered | src/core/metrics.cpp:40-41 | larger fractions give larger percentiles, so P95 <= P99 |
| Metrics.SortSorts | src/core/metrics.cpp:39 | sorting gives an ordered sequence with the same elements |
| Metrics.Collect | src/core/metrics.cpp:17-28 | the loop collects the three lists in order and the total execution time |
| Metrics.SumShares | src/core/metrics.cpp:55-61 | the loop's sums are those of the shares and of their squares |
| Metrics.Metrics.Calculate | src/core/metrics.cpp:10-63 | nothing changes for no tasks; else every mean times the number of tasks is the sum of its list, the other fields are the statistics above, P95 <= P99 and 1/n <= Jain's index <= 1 |
| MetricsRuns.CompletedMeasurable | src/core/metrics.cpp:53-61 | in every reachable state the completed tasks have positive turnaround times, so the divisions of the summary are defined |
| MetricsRuns.CompletedWorkFits | src/core/metrics.cpp:43-48 | in every reachable state completed execution time <= cores * time + 0.001 * n |
| MetricsRuns.UtilizationBound | src/core/metrics.cpp:43-51 | the utilization reported exceeds 1 by at most 0.001 * n over the capacity |
| MetricsRuns.SummaryBounds | src/core/metrics.cpp:10-63 | the bounds on Jain's index and the percentiles for the completed tasks of any run |
| MetricsRuns.MeansOrdered | src/core/metrics.cpp:30-36 | of the tasks completed in a run, mean response <= mean wait <= mean turnaround |
| MetricsRuns.FinalSummary | src/core/metrics.cpp:10-63 | all these bounds for the state a run leaves behind, drained or cut at stop |

## Left out

Assumptions and abstractions:

- Times are exact reals: rounding of `double` is not modelled, and `numeric_limits<double>::max()` as a start value is "none yet".
- Counters, passes and queue sizes are unbounded: 32- and 64-bit wrap-around of `pass`, `stride`, `global_pass_` and the statistics is not modelled.  `Rngs.Schrage` shows that the generator's intermediate values fit in 32 bits.
- Weights are any positive numbers; the table from nice values to weights (`src/core/task.cpp:12-15`) is a parameter, so the code's branch for weight 0 in Stride cannot be taken.
- Parameters are those the constructors are meant for: at least one core, at least one level, positive quanta, slices and granularities.  Jobs have distinct identifiers, arrivals from 0 on and positive execution times.
- The clock and the prompt by which `PutSeed` may find a seed are parameters of the model.
- The engines' `std::priority_queue`: its heap is not modelled; any of the earliest events may be popped, and all theorems hold for every choice.  In the burst engine events also compare by kind.
- `std::sort` is a sorting function; its algorithm is not modelled.
- `current_time`, `core_id` and `preferred_core` are dropped where the scheduler classes ignore them.
- The event that ends a run past the stop time is dropped, as in the code; simulators are run once, and `reset` of tasks and schedulers is not modelled.
- Simulation.Simulator.Run: the simulator holds its schedulers as values with the functions of the policy, not as scheduler objects; each scheduler class is proved against the same functions.
- Burst.Policy: the burst engine's own scheduler headers are near-duplicates of the four policies; any scheduler that keeps its ready set and chooses one of it is covered.
- The `MLFQ_PRIORITY_BOOST` event of the burst engine has no handler body and is never scheduled, and the context-switch counter at `include/simulator.h:251-253` is behind a condition that is never true; neither is modelled.

Deliberately not claimed, because the code does not give it:

- MlfqRuns.NoReadyTaskOutranks: not for several cores that share one queue, where the first preemptible core is preempted and not the one with the lowest-ranked task (`src/core/simulator.cpp:67-74`).  With two cores running tasks of levels 1 and 2, a new task takes the first core, and the level 1 task then waits while the level 2 task runs.
- StrideShares.SharesFollowStridesInRuns: not once the clamp at `include/schedulers/stride_scheduler.hpp:45` has lifted a lagging task, which different weights sooner or later bring about; shares are then no longer proportional to weights.  `StrideFairness.ReaddInTally` is the exact condition, and `StrideShares.PassesStayNearInRuns` holds regardless.
- StrideShares.PassesStayNearInRuns: all jobs at time 0; a late arrival starts at a global pass that does not move while nobody is ready.
- StrideRuns.WaitIsBounded: one core; with stealing, tasks come to a core with passes of another core's scale.
- EevdfRuns.WaitIsBoundedInRuns: one core, where the unfinished jobs bound the load; with stealing the bound on traces (`EevdfDeadlines.WaitIsBounded`) holds for the load there is.
- CfsRuns.VruntimesStayNearInRuns: one core and all jobs at time 0; the minimum does not move while the ready queue is empty (`include/schedulers/cfs_scheduler.hpp:108-116`), so late arrivals may start arbitrarily far behind.
- Metrics.Metrics.Calculate: requires positive execution and turnaround times, which the source divides by without a check and which every run supplies (`MetricsRuns.CompletedMeasurable`); what IEEE arithmetic makes of a division by 0 is not modelled.
- That every dispatch gets its whole slice: a stale timer of an earlier dispatch can cut it short, except where `EngineOpening.StepKeepsOneTimer` applies.

Parts of the repository outside the model:

- Command line, console output, CSV files and the suite runner: input and output only.
- Plugin registry and loader, manifests, validation, aggregation, reports and plots: file and process handling.
- Workload generators and trace loaders: only the conditions on jobs above are kept.
- `lib/rvgs.c` and `lib/rvms.c`: floating-point series and iterations; `lib/rng.c` repeats the step of `lib/rngs.c` for one stream.
