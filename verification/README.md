# Worker pool and metrics-server data path

This project models two parts of the repository and proves what they keep.

**The worker pool** (`pkg/common/workerpool`, `pkg/common/workerpoolservice`) is a protocol between goroutines,
so it is modelled as a transition system. One step is one channel operation, one lock operation or one
assignment that another goroutine can see; a step function returns the next state, or `None` when the step
cannot be taken (guard false, blocked, or the end of the program). Runs are sequences of labels of any length,
so every statement about runs is about every interleaving.

- `Tasks` is one task object: the calls of `process`, the goroutine of a long handler, the timer, `Stop`
  callers, and the recycling pool. `TaskLife` proves what all runs of an object keep, over any number of lives.
- `PoolMachine` puts together `RunBG`, `Stop`, `shutdownUnsafe`, the workers' `run`, `Worker.Stop`, and clients in
  `RunTasksGroupWG` and `AddTask`, over tasks of module `Tasks`. A task identifier is one life of an object.
  `PoolInvariant` holds the inductive invariant; `PoolFrames`, `PoolSteps`, `PoolWorkerSteps`, `PoolShutSteps`
  and `PoolShutdown` prove that every step keeps it; `PoolTheorems` and `PoolStop` draw the guarantees.
  `PoolDrain` says what a shutdown does to the queued and the running tasks, and `PoolDetails` holds smaller guarantees.
  `PoolAborts` says at which steps a shutdown can be cut short by a panic. `PoolAlive` and `PoolSettle` bring all
  workers to wait; on them `PoolLightExact` says when LIGHT keeps its promise, and `PoolHard` when HARD is safe and
  what the caller of `Stop` has to know for quiescence. `PoolRuns`, `PoolLight` and `PoolScenarios` build the
  concrete runs.
- `ChannelGroup` is `RunTasksGroupCh` with its collector goroutine; `OnlinePool` is `RunOnline`, over the same
  workers as `PoolMachine`.

**The metrics-server data path** (`lib/metrics-server/source/pkg`) updates maps in place, so it is modelled by
classes and loops, each proved against a specification over the whole history or the whole input.

- `NodeStorage.dfy` and `PodStorage.dfy` hold the two-snapshot stores with a ghost history of all stored
  batches; `Storage` composes them; `Rates` is the arithmetic of the answers.
- `Labels`, `Decode` and `DecodeMeaning` read the kubelet's series; `Scraper` merges the nodes' replies;
  `Buckets` computes the histogram buckets.

Times are nanoseconds since Go's zero time, so 0 is the zero time and `Time.Sub` saturates as in Go. Timeouts fire
at any moment.

## Where the code differs from what is said about it

- LIGHT is documented to finish every queued task (`pkg/common/workerpool/pool.go:35`). Every mode sends the stop
  signal to the workers, so it does not. `PoolLight.LightLeavesTasks` is a run that ends in order with an accepted
  task left. `PoolLightExact.LightFinishesExactly` proves that, unless a worker is stuck in a long task without
  timeout or the pool is already stopping itself, nothing is ever left exactly when at the call the queue is empty
  and no `AddTask` call is past its state test; `PoolLightExact.LightLeavesNothing` proves the one direction for
  every running pool.
- SOFT is documented to stop queued tasks with an error (`pkg/common/workerpool/pool.go:36`). The drained tasks are
  READY, for which `Task.Stop` does nothing: `PoolStop.DrainedIsNeverSignalled` proves that no drained task
  ever gets an error or a signal, and its group never returns nil. `PoolScenarios.SoftForgetsTask` is such a run.
- HARD is documented to interrupt every task (`pkg/common/workerpool/pool.go:37`). `PoolDrain.RunningTaskIsStopped` proves
  it for the tasks in process when their worker's turn comes; a task that a worker has taken and not yet begun is
  missed, and is processed afterwards: `PoolScenarios.HardMissesTakenTask`.
- `Stop` is meant to return, short of its timeout, only when all workers have ended
  (`pkg/common/workerpool/pool.go:476-516`). A recovered panic lets it return earlier
  (`pkg/common/workerpool/pool.go:427-433`), in HARD only and at two steps (`PoolStop.AbortHasTwoCauses`). When
  somebody outside has stopped a task, HARD sends on that task's closed channel:
  `PoolScenarios.HardStopLeavesWorker`. And even when nobody has, HARD reads the worker's current task twice
  (`pkg/common/workerpool/worker.go:235-236`), and when the worker finishes it in between the call is on nil:
  `PoolScenarios.HardMeetsFinishedTask`; `PoolAborts.UndisturbedAbortsByRaceOnly` proves that this is then the only
  way. So `PoolHard.HardIsSafeExactly`: unless a task hangs or the pool is already stopping itself, HARD is never cut
  short exactly when at the call no worker has a task, none is queued, and no `AddTask` call is past its state test.
  LIGHT and SOFT are never cut short (`PoolAborts.GentleStopNeverAborts`). Under these conditions of the caller
  `PoolHard.QuiescenceAfterStop` holds, and `PoolHard.QuiescenceExactly` proves them exact.
- The completion signal of a short task is sent before its panic is recorded. The outcome can be read at the signal
  exactly when the handler returned: `PoolTheorems.ShortSignalTellsReturnsOnly`, with a run in
  `TaskLife.PanicIsSignalledUnrecorded`.
- A long task with no effective timeout waits for a timer that never fires, even after its handler has returned:
  `TaskLife.UntimedLongTaskHangs` gives the exact condition and `TaskLife.UntimedTaskHangs` such a run.
- A missing entry in the previous pod snapshot reads as a zero point, which can be stored and served from
  (`lib/metrics-server/source/pkg/storage/pod.go:133-136`): `PodHistory.ZeroIsStoredExactly` says after which
  steady histories, and `PodHistory.ZeroPointHappens` gives a family of them.
- A point's timestamp is documented to be that of its CPU value (`lib/metrics-server/source/pkg/storage/types.go:45`).
  The code takes it from the last CPU or memory line: `DecodeMeaning.TimestampIsCpuTime` gives the exact condition
  for any lines,
  and `DecodeMeaning.LateMemoryMovesTimestamp` two printed series that break it.
- The node store is documented to hold the previous point that precedes the last. When timestamps go up and then
  down it drops a point that an older batch could still give: `NodeHistory.DroppedExactlyWhenRisen` says exactly when,
  and `NodeHistory.DropHappens` is the history with timestamps 1, 3, 5 and 3.

## Model

| member | source | states |
|---|---|---|
| TaskLife.RunKeepsInv | pkg/common/workerpool/task.go:153-310 | every step of a task object, from any goroutine and over any number of lives, keeps the invariant relating process position, state, channels, timer and signals |
| TaskLife.OneStartOneSignal | pkg/common/workerpool/task.go:167-202 | in every run of one object, each life has at most one handler start and at most one completion signal, which comes after that life's own start |
| TaskLife.RecycledObjectIsClean | pkg/common/workerpool/taskpool.go:46-65 | when getTask hands an object out, its earlier process has signalled and left its body, no handler runs, and channel, timer and context are as new; the stop channel is as new exactly when no Stop call ever passed its state test |
| TaskLife.NewLifeIsFresh | pkg/common/workerpool/task.go:65-91 | what getTask hands out holds no responses, and NewTask makes of it a READY life as its arguments say, with nothing of an earlier life but the stop channel |
| TaskLife.DoneObjectIsReused | pkg/common/workerpool/taskpool.go:46-65 | an unlocked task that ended well can be given back and handed out again |
| TaskLife.RefusedCallOnlyReports | pkg/common/workerpool/task.go:158-175 | a process call that finds the task locked or not READY sets that error and changes nothing else |
| TaskLife.NothingToSignalNeverFails | pkg/common/workerpool/task.go:186-196 | the completion signal cannot fail when there is neither channel nor group |
| TaskLife.InterruptedIsNeverReused | pkg/common/workerpool/taskpool.go:56-65 | a life ended by panic, timeout or stop, also by a stop channel found closed, is never handed out again, in any continuation |
| TaskLife.InterruptSpoils | pkg/common/workerpool/task.go:250-277 | receiving from the stop channel, open or closed, or from the timer always ends a life in that way |
| TaskLife.UntimedLongTaskHangs | pkg/common/workerpool/task.go:225-249 | without a Stop call, a waiting long task can reach its completion signal exactly when its effective timeout is positive |
| TaskLife.UntimedTaskHangs | pkg/common/workerpool/task.go:225-249 | a run in which a long task's handler has returned and sent its message, and no continuation without a Stop call brings the completion signal |
| TaskLife.StepKeepsRecord | pkg/common/workerpool/task.go:177-296 | what err, responses and state say about the handler's outcome, or about the interruption or panic that ended the life, at each position of process, kept by every step when process is called once a life |
| PoolTheorems.ShortSignalTellsReturnsOnly | pkg/common/workerpool/task.go:177-202 | in every reachable pool, when a short task signals its completion its outcome can be read exactly when the handler returned instead of panicking |
| PoolTheorems.InterruptedTellsWhy | pkg/common/workerpool/task.go:250-277 | in every reachable pool a task ended by timeout or stop has that error, and has it as long as its handler still runs; afterwards it has that or what the handler ended with; a task that panicked has the panic's error |
| TaskLife.PanicIsSignalledUnrecorded | pkg/common/workerpool/task.go:177-202 | a run in which the signal of a panicked short task is out while its error is still nil |
| PoolInvariant.InitHasInv | pkg/common/workerpool/pool.go:104-137 | a new pool with fresh, pairwise distinct tasks satisfies the invariant |
| PoolSteps.RunnerKeepsInv | pkg/common/workerpool/pool.go:306-392 | every step of RunBG keeps the invariant |
| PoolSteps.ClientKeepsInv | pkg/common/workerpoolservice/workerpool_service.go:90-138 | every step of RunTasksGroupWG and of the AddTask calls in it keeps the invariant |
| PoolWorkerSteps.WorkerKeepsInv | pkg/common/workerpool/worker.go:90-213 | every step of a worker's run, the steps of process included, keeps the invariant |
| PoolShutSteps.NextKeepsInv | pkg/common/workerpool/pool.go:306-516 | every step of every goroutine keeps the invariant of the background pool |
| PoolShutdown.NextKeepsShutdown | pkg/common/workerpool/pool.go:420-516 | every step keeps what the shutdown knows: workers seen terminated stay so, channels still to signal are open and empty, tasks are stopped only as the mode says |
| PoolTheorems.TaskConservation | pkg/common/workerpool/pool.go:140-180 | in every reachable state a task that AddTask has sent is in exactly one of: queue (once), one worker's hands, finished, drained by the shutdown, lost to a worker panic before process; a task not sent is in none. An accepted task was sent, and a sent one is accepted unless AddTask has yet to return or panicked after the send |
| PoolTheorems.SingleExecution | pkg/common/workerpool/worker.go:149-212 | a task's handler starts at most once and is signalled at most once, after it; finished tasks ran, and queued, drained or lost ones did not |
| PoolTheorems.ProcessIsNeverRefused | pkg/common/workerpool/task.go:158-175 | a worker that calls process finds the task unlocked and READY |
| PoolTheorems.ConcurrencyIsBounded | pkg/common/workerpool/pool.go:353-360 | at most workerConcurrency tasks are in process at any moment |
| PoolTheorems.WaitGroupConservation | pkg/common/workerpool/pool.go:172-177 | a group's counter equals its tasks counted and not yet signalled, so it is never negative and each wg.Done finds it positive |
| PoolTheorems.GroupReturnsAfterAll | pkg/common/workerpoolservice/workerpool_service.go:128-138 | RunTasksGroupWG returns nil only when every non-nil task was accepted, started once and signalled once, with what a returned handler gave readable |
| PoolTheorems.OneTokenEach | pkg/common/workerpool/pool.go:366-376 | each worker has at most one of: a run call that has not reported, an unread error, a restart under way; the error channel holds at most workerConcurrency errors |
| PoolTheorems.ReportsNeverBlock | pkg/common/workerpool/worker.go:92-146 | a report finds room in the error channel, no run call is refused for the worker's state, and no two run calls of a worker pass the guard together |
| PoolTheorems.NoReportAfterClose | pkg/common/workerpool/pool.go:454-456 | unless the shutdown timed out or panicked, nobody is left to send when the error channel is closed |
| PoolHard.QuiescenceAfterStop | pkg/common/workerpool/pool.go:395-516 | when Stop has ended without hitting its timeout (for HARD: with no task held, queued or on its way at the call), every worker is TERMINATED, no process call is active, and no handler starts in any continuation |
| PoolHard.QuiescenceExactly | pkg/common/workerpool/pool.go:395-516 | when no task hangs and nobody outside stops one, every end of Stop in time finds the pool at rest exactly under that condition |
| PoolHard.HardIsSafeExactly | pkg/common/workerpool/worker.go:233-238 | when no task hangs, no continuation of Stop(HARD) without outside Stop calls is cut short exactly when at the call no worker has a task, none is queued and no AddTask call is past its state test |
| PoolHard.NothingToDoNeverAborts | pkg/common/workerpool/worker.go:233-238 | with no task held, queued or on its way at its beginning, no shutdown of any mode, begun by Stop or by the parent context, is ever cut short, outside Stop calls included |
| PoolHard.HardLosesRace | pkg/common/workerpool/worker.go:235-236 | from any other running pool in which no task hangs there is a run, without outside Stop calls, in which Stop(HARD) returns with a worker that is not terminated |
| PoolStop.QuiescenceOnceCompleted | pkg/common/workerpool/pool.go:476-516 | once a shutdown has ended with neither timeout nor panic, the same holds |
| PoolAborts.GentleStopNeverAborts | pkg/common/workerpool/pool.go:420-456 | no continuation of Stop(LIGHT) or Stop(SOFT) on a reachable pool is cut short by a panic |
| PoolAborts.UndisturbedAbortsByRaceOnly | pkg/common/workerpool/worker.go:224-239 | while nobody outside stops an unfinished task, a shutdown of any mode, begun by Stop or by the parent context, is cut short only where a worker's current task is nil at the second read |
| PoolDrain.QueueIsEmptied | pkg/common/workerpool/pool.go:382-449 | however Stop(SOFT), Stop(HARD) or the shutdown by the parent context ends, in order, by timeout or cut short, the queue is empty |
| PoolDrain.EveryWorkerHasItsTurn | pkg/common/workerpool/pool.go:480-483 | a shutdown of any mode that ended without being cut short has called Worker.Stop for every worker |
| PoolDrain.RunningTaskIsStopped | pkg/common/workerpool/worker.go:224-239 | when Stop(HARD) or the shutdown by the parent context comes to a worker with a task in process, then, once it has gone on or ended, the task's stop channel has been closed, or it had ended by itself, or the shutdown was cut short |
| PoolDetails.QueueIsBounded | pkg/common/workerpool/pool.go:326-363 | the queue holds at most queueSize tasks, and nothing is added before RunBG has made all its workers |
| PoolDetails.ShutdownEndsAsSet | pkg/common/workerpool/pool.go:454-495 | a shutdown times out only if a timeout is set; one not cut short has closed the error channel and read it empty; RunBG stops the pool itself only after its parent context closed |
| PoolDetails.TimeoutsAreAsSet | pkg/common/workerpool/task.go:225-237 | a task without own or worker timeout never has a running timer or a timeout; with one, its timer is set while it waits |
| PoolDetails.WorkersEndForAReason | pkg/common/workerpool/worker.go:150-212 | a worker that is ending has read its stop channel, seen the context closed, or found the queue closed and empty, and its state says which |
| PoolDetails.EndIsSeenFirst | pkg/common/workerpool/worker.go:150-168 | at the head of its loop a worker told to stop, or with a closed context, does not go on to wait for a task |
| PoolDetails.RunBGCanEnd | pkg/common/workerpool/pool.go:366-391 | after a stop RunBG can end by its own steps from wherever it is, with the workers' context cancelled |
| PoolDetails.ParentCloseStopsPool | pkg/common/workerpool/pool.go:382-388 | when the parent context closes, a RunBG in its loop can begin to shut the pool down |
| PoolDetails.NilTasksAreSkipped | pkg/common/workerpoolservice/workerpool_service.go:106-137 | a group with only nil tasks left and nothing outstanding can return nil by its own steps |
| PoolDetails.GroupTimesOutAsSet | pkg/common/workerpoolservice/workerpool_service.go:109-113 | a group gives up before adding a task only if it has a time limit |
| PoolDetails.GroupGetsOn | pkg/common/workerpoolservice/workerpool_service.go:106-137 | every step of a group call, a panicked or refused AddTask included, brings it nearer to its end, which comes in boundedly many steps |
| PoolDetails.RunnerGetsOn | pkg/common/workerpool/pool.go:366-391 | every step of RunBG answers a worker's error or brings it nearer to its end; a closed error channel ends its loop |
| PoolScenarios.HardStopLeavesWorker | pkg/common/workerpool/pool.go:426-433 | a run in which Stop(HARD) returns without a timeout while a worker is still inside the handler of a task stopped from outside |
| PoolScenarios.HardMeetsFinishedTask | pkg/common/workerpool/worker.go:235-236 | a run in which Stop(HARD) returns without a timeout and with a worker not terminated although nobody stopped a task |
| PoolScenarios.HardMissesTakenTask | pkg/common/workerpool/worker.go:172-183 | a run in which Stop(HARD) has been to every worker and then a handler starts whose task has had no Stop call |
| PoolStop.StateNeverGoesBack | pkg/common/workerpool/pool.go:395-440 | in every continuation the pool's state only goes on, the states seen without the lock held are NEW, BG_RUNNING and SHUTDOWN, and the task queue is still open when it is about to be closed |
| PoolStop.NoEnqueueAfterClose | pkg/common/workerpool/pool.go:437-440 | once the task queue is closed no task is ever enqueued |
| PoolStop.AddAfterStopFails | pkg/common/workerpool/pool.go:152-163 | an AddTask call at its state test after Stop fails there in every continuation, counts nothing and enqueues nothing |
| PoolStop.DrainedIsNeverSignalled | pkg/common/workerpool/pool.go:442-449 | in every reachable pool a task drained by the shutdown or lost with its worker is never started, signalled or given an error, and its group has not returned nil and never does |
| PoolScenarios.SoftForgetsTask | pkg/common/workerpool/pool.go:442-449 | a reachable pool in which Stop(SOFT) has drained an accepted task, which no continuation signals or gives an error |
| PoolStop.AbortHasTwoCauses | pkg/common/workerpool/pool.go:426-456 | the step that cuts a shutdown short is HARD's own Stop of a task whose channel another Stop call has closed, or HARD's call on a current task that has become nil since it was tested |
| PoolLight.LightLeavesTasks | pkg/common/workerpool/pool.go:481-483 | a run in which Stop(LIGHT) ends in order with an accepted, ready task still in the queue |
| PoolLightExact.LightFinishesExactly | pkg/common/workerpool/pool.go:35 | with no hanging task in a worker's hands and the pool not stopping itself, every orderly end of Stop(LIGHT) leaves the queue empty exactly when at the call it is empty and no AddTask call is past its state test |
| PoolLightExact.LightLeavesNothing | pkg/common/workerpool/pool.go:437-440 | on every running pool with nothing queued or on its way, nothing is left in any orderly end of Stop(LIGHT) |
| PoolAlive.ReachableIsAlive | pkg/common/workerpool/pool.go:366-376 | while the task queue is open no worker has terminated and each has exactly one restart token, and the workers' context is cancelled only after the queue is closed |
| PoolSettle.Settle | pkg/common/workerpool/worker.go:148-212 | after Stop has begun there is a run, without outside Stop calls, in which every worker finishes what it holds, restarts if it panicked, and waits, with the queue untouched |
| PoolLightExact.StopsInOrder | pkg/common/workerpool/pool.go:476-516 | once all workers wait, for any number of them, the stop can end in order and leave the queue as it is |
| ChannelGroup.RunKeepsInv | pkg/common/workerpoolservice/workerpool_service.go:141-248 | every interleaving of caller, collector, tasks, timer and context keeps the accounting of counter, messages and progress |
| ChannelGroup.CounterIsExact | pkg/common/workerpoolservice/workerpool_service.go:183-236 | between the collector's steps the counter is wgCnt - min(doneCnt, wgCnt); it is never negative and each wg.Done finds it positive |
| ChannelGroup.MessagesNeverBlock | pkg/common/workerpoolservice/workerpool_service.go:152-155 | a completion message always finds room in doneCh, or a closed channel |
| ChannelGroup.NilMeansAllReceived | pkg/common/workerpoolservice/workerpool_service.go:159-248 | when the group returns without an error, on whatever path, every non-nil task was accepted, sent its message and the message was received |
| ChannelGroup.InterruptReleasesAll | pkg/common/workerpoolservice/workerpool_service.go:195-224 | what an interruption begins to release it releases to zero, a surplus message comes only after one, and the collector ends only by that message or by the channel closed and read out |
| ChannelGroup.GroupCanAlwaysReturn | pkg/common/workerpoolservice/workerpool_service.go:141-248 | from every reachable state there is a run to the return of the group with its collector ended, without an error as long as there has been none |
| ChannelGroup.InterruptedGroupLeavesTasks | pkg/common/workerpoolservice/workerpool_service.go:218-224 | a run in which the timer lets the group return with an error while an accepted task has not completed |
| OnlinePool.RunKeepsInv | pkg/common/workerpool/pool.go:232-302 | every interleaving of RunOnline and its workers keeps the accounting of entries, errors and wait group |
| OnlinePool.OnlineDecision | pkg/common/workerpool/pool.go:283-302 | ONLINE_DONE is decided exactly when every entry was dequeued, INCOMPLETE_DONE exactly when entries are left and every worker ended by panic; each dequeued task was processed once or lost once to such a panic, and no nil entry was |
| OnlinePool.OnlineCanAlwaysDecide | pkg/common/workerpool/pool.go:232-302 | from every reachable state, whatever panics happened, there is a run to the decision |
| OnlinePool.OnlineFillNeverBlocks | pkg/common/workerpool/pool.go:234-260 | filling the queue never blocks, and a decision is final |
| OnlinePool.OnlineReportsNeverBlock | pkg/common/workerpool/pool.go:233 | a worker's error report never blocks although nobody reads the channel |
| NodeHistory.PreviousIsNewestOlder | lib/metrics-server/source/pkg/storage/node.go:71-104 | a kept previous point is the most recent one of the unbroken run of batches whose timestamp is strictly below the last one's |
| NodeHistory.DroppedExactlyWhenRisen | lib/metrics-server/source/pkg/storage/node.go:81-96 | an older point exists and none is kept exactly when timestamps rose again between the newest older point and the last one |
| NodeHistory.DropHappens | lib/metrics-server/source/pkg/storage/node.go:81-96 | after batches with timestamps 1, 3, 5 and 3 no previous point is kept although the first one is older |
| NodeHistory.SteadyKeepsPrevious | lib/metrics-server/source/pkg/storage/node.go:81-96 | if timestamps never decrease, a previous point is kept exactly when an older point exists |
| NodeHistory.CarryIsPrevious | lib/metrics-server/source/pkg/storage/node.go:81-96 | the step from the two stored points and the new one gives what the whole longer run says |
| NodeStore.NodeStorage.Store | lib/metrics-server/source/pkg/storage/node.go:71-104 | both snapshots are, for every node name, what the history with the new batch says |
| NodeStore.NodeStorage.GetMetrics | lib/metrics-server/source/pkg/storage/node.go:40-69 | the answers are those that the whole history gives, in the order asked |
| NodeHistory.AnswersInOrder | lib/metrics-server/source/pkg/storage/node.go:40-69 | the answers to two lists of names are the answers to the one followed by those to the other |
| NodeHistory.AnswersOne | lib/metrics-server/source/pkg/storage/node.go:43-66 | a node is answered, under its own name and with the rate between its last and previous points, exactly when it has a previous point and its CPU value did not go down |
| NodeHistory.RunGrows | lib/metrics-server/source/pkg/storage/node.go:72-81 | a batch without the node breaks its run of points, and the next batch with it begins a new one |
| PodHistory.WindowsArePositive | lib/metrics-server/source/pkg/storage/pod.go:115-146 | every previous point belongs to a container of the last batch and is strictly older |
| PodHistory.NoWindowSpansRestart | lib/metrics-server/source/pkg/storage/pod.go:121-145 | after any run of steady batches a previous point other than the zero point is not older than the container's start and strictly older than the last point |
| PodHistory.PreviousIsExpected | lib/metrics-server/source/pkg/storage/pod.go:102-158 | in a steady history the stored previous point is the start point of a fresh container, else its newest different point if that is later than its start, else none or the zero point |
| PodHistory.CarryIsExpected | lib/metrics-server/source/pkg/storage/pod.go:121-146 | one Store step on one container gives what the longer run says |
| PodHistory.FreshIsRatedFromStart | lib/metrics-server/source/pkg/storage/pod.go:121-125 | after any history, a container at least ten seconds old and younger than the resolution is rated from its start and a CPU value of zero, over its age |
| PodHistory.OldIsNotRatedFromStart | lib/metrics-server/source/pkg/storage/pod.go:126-145 | after any history, any other container's previous point is its last or previous point of before, the zero point, or none |
| PodHistory.OneLifeIsLikeNodes | lib/metrics-server/source/pkg/storage/pod.go:126-145 | with timestamps in any order, a container that is not fresh and has not restarted has the previous point that a node with the same points would have, except for the zero point where there is none |
| PodHistory.PreviousIsExact | lib/metrics-server/source/pkg/storage/pod.go:102-158 | after any steady history every previous point is a given function of the history alone: what its run says, or the zero point where the run says nothing, the last point came twice and the pod was kept before |
| PodHistory.PodIsKeptExactly | lib/metrics-server/source/pkg/storage/pod.go:148-151 | a pod is in the previous snapshot exactly when the history gives some container of it a previous point |
| PodHistory.ZeroIsStoredExactly | lib/metrics-server/source/pkg/storage/pod.go:133-136 | after which steady histories a container's stored previous point is the zero point, in both directions |
| PodHistory.ZeroPointHappens | lib/metrics-server/source/pkg/storage/pod.go:133-136 | a family of steady histories after which a container's previous point is the zero point |
| PodHistory.AnswersAgree | lib/metrics-server/source/pkg/storage/pod.go:61-84 | any two answers for a pod have the same timestamp and the same containers with the same rates |
| PodStore.PodStorage.Store | lib/metrics-server/source/pkg/storage/pod.go:102-161 | both snapshots are what the history with the new batch says |
| PodStore.PodStorage.StorePod | lib/metrics-server/source/pkg/storage/pod.go:113-147 | the new and previous points of one pod, for every order of its containers |
| PodStore.AnswerPod | lib/metrics-server/source/pkg/storage/pod.go:61-97 | for every order of containers: a pod is answered exactly when every last container has a previous point; the containers are those whose CPU value did not go down, each once; the timestamp is their minimum and the window belongs to one that has it |
| PodStore.PodStorage.GetMetrics | lib/metrics-server/source/pkg/storage/pod.go:48-100 | one such answer for each requested pod that can be served, in the order asked |
| PodHistory.ServedIsFilter | lib/metrics-server/source/pkg/storage/pod.go:50-59 | the pods served of two lists are those of the one followed by those of the other |
| PodHistory.ServedOne | lib/metrics-server/source/pkg/storage/pod.go:51-71 | a pod is served exactly when both snapshots have it and the previous one has each container of the last |
| Storage.MetricsStorage.Store | lib/metrics-server/source/pkg/storage/storage.go:60-65 | both stores take the same batch, so both hold what one history says |
| Storage.MetricsStorage.Ready | lib/metrics-server/source/pkg/storage/storage.go:40-46 | true exactly when the history gives some node or some container a previous point |
| Storage.MetricsStorage.GetNodeMetrics | lib/metrics-server/source/pkg/storage/storage.go:48-52 | the node answers of the composed store are those of the whole history |
| Storage.MetricsStorage.GetPodMetrics | lib/metrics-server/source/pkg/storage/storage.go:54-58 | the pod answers of the composed store are answers for the snapshots of the whole history |
| Rates.UsageIsExact | lib/metrics-server/source/pkg/storage/types.go:53-66 | an error exactly when the CPU value went down; otherwise timestamp and memory are the last point's, the window is the difference of the timestamps up to the longest Duration, and the CPU quantity is the rate rounded down; quantities are exact below 2^63 and at most 9 units low above |
| Rates.RateIsExact | lib/metrics-server/source/pkg/storage/types.go:57-58 | the rate is the only u with u*w <= d*10^9 < (u+1)*w |
| Rates.QuantityIsClose | lib/metrics-server/source/pkg/storage/types.go:68-81 | the mantissa always fits int64; the value is exact up to 2^63-1 and at most 9 units low above it |
| Rates.RateOfFullCore | lib/metrics-server/source/pkg/storage/types.go:57-58 | full use of some cores over a window is that many cores |
| Labels.MatchesAtMostOne | lib/metrics-server/source/pkg/scraper/client/resource/decode.go:106-108 | a series matches at most one name without a brace, so the order of the switch does not matter |
| Labels.NamesHaveNoBrace | lib/metrics-server/source/pkg/scraper/client/resource/decode.go:29-35 | none of the five names has a brace |
| Labels.LabelsReadBack | lib/metrics-server/source/pkg/scraper/client/resource/decode.go:164-181 | from any printed label list the three values read are those of the first labels whose names end with container, pod and namespace |
| Labels.LabelRoundTrip | lib/metrics-server/source/pkg/scraper/client/resource/decode.go:164-181 | the three labels printed in any order, with values free of quotes and equal signs, are read back |
| Labels.CutsExactly | lib/metrics-server/source/pkg/scraper/client/resource/decode.go:171-173 | a value can be cut exactly when a quote follows the place where it begins, the end of the tag's first occurrence or a fixed place when there is none, and it reaches to the first such quote |
| Decode.ParseContainerMetrics | lib/metrics-server/source/pkg/scraper/client/resource/decode.go:123-162 | one container line changes only that container's point, created as the zero point when missing |
| Decode.CheckContainerMetrics | lib/metrics-server/source/pkg/scraper/client/resource/decode.go:183-197 | for every order of containers: nil exactly when some non-zero point lacks CPU or memory, otherwise all non-zero points |
| Decode.ReadSeries | lib/metrics-server/source/pkg/scraper/client/resource/decode.go:63-79 | what one series line does to node and pods, panics included |
| Decode.DecodeBatch | lib/metrics-server/source/pkg/scraper/client/resource/decode.go:37-104 | the batch is the emission of the fold over all lines, or a panic |
| Decode.EmitPods | lib/metrics-server/source/pkg/scraper/client/resource/decode.go:89-102 | for every order of pods the emitted pods are those that pass the check |
| DecodeMeaning.ReadsUnlessMalformed | lib/metrics-server/source/pkg/scraper/client/resource/decode.go:170-181 | decoding does not panic exactly when no container line has labels that cannot be cut |
| DecodeMeaning.PanicsOnUncuttableOnly | lib/metrics-server/source/pkg/scraper/client/resource/decode.go:63-79 | decoding panics exactly when some series is one of the three container names, bare or followed by a brace, and the text after the name cannot be cut into labels |
| DecodeMeaning.UnknownSeriesIsSkipped | lib/metrics-server/source/pkg/scraper/client/resource/decode.go:77-78 | a series that is none of the five names, bare or followed by a brace, does not change what is decoded, wherever it stands |
| DecodeMeaning.UnitsAreExact | lib/metrics-server/source/pkg/scraper/client/resource/decode.go:110-121 | values are cut toward zero, milliseconds become nanoseconds since the Unix epoch, and only values out of range are left open |
| DecodeMeaning.UnitsExample | lib/metrics-server/source/pkg/scraper/client/resource/decode.go:123-162 | what a CPU, a memory and a start line of given values set, in numbers, and what they leave alone |
| DecodeMeaning.StampIsOwnOrDefault | lib/metrics-server/source/pkg/scraper/client/resource/decode.go:59-62 | a line without a timestamp has that of the scrape |
| DecodeMeaning.FoldMeans | lib/metrics-server/source/pkg/scraper/client/resource/decode.go:110-162 | after any lines every point is what the last CPU, memory and start lines for it say, and the containers held are those mentioned |
| DecodeMeaning.NodeIsEmittedWhenComplete | lib/metrics-server/source/pkg/scraper/client/resource/decode.go:82-87 | the node is emitted exactly when its CPU and memory are non-zero |
| DecodeMeaning.PodIsEmittedWhenComplete | lib/metrics-server/source/pkg/scraper/client/resource/decode.go:89-102 | a pod is emitted exactly when it is mentioned and every container mentioned for it has non-zero CPU and memory, and then with all of them |
| DecodeMeaning.DecodingIsOrderIndependent | lib/metrics-server/source/pkg/scraper/client/resource/decode.go:37-104 | any permutation of the lines gives the same batch, if no two different lines set the same field and CPU and memory lines of a key share a timestamp |
| DecodeMeaning.TimestampIsCpuTime | lib/metrics-server/source/pkg/storage/types.go:45-46 | for any lines, the point carries its last CPU line's time exactly when the last memory line, if it comes later, has the same time |
| DecodeMeaning.LateMemoryMovesTimestamp | lib/metrics-server/source/pkg/scraper/client/resource/decode.go:138-150 | of a printed CPU series and a later memory series with another time, the point carries the memory's time |
| DecodeMeaning.SeriesRoundTrip | lib/metrics-server/source/pkg/scraper/client/resource/decode.go:68-76 | a container series printed with its labels in any order is read as that container and field |
| DecodeMeaning.NodeSeriesAreRead | lib/metrics-server/source/pkg/scraper/client/resource/decode.go:64-67 | the two node series, bare or with labels, are read as the node's CPU and memory |
| Scraper.AddMissing | lib/metrics-server/source/pkg/scraper/scraper.go:156-169 | merging one reply keeps what is there and adds the rest, for every order of keys |
| Scraper.Scrape | lib/metrics-server/source/pkg/scraper/scraper.go:109-174 | for every interleaving exactly one reply per node is received before the channel closes, and the result is the replies merged in the order of arrival |
| Scraper.FirstReplyWins | lib/metrics-server/source/pkg/scraper/scraper.go:151-170 | each key holds the value of the first reply that has it |
| Scraper.NodeComesFromFirst | lib/metrics-server/source/pkg/scraper/scraper.go:151-162 | a node has the point of the first reply that has it, and a node in no reply is not in the result |
| Scraper.PodComesFromFirst | lib/metrics-server/source/pkg/scraper/scraper.go:163-169 | the same for pods |
| Scraper.KeysAreTheUnion | lib/metrics-server/source/pkg/scraper/scraper.go:151-170 | the keys are the union over the replies and each value comes from one of them |
| Scraper.ScheduleIndependentExactly | lib/metrics-server/source/pkg/scraper/scraper.go:151-170 | the merged map is the same for every order of arrival exactly when no two replies differ on a key |
| Scraper.MergeIsScheduleIndependent | lib/metrics-server/source/pkg/scraper/scraper.go:109-174 | with distinct node names the node map is the same for every order, and so is the pod map when no pod is reported twice |
| Scraper.DecodedHoldsOwnNode | lib/metrics-server/source/pkg/scraper/client/resource/decode.go:82-87 | a decoded batch holds at most its own node |
| Buckets.BucketsForScrapeDuration | lib/metrics-server/source/pkg/utils/monitoring.go:25-58 | the result is the schedule for the library's list and the timeout, in a new slice, with the library's list left as it was |
| Buckets.InsertAt | lib/metrics-server/source/pkg/utils/monitoring.go:51-54 | the two appends insert the timeout and lose nothing although the first overwrites the slice in place |
| Buckets.Append | lib/metrics-server/source/pkg/utils/monitoring.go:53-54 | Go's append: in place while the capacity suffices, in a new array otherwise |
| Buckets.NearestDecide | lib/metrics-server/source/pkg/utils/monitoring.go:38-49 | the two neighbours of the timeout decide whether any bucket is nearer than the first bucket's size |
| Buckets.ScheduleIsSortedAndCovers | lib/metrics-server/source/pkg/utils/monitoring.go:25-58 | every schedule is strictly increasing, has the base list as a subsequence, and has a bucket at the timeout or nearer to it than the first bucket's size |
| Buckets.ScheduleIsUnique | lib/metrics-server/source/pkg/utils/monitoring.go:25-58 | the schedule is determined by the base list and the timeout |

## Left out

- The worker pool's goroutines are steps on values, not methods of classes: a method body runs without interleaving,
  and the interleavings are the point. The fields, branches and order of effects are those of the source; pointer
  aliasing is modelled by identifiers.
- Real time: timers, timeouts and sleeps happen at any moment they are armed for.
- Liveness: what can be reached from every state is stated for the two groups' and the online pool's ends, not that it is reached.
- `sync.Pool` is an object that may be handed out at any time after it was put; that it may be dropped changes nothing for the object.
- A handler goroutine that sends on its local channel after `process` closed it ends the program; the model has no step there.
- `Stop` on a pool that never ran, a panic of `RunBG` itself, and stopping a pool that runs online or losing its parent context.
- In `PoolMachine` every task belongs to one group list. Calls of `AddTask` without a group, the same task in two lists, and
  `NewTask` during the run are not modelled there, so neither is a shutdown that stops a later life of an object it has read; lives and
  recycling of one object are in `Tasks`.
- The content of a task's own done channel in `PoolMachine`: its send succeeds, or panics, at any moment. `ChannelGroup` models that channel.
- Workers and `AddTask` panic only where they call metrics code, since `process` recovers the handler's panics.
- PoolLightExact.LightFinishesExactly: leaves out pools in which a worker holds a long task without an effective timeout, which may never
  let the worker end, and pools whose RunBG has seen its parent context closed, in which no panicked worker is restarted.
- PoolHard.HardIsSafeExactly: leaves out pools with a task that would hang, whose worker never clears its current task unless somebody
  stops the task, and pools whose RunBG has seen its parent context closed; PoolHard.NothingToDoNeverAborts covers both.
- PoolHard.QuiescenceExactly: leaves out the same pools; PoolHard.QuiescenceAfterStop covers them.
- PoolTheorems.NoReportAfterClose: leaves out shutdowns that timed out or panicked, after which a late report ends the program.
- Floating point: samples are reals and rates are exact, so the rounding of float64 is not modelled, nor NaN and infinities. What a
  conversion gives for a value out of its range, which Go leaves open, is a parameter of decoding, and every result holds for all of them.
- Rates.UsageIsExact: says nothing about a rate that does not fit uint64, for the same reason.
- The text parser: decoding begins with the sequence of series lines; a parser error other than the end of the text is not modelled.
- Label text is a sequence of characters and not of bytes.
- The duplicate-key branches inside loops over a Go map, which no map can reach.
- Logging, metrics counters, object metadata, creation times, HTTP, JWT, SQL, configuration, the Kubernetes API code and the demo handlers.
