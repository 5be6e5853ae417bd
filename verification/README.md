# XSched: preemptible queues, their schedulers and their memory

XSched lets the work of many processes share an accelerator. Each process submits commands to an
XQueue; a launch worker takes them from a buffer and launches them on an in-order hardware queue,
and a scheduler may suspend and resume the XQueue at any moment. This project models the parts where
that is delicate, in Dafny, and proves what they promise.

- **The execution pipeline** (`Pipeline*.dfy`, `LaunchLog.dfy`). One XQueue as a system of steps that
  interleave freely: submitting, dequeuing, launching, the two synchronization loops with the lock
  released in the middle, application threads that synchronize too, suspending, resuming, dropping,
  destroying, and a hardware queue that runs commands in order and may lose deactivatable ones while
  it is deactivated. Reactivating waits for the hardware first and then relaunches the lost commands
  one step at a time, over the log as it is at each step, while the worker and the application
  threads go on. `PipelineInvariant.dfy` states what every reachable state satisfies,
  `PipelineSteps.dfy` proves it step by step, `PipelineTheorems.dfy` draws the conclusions,
  `PipelineReactivation.dfy` says when a launch gets ahead of the relaunch and what that costs, and
  `PipelineCounterexamples.dfy` shows runs in which a condition of a theorem is needed.
- **The same code as objects** (`Commands.dfy`, `LaunchWorker.dfy`, `XQueueObjects.dfy`). The critical
  sections of the command, the worker, the buffer and the XQueue as classes that change their fields,
  proved against the worker and buffer functions that the pipeline's steps use.
  `XQueueRefinement.dfy` shows that an uninterrupted suspension or resumption of the object is a run of
  the pipeline's control steps.
- **The MCS lock** (`McsLock.dfy`), one shared access per step, for any number of threads.
- **The scheduler's mirror** (`Mirror.dfy`, `Operations.dfy`): the tables of processes and queues under
  every event and decision, and the way decisions travel to the clients.
- **Three policies**: completely fair (`Cfs*.dfy`), SLO (`Slo*.dfy`) and process utilization
  (`Pup*.dfy`), each as a class over the scheduler and as a run of scheduler and policy together.
  `Policies.dfy` and `Walks.dfy` hold what they share. `CfsCharging.dfy`, `CfsTurns.dfy`, `SloDeadlines.dfy`,
  `SloCharging.dfy` and `PupShares.dfy` state what the policies go by on the fields of queues and entries:
  what running costs, who is due first, what a turn is worth.
- **Memory admission** (`Admission*.dfy`): regions, watermarks, eviction and prefetching.
  `AdmissionVictims.dfy` and `AdmissionShares.dfy` say on the fields of regions and queues who is moved,
  how much, and what a queue is entitled to.
  `AdmissionOrder.dfy` says when the outcome depends on the order of the hash tables.
- **The header merger's sort** (`TopoSort.dfy`), and when the graph it sorts is the one that was
  meant (`HeaderNames.dfy`).

Where the source walks over a hash table, a method takes the order of the walk as a parameter
(`order`), and nothing is assumed about it except that it names every key once. Clocks, what the
memory driver answers, what it refuses, and which properties a command has are parameters too.

## What the proofs found

These are consequences of the code as it stands. Each is a lemma, with an input or a run in which the
property fails and the condition under which it holds.

- **A command can run ahead of an earlier one, and twice** (`RelaunchIsOvertaken`). `Resume` holds no
  worker lock: it passes the live log to the hardware (`preempt/src/xqueue/async_xqueue.cpp:137-145`),
  which waits and then relaunches entry by entry (`platforms/cuda/hal/src/level2/cuda_queue.cpp:29-41`).
  A worker that waited for a slot through a command that somebody else completed launches meanwhile.
  The order of effects is guaranteed exactly until that happens: `OvertakingSteps` names the two steps
  that do it, `OvertakingBreaksOrder` shows that after either of them some continuation runs a command
  twice, and `OvertakingNeedsDisturbance` that it takes a level that deactivates, and an application
  thread that synchronizes or a dropping resume earlier in the run.
- **A full log may have nothing to wait on** (`FullLogIsDrained`). The comment at
  `preempt/src/xqueue/launch_worker.cpp:12-13` says that a threshold of at least the batch size leaves a
  command to wait for. That needs `EnableSynchronization` to succeed; the full log waits on one command
  exactly if some command in flight is synchronizable, and else is drained as a whole
  (`FullLogWaitsOnOneCommand`).
- **A command can be launched while the worker is paused** (`PausedLaunchIsPossible`), exactly if the
  worker waits for a slot through a command that is completed already: the early return at line 317
  skips the test of the worker state, and the branch at line 192 does not repeat it
  (`PausedLaunchesAreEarlyReturns`).
- **The assertion in `EnqueueXQueueWaitAllCommand` can fail** (`HostFunctionBreaksWaitAll`). Of all steps
  exactly the enqueueing of a host function or destroy command on an idle queue breaks it, and over a run
  it holds all along exactly if that never happens (`WaitAllAssertionOverRuns`). Nothing in the
  repository enqueues a host function command, so this is an input of the buffer's interface only.
- **A dropping resume can complete a wait-all command before a command submitted earlier**
  (`DroppedWaitAllIsEarly`), exactly if something it covers is in flight or in the worker's hands when
  the buffer is emptied (`DroppedWaitAllIsEarlyIff`).
- **The completely fair policy does not start every newcomer level with its device.** A queue competes
  level the first time it is found ready exactly if the policy had not met it before, or if the least
  virtual runtime of its competitors is zero (`FirstCompetition`). A round that finds the queue idle
  (`IdleRoundStartsBehind`) and a priority hint (`EarlyHintStartsBehind`) each make the entry too early,
  at zero. Such a queue is the one that runs for as long as its virtual runtime is the lowest
  (`LowestIsPreferred`).
- **The process utilization policy does not run one process alone through its turn**
  (`NewQueueRunsBesideTheTurn`). From a switch to the next one a turn stays exclusive exactly if no event
  makes a handle known for a process other than the running one (`TurnStaysExclusiveIff`).
- **The SLO policy passes queue zero over** (`UrgentZeroLoses`): it writes zero for "no queue". The pick
  is the queue that deserves the device exactly if queue zero does not win an urgent or
  latency-sensitive class while another queue can be taken instead (`BestDeserves`).
- **Who is evicted can depend on the order of the hash table** (`FirstOfTheWalkIsTheVictim`): unowned
  regions are stamped along the walk, and the stamps decide. A suspension comes out the same for all
  walks exactly if it returns early, is made for no queue, or finds at most one unowned region at its
  place (`SuspensionIsOrderFreeIff`), and so does a resumption (`ResumptionIsOrderFreeIff`).
- **Of two headers with one file name only the last can be included** (`MeantComesLast`,
  `CycleOfNames`). Both are nodes of the graph, and every include of the name goes to the last one
  found, so a header can be merged before what it includes, or a cycle be reported that is none. The
  graph has an edge for everything an include can mean exactly if no include can mean two headers
  (`MeaningsAreEdgesIff`).

## Model

| member | source | states |
|---|---|---|
| `PipelineSteps.RunKeepsInv` | preempt/src/xqueue/launch_worker.cpp:78-360 | the invariant of the pipeline holds after every interleaving of every kind of step |
| `PipelineTheorems.CompletionIsTruthful` | preempt/src/xqueue/launch_worker.cpp:257-360 | a command marked completed and not dropped has run on the hardware, even if it was lost by a deactivation and relaunched from the log meanwhile |
| `PipelineTheorems.SuspensionIsInvisible` | preempt/src/xqueue/async_xqueue.cpp:94-145 | once everything submitted is completed, nothing was dropped and no launch overtook lost commands, the hardware has computed what one uninterrupted execution in submission order computes, however often it was suspended |
| `PipelineTheorems.EffectsAreInSubmissionOrder` | preempt/src/xqueue/launch_worker.cpp:159-165 | as long as no launch has overtaken lost commands, the executions of commands that are not idempotent are in submission order, each at most once |
| `PipelineReactivation.OvertakingSteps` | preempt/src/xqueue/async_xqueue.cpp:137-145 | commands are overtaken by a step if and only if it launches a command that is not idempotent while lost ones are still to be relaunched, or loses a command launched after the wait for the hardware that has such a command pending behind it |
| `PipelineReactivation.OvertakingBreaksOrder` | platforms/cuda/hal/src/level2/cuda_queue.cpp:29-41 | from any such step on some continuation of the run executes a command that is not idempotent twice, so the condition of the two theorems above cannot be weakened |
| `PipelineReactivation.OvertakingNeedsDisturbance` | preempt/src/xqueue/async_xqueue.cpp:129-145 | overtaking takes a level that deactivates, and a dropping resume or an application thread that synchronizes earlier in the run |
| `PipelineCounterexamples.RelaunchIsOvertaken` | platforms/cuda/hal/src/level2/cuda_queue.cpp:29-41 | a run without dropping in which the hardware executes the commands 1, 3, 2, 3 |
| `PipelineTheorems.LogsAreBoundedAndInStep` | preempt/src/xqueue/launch_worker.cpp:192-254 | at most `threshold` commands are in flight, in index order, and the second log is exactly the synchronizable ones of the first, also with application threads synchronizing |
| `PipelineTheorems.FullLogHasSomethingToWaitOn` | preempt/src/xqueue/launch_worker.cpp:12-14 | if every command can be made synchronizable, a full log has a synchronizable command at or after its front |
| `PipelineTheorems.FullLogWaitsOnOneCommand` | preempt/src/xqueue/launch_worker.cpp:192-208 | a full log waits on one command, the oldest synchronizable one, exactly if some command in flight is synchronizable; otherwise it drains everything |
| `PipelineCounterexamples.FullLogIsDrained` | preempt/src/xqueue/launch_worker.cpp:205-208 | a run in which the full log is drained as a whole because no command could be made synchronizable |
| `PipelineTheorems.LogOrderIsPreemptionSafe` | preempt/src/xqueue/launch_worker.cpp:159-190 | at a level that deactivates, no command that is neither deactivatable nor idempotent is in flight behind a deactivatable one |
| `PipelineTheorems.LaunchWaitsIff` | preempt/src/xqueue/launch_worker.cpp:159-190 | a launch waits for commands in flight, other than for a slot, exactly at a level that deactivates, for a command neither deactivatable nor idempotent, behind a deactivatable one |
| `PipelineTheorems.BatchSyncWaitsOnOldest` | preempt/src/xqueue/launch_worker.cpp:119-131 | a batch synchronization waits for the oldest synchronizable command in flight, and is given up exactly if there is none |
| `PipelineTheorems.LaunchesAreMadeWhileRunning` | preempt/src/xqueue/launch_worker.cpp:210-226 | without dropping resumes and with only the worker synchronizing, every launch is made while the worker runs |
| `PipelineTheorems.SuspensionTakesHold` | preempt/src/xqueue/async_xqueue.cpp:94-115 | between calls the worker is paused exactly while the queue is suspended, and the hardware deactivated exactly then at a level that deactivates |
| `PipelineTheorems.PausedLaunchesAreEarlyReturns` | preempt/src/xqueue/launch_worker.cpp:298-328 | a launch is made while paused if and only if the worker waits for a slot through a command that is already completed |
| `PipelineCounterexamples.PausedLaunchIsPossible` | preempt/src/xqueue/launch_worker.cpp:298-328 | a run without dropping in which the second command is launched while the worker is paused |
| `PipelineTheorems.LaunchesAreInOrder` | preempt/src/xqueue/launch_worker.cpp:156-255 | commands are launched in submission order, each at most once by the worker, and never after a dropping resume that covers them |
| `PipelineTheorems.SyncAssertionsHold` | preempt/src/xqueue/launch_worker.cpp:298-332 | what a thread synchronizes is synchronizable and was launched, unless it is already completed: the assertions of the loop hold |
| `PipelineTheorems.IdleIsTruthful` | preempt/src/xqueue/command_buffer.cpp:33-47 | when the buffer turns idle with no dropping resume so far, the buffer and both logs are empty and every command and wait-all is completed |
| `PipelineTheorems.EmptyBufferIs` | preempt/src/xqueue/command_buffer.cpp:20-72 | from an empty buffer the worker gets a batch synchronization after a hardware command, a wait-all covering everything after that, and then nothing while the queue is idle |
| `PipelineTheorems.ReadyEventsAlternate` | preempt/src/xqueue/command_buffer.cpp:20-93 | ready and idle events alternate, starting with ready, and at most two commands are generated between two enqueues |
| `PipelineTheorems.WaitAllAssertion` | preempt/src/xqueue/command_buffer.cpp:106-113 | the assertion on an idle queue holds while only hardware and wait-all commands are enqueued |
| `PipelineTheorems.OtherEnqueueAndWaitAllAssertion` | preempt/src/xqueue/command_buffer.cpp:74-113 | of all steps of a run exactly the enqueueing of a host function or destroy command on an idle queue breaks that assertion |
| `PipelineTheorems.WaitAllAssertionOverRuns` | preempt/src/xqueue/command_buffer.cpp:74-113 | the assertion holds at every point of a run if and only if no such command is enqueued on an idle queue anywhere in it |
| `PipelineCounterexamples.HostFunctionBreaksWaitAll` | preempt/src/xqueue/command_buffer.cpp:106-113 | a run that reaches a state in which the assertion fails, by enqueueing a host function command: an input of the buffer's interface that nothing in the repository makes |
| `PipelineTheorems.RequestedCoversAll` | preempt/src/xqueue/command_buffer.cpp:102-129 | the command handed out for a wait-all, new or reused, stands behind every hardware command submitted so far |
| `PipelineTheorems.WaitAllWaitsForAll` | preempt/src/xqueue/command_buffer.cpp:102-129 | when that command is completed and was not dropped, every hardware command submitted before the call is completed |
| `PipelineCounterexamples.DroppedWaitAllIsEarly` | preempt/src/xqueue/command_buffer.cpp:95-100 | a run in which a dropping resume completes a wait-all before a command submitted earlier |
| `PipelineTheorems.DroppedWaitAllIsEarlyIff` | preempt/src/xqueue/command_buffer.cpp:95-100 | when the buffer is emptied, everything a queued wait-all covers is completed with it if and only if none of that is in flight or in the hands of the worker |
| `PipelineTheorems.NothingIsDropped` | preempt/src/xqueue/async_xqueue.cpp:150-158 | without a dropping resume no command is completed without being waited for |
| `PipelineTheorems.DropEmptiesLogs` | preempt/src/xqueue/launch_worker.cpp:49-64 | when a dropping resume finishes, both logs are empty and every command it covers is completed, still in the worker's hands, or was submitted to the buffer since it was emptied |
| `PipelineTheorems.HeldIsDropped` | preempt/src/xqueue/launch_worker.cpp:228-232 | a covered command still in the worker's hands leaves them completed and never launched |
| `PipelineTheorems.DroppedIsNeverLaunched` | preempt/src/xqueue/async_xqueue.cpp:150-158 | after a dropping resume with index d, no command up to d is ever launched in any continuation |
| `PipelineTheorems.DropsReachOnlyTheIndex` | preempt/src/xqueue/async_xqueue.cpp:150-158 | no command after the announced index is dropped, so later submissions survive until another dropping resume |
| `PipelineTheorems.BlockIgnoresDropFlag` | preempt/src/xqueue/async_xqueue.cpp:130-135 | at level Block a run ends in the same state with all its drop flags cleared |
| `LaunchLog.ScanBackIsRight` | preempt/src/xqueue/launch_worker.cpp:172-189 | the backward scan waits on the oldest synchronizable command that is at or after the newest deactivatable one, on everything if there is none, and on nothing if nothing deactivatable is in flight |
| `LaunchLog.PopThroughKeepsLater` | preempt/src/xqueue/launch_worker.cpp:344-357 | popping a log up to an index keeps exactly the later commands |
| `LaunchLog.SlotCommandIsOldest` | preempt/src/xqueue/launch_worker.cpp:194-203 | the search over the second log finds its oldest command that is not before the front, or nothing if there is none |
| `Commands.XCommand.SetState` | preempt/src/xqueue/xcommand.cpp:12-27 | states only advance and every listener is called once with each state passed, in order |
| `Commands.XCommand.AddStateListener` | preempt/include/xsched/preempt/xqueue/xcommand.h:73-74 | a new listener has heard nothing and will hear what comes after the current state |
| `Commands.PassedEachOnce` | preempt/src/xqueue/xcommand.cpp:22-26 | the states announced on the way from one state to another are all those in between, each once, in order |
| `LaunchWorkers.LaunchWorker.Pause` | preempt/src/xqueue/launch_worker.cpp:33-39 | pauses the worker and counts the pause, and changes nothing else |
| `LaunchWorkers.LaunchWorker.Resume` | preempt/src/xqueue/launch_worker.cpp:41-47 | lets the worker run and changes nothing else |
| `LaunchWorkers.LaunchWorker.ResumeAndDrop` | preempt/src/xqueue/launch_worker.cpp:49-64 | completes every command in flight, empties both logs and announces the drop index |
| `LaunchWorkers.LaunchWorker.CompleteAll` | preempt/src/xqueue/launch_worker.cpp:286-290 | completes and removes every command in flight |
| `LaunchWorkers.LaunchWorker.CompleteThrough` | preempt/src/xqueue/launch_worker.cpp:344-357 | completes and removes exactly the commands up to the one synchronized, in both logs |
| `LaunchWorkers.LaunchWorker.ScanForDeactivatable` | preempt/src/xqueue/launch_worker.cpp:172-189 | the scan over the objects finds what the specified backward scan finds |
| `LaunchWorkers.LaunchWorker.ScanForSlot` | preempt/src/xqueue/launch_worker.cpp:193-203 | the search over the objects finds the specified slot command or reports that there is none |
| `LaunchWorkers.LaunchWorker.LaunchOrDrop` | preempt/src/xqueue/launch_worker.cpp:228-254 | a command up to the drop index is completed unlaunched; any other is made synchronizable at the end of a batch, launched and logged |
| `XQueueObjects.CommandBuffer.Enqueue` | preempt/src/xqueue/command_buffer.cpp:74-93 | appends the command, and turns an idle buffer ready with one event exactly for a hardware command |
| `XQueueObjects.CommandBuffer.Dequeue` | preempt/src/xqueue/command_buffer.cpp:20-72 | takes the front; on empty, generates a batch-sync or wait-all command or turns idle, by the kind of the last command |
| `XQueueObjects.CommandBuffer.DropAll` | preempt/src/xqueue/command_buffer.cpp:95-100 | completes and removes everything in the buffer |
| `XQueueObjects.CommandBuffer.RequestWaitAll` | preempt/src/xqueue/command_buffer.cpp:102-129 | reuses the last command if it is a wait-all, else enqueues a new one |
| `XQueueObjects.AsyncXQueue.Submit` | preempt/src/xqueue/async_xqueue.cpp:47-54 | gives the command the next index and enqueues it pending |
| `XQueueObjects.AsyncXQueue.Suspend` | preempt/src/xqueue/async_xqueue.cpp:94-115 | pauses the worker first and then, with the worker paused, tells the hardware once, deactivates it once at every level but Block, interrupts it once at level Interrupt and waits for it once if asked, in this order, and calls nothing else; does nothing when suspended or terminated |
| `XQueueObjects.SuspendCallsStop` | preempt/src/xqueue/async_xqueue.cpp:108-112 | the calls of a suspension are OnXQueueSuspend first, Deactivate exactly at every level but Block, Interrupt exactly at level Interrupt, Synchronize exactly if asked, each once and in this order |
| `XQueueObjects.AsyncXQueue.Resume` | preempt/src/xqueue/async_xqueue.cpp:122-159 | reactivates the hardware with the log before it resumes the worker, or with the drop flag reactivates it with nothing and completes everything in the buffer and the log; does nothing when not suspended |
| `XQueueObjects.ResumeCallsRestart` | preempt/src/xqueue/async_xqueue.cpp:128-150 | the calls of a resumption are BeforeXQueueResume first, then Restore exactly at level Interrupt, then Reactivate exactly at every level but Block, each once and with the log given |
| `XQueueRefinement.SuspendIsPipelineRun` | preempt/src/xqueue/async_xqueue.cpp:94-115 | an uninterrupted suspension is a run of control steps of the pipeline, and the hardware is deactivated or not as the calls made to it leave it |
| `XQueueRefinement.ResumeIsPipelineRun` | preempt/src/xqueue/async_xqueue.cpp:122-159 | an uninterrupted resumption is a run of control steps of the pipeline: worker, buffer and hardware end up as the call leaves them, and what is relaunched is the part of the log passed to Reactivate from its first lost command on, or nothing with the drop flag |
| `McsLock.RunKeepsInv` | utils/src/lock.cpp:19-45 | the queue of nodes stays consistent under every interleaving of any number of threads |
| `McsLock.MutualExclusion` | utils/src/lock.cpp:19-45 | at most one thread is between lock and unlock, the one longest in the queue |
| `McsLock.AcquiredInExchangeOrder` | utils/src/lock.cpp:19-31 | the lock is acquired in the order of the exchanges on the tail |
| `McsLock.ReleaseToNobodyIffAlone` | utils/src/lock.cpp:33-39 | the compare-exchange of unlock succeeds if and only if no thread exchanged the tail after the holder |
| `McsLock.HandoverIsToTheSuccessor` | utils/src/lock.cpp:40-44 | an unlocker that found a later tail hands over to its direct successor in exchange order, and that thread is the next to leave its spin loop |
| `McsLock.SomeoneCanMove` | utils/src/lock.cpp:19-45 | while the queue is not empty some thread in it can take a step that changes the state |
| `McsLock.MCSLock.Access` | utils/src/lock.cpp:19-45 | one shared access on the nodes changed in place does what the specified step does |
| `Mirror.RunKeepsMirror` | sched/src/scheduler/local.cpp:136-365 | after every history of events and decisions each known queue is in exactly one of its own process's sets, the one its flag asks for, and no set holds anything else |
| `Mirror.MirrorTracksEachQueue` | sched/src/scheduler/local.cpp:136-365 | what the tables say about a queue is what the history of that queue alone says, across process and queue destruction |
| `Mirror.QueueEventIs` | sched/src/scheduler/local.cpp:165-287 | after an event about a queue its entry holds device, level, threshold and batch size of a configuration and the ready flag and time of a ready or idle event, keeps the rest, and for an unknown queue belongs to the process of the event and is not suspended; no other entry changes |
| `Mirror.DestructionIs` | sched/src/scheduler/local.cpp:190-233 | a destroyed queue is gone, a destroyed process takes exactly its queues with it, and the other entries stay |
| `Mirror.DecisionKeepsMirror` | sched/src/scheduler/local.cpp:337-365 | a suspension or resumption changes one flag, and the sets follow it |
| `Mirror.LocalScheduler.UpdateStatus` | sched/src/scheduler/local.cpp:165-287 | an event changes the tables as specified, and is refused exactly when a queue is destroyed for a process it does not belong to |
| `Mirror.LocalScheduler.CreateXQueueStatus` | sched/src/scheduler/local.cpp:136-163 | a queue heard of for the first time is entered as running, with its process |
| `Mirror.LocalScheduler.Suspend` | sched/src/scheduler/local.cpp:337-350 | moves the queue to the suspended set of its process and sets its flag |
| `Mirror.LocalScheduler.Resume` | sched/src/scheduler/local.cpp:352-365 | moves the queue to the running set of its process and clears its flag |
| `Mirror.LocalScheduler.ResumeAll` | sched/src/scheduler/local.cpp:60-60 | changing the policy leaves no queue suspended and keeps the mirror consistent |
| `Operations.SchedOperation.constructor` | sched/src/protocol/operation.cpp:33-53 | the handle array carries the running set first and then the suspended set, completely and without repeats |
| `Operations.SchedExecutor.ExecuteSchedOperation` | preempt/src/sched/executor.cpp:43-64 | resumes the queues listed first and suspends the others, passing over those that are gone |
| `Operations.ExecuteOperations` | sched/src/scheduler/local.cpp:127-134 | one operation goes out for each process that has queues and none for any other, and it carries the two sets of that process |
| `Operations.DecisionsArriveIntact` | preempt/src/sched/executor.cpp:43-64 | after a client has executed the operation made from the current mirror, behind any backlog, every queue alive on both sides is suspended exactly when the mirror says so and no other queue was touched |
| `Cfs.CompletelyFairSchedulerPolicy.Sched` | sched/src/policy/cfs.cpp:10-106 | a round charges what ran, enrolls what is new, picks one queue per device and carries that out; a timer is set exactly when some queue is ready |
| `Cfs.CompletelyFairSchedulerPolicy.UpdateRuntimes` | sched/src/policy/cfs.cpp:16-24 | exactly the queues marked running are charged, by elapsed time over weight |
| `Cfs.CompletelyFairSchedulerPolicy.FindFloors` | sched/src/policy/cfs.cpp:26-45 | finds for each device the least virtual runtime of its known ready queues, and whether any queue is ready |
| `Cfs.CompletelyFairSchedulerPolicy.EnrollAndPick` | sched/src/policy/cfs.cpp:47-76 | the interleaved loop enrolls every newcomer level with its device and picks as if all had been enrolled before |
| `Cfs.CompletelyFairSchedulerPolicy.SettleAll` | sched/src/policy/cfs.cpp:78-100 | the picks are resumed, the other ready queues suspended, queues that are not ready only unmarked |
| `Cfs.CompletelyFairSchedulerPolicy.RecvPriorityHint` | sched/src/policy/cfs.cpp:108-124 | a priority hint sets priority and weight and nothing else |
| `CfsTheorems.WeightStep` | sched/src/policy/cfs.cpp:117-118 | each step of priority multiplies the weight by 1.2 |
| `CfsCharging.WeightsAre` | sched/src/policy/cfs.cpp:117-118 | the weight is 1024 at priority 0 and 1228.8 at priority 1 |
| `CfsCharging.WeightFollowsHints` | sched/src/policy/cfs.cpp:108-124 | in every run a queue has the weight of the priority that the last hint gave it, or 1024 |
| `CfsTheorems.PickIsLeast` | sched/src/policy/cfs.cpp:72-75 | a device has a pick exactly if it has a ready queue, and no ready queue of the device has less virtual runtime than the pick |
| `CfsTheorems.FloorIsLeast` | sched/src/policy/cfs.cpp:30-45 | the floor of a device is attained by a known ready queue and is at most that of each |
| `CfsTheorems.NewcomerStartsLevel` | sched/src/policy/cfs.cpp:54-68 | a ready queue seen for the first time starts level with the least known ready queue of its device |
| `CfsEntries.CompetesLevelIff` | sched/src/policy/cfs.cpp:54-68 | a ready queue with competitors is level with the least of them in a round if and only if the policy had no entry for it, or the entry is level already |
| `CfsEntries.EntryBeforeFirstReady` | sched/src/policy/cfs.cpp:83-86 | in every run, until a round finds a queue ready it has an entry if and only if a round found it idle or a hint named it, and then one at zero |
| `CfsEntries.FirstCompetition` | sched/src/policy/cfs.cpp:54-68 | in every run, the first round that finds a queue ready among competitors starts it level with the least of them if and only if the policy had not met it before or that least is zero |
| `CfsEntries.IdleRoundStartsBehind` | sched/src/policy/cfs.cpp:83-86 | a run in which a queue starts below its device because a round met it idle |
| `CfsEntries.EarlyHintStartsBehind` | sched/src/policy/cfs.cpp:119-121 | a run in which a queue starts below its device because a hint named it before it was known |
| `CfsEntries.LowestIsPreferred` | sched/src/policy/cfs.cpp:72-100 | in any round of any run, a ready queue with less virtual runtime than every other ready queue of its device is the one that is not suspended |
| `CfsTheorems.RunKeepsRunning` | sched/src/policy/cfs.cpp:78-100 | in every run of scheduler and policy, a queue marked running is not suspended |
| `CfsTheorems.IdleQueuesAreLeft` | sched/src/policy/cfs.cpp:82-86 | a round neither suspends nor resumes a queue that is not ready |
| `CfsTheorems.OneReadyQueuePerDevice` | sched/src/policy/cfs.cpp:78-100 | after any round of any run each device with a ready queue has exactly one ready queue that is not suspended, one of least virtual runtime |
| `CfsFairness.FairnessBound` | sched/src/policy/cfs.cpp:15-24 | for a fixed set of always-ready queues, rounds at most T apart and weights at least w, the spread of virtual runtimes never exceeds the larger of the first spread and T*1024/w |
| `CfsCharging.RoundChargesByWeight` | sched/src/policy/cfs.cpp:16-24 | what a queue found running gains in virtual runtime, times its weight, is the time since it was let run times 1024; no other queue gains anything |
| `CfsCharging.RuntimeIsEarned` | sched/src/policy/cfs.cpp:16-100 | over any stretch of any run the virtual runtime of a queue grows by exactly the sum of its turns, each from the round that last met it to the round that found it running, times 1024 over its weight |
| `CfsTurns.NobodyStarves` | sched/src/policy/cfs.cpp:15-106 | for a fixed set of always-ready queues, with rounds between two gaps and weights between two bounds, each queue gets a turn as soon as so many rounds cost more than twice the fairness bound for each of its competitors |
| `CfsTurns.WaitingCosts` | sched/src/policy/cfs.cpp:15-106 | while a queue of the set waits, every round adds at least the shortest gap times 1024 over the greatest weight to the virtual runtimes of the others, and nothing to its own |
| `Slo.SLOAdaptivePolicy.Sched` | sched/src/policy/slo.cpp:109-147 | a round charges what ran, chooses one queue per device and carries that out, leaving alone unchosen queues that are suspended already; `SloDeadlines.DeservesOnFields` and `SloCharging.RoundChargesByShare` say on the fields who is chosen and what is charged |
| `Slo.SLOAdaptivePolicy.UpdateRuntime` | sched/src/policy/slo.cpp:44-59 | exactly the running queues with time elapsed are charged, by their share, and every queue has an entry |
| `Slo.SLOAdaptivePolicy.PickBestQueue` | sched/src/policy/slo.cpp:61-107 | the single pass with its eight running bests finds the first best queue of each class and returns the first of the three that is not zero, for any handles |
| `Slo.SLOAdaptivePolicy.GetInfo` | sched/src/policy/slo.cpp:11-19 | finds the entry of a queue, making one with defaults if there is none |
| `Slo.SLOAdaptivePolicy.RecvHint` | sched/src/policy/slo.cpp:149-201 | priorities and shares are clamped, a time slice is taken only within its range, a share goes to the queue, the process or both |
| `SloCharging.HintIs` | sched/src/policy/slo.cpp:149-201 | a priority or a share is taken as it is set within its limits and else at the limit, a deadline as it is, and no hint touches virtual runtimes |
| `SloTheorems.BestDeserves` | sched/src/policy/slo.cpp:84-106 | the queue picked is ready; it is the winner, who deserves the device as `SloDeadlines.DeservesOnFields` spells out, if and only if queue zero is not passed over |
| `SloDeadlines.DeservesOnFields` | sched/src/policy/slo.cpp:61-107 | on the fields alone, for all inputs: the device is deserved by the ready queue whose ready time plus deadline is earliest if that is within the coming tick for some queue, else by one of highest priority among those with a deadline or positive priority, and of those by one due first, else by one of least virtual runtime |
| `SloDeadlines.UrgentIff` | sched/src/policy/slo.cpp:79-82 | a queue is urgent exactly if its ready time plus its deadline is within the coming tick |
| `SloDeadlines.UrgencyStays` | sched/src/policy/slo.cpp:34-41 | a queue that is urgent stays so at every later time while its entry does not change |
| `SloTheorems.UrgentZeroLoses` | sched/src/policy/slo.cpp:104-106 | an input on which queue zero is urgent and a batch queue gets the device |
| `SloTheorems.RunKeepsSystem` | sched/src/policy/slo.cpp:125-144 | in every run of scheduler and policy, a queue marked running is not suspended and priorities stay in range |
| `SloTheorems.IdleQueuesAreLeft` | sched/src/policy/slo.cpp:129-132 | a round neither suspends nor resumes a queue that is not ready |
| `SloTheorems.OneReadyQueuePerDevice` | sched/src/policy/slo.cpp:109-147 | after any round of any run each device with a ready queue has exactly one ready queue that is not suspended, the one that deserves it unless queue zero does and is passed over |
| `SloDeadlines.EarliestDueRuns` | sched/src/policy/slo.cpp:109-147 | after any round of any run, if a ready queue is due within the tick, the one ready queue of its device that is not suspended is due no later, unless queue zero is passed over |
| `SloCharging.RoundChargesByShare` | sched/src/policy/slo.cpp:44-59 | what a queue found running gains in virtual runtime, times its share, is the time since it was let run times 100, the share being its process's if one was set, else its own, between 1 and 100; no other queue gains anything |
| `SloCharging.RuntimeIsEarned` | sched/src/policy/slo.cpp:44-144 | over any stretch of any run the virtual runtime of a queue grows by exactly the sum of its turns, each from the round that last met it to the round that found it running, times 100 over its share |
| `Pup.ProcessUtilizationPartitionPolicy.Sched` | sched/src/policy/pup.cpp:7-96 | a round refreshes the run queue and then does nothing, or rotates it to the first ready process, gives that a slice and lets it run alone; `PupShares.TurnLastsIff` says which, and `PupShares.TurnIsEarned` how long the slice is |
| `Pup.ProcessUtilizationPartitionPolicy.PurgeRunQueue` | sched/src/policy/pup.cpp:24-38 | entries of processes without queues leave, in place, and the others learn whether they are ready |
| `Pup.ProcessUtilizationPartitionPolicy.JoinNewProcesses` | sched/src/policy/pup.cpp:40-51 | processes with queues and no entry join at the end |
| `Pup.ProcessUtilizationPartitionPolicy.SkipUnready` | sched/src/policy/pup.cpp:72-84 | the skip loop ends, because some entry is ready, with a ready process at the front |
| `Pup.ProcessUtilizationPartitionPolicy.GetBudgetUs` | sched/src/policy/pup.cpp:136-155 | computes the share that `PupShares.ShareIsProportional` characterizes |
| `PupShares.ShareIsProportional` | sched/src/policy/pup.cpp:136-155 | a share times the total utilization is at most the utilization of the process times a round of average slices, and one more would exceed that; nothing if the total is zero; a process without a hint counts 100 |
| `PupShares.SharesUseTheRound` | sched/src/policy/pup.cpp:136-155 | the shares of all processes add up to a round of average slices, less what rounding leaves over, under one microsecond each |
| `PupShares.SkippingIs` | sched/src/policy/pup.cpp:72-84 | exactly the processes in front of the first ready one move to the end, in order, each with a share added to its saved budget after what exceeds one share has decayed by a tenth |
| `PupShares.TurnIsEarned` | sched/src/policy/pup.cpp:53-95 | in every run a switch gives the chosen process a slice of one share and what it had saved, decayed: the rest of its slice if it was running, else its saved budget |
| `PupShares.TurnLastsIff` | sched/src/policy/pup.cpp:57-61 | a round leaves the running process alone if and only if it is ready and has time left, or no process is ready |
| `PupShares.UtilizationsAreKept` | sched/src/policy/pup.cpp:11-19 | a round forgets exactly the utilizations of processes that are gone |
| `Pup.ProcessUtilizationPartitionPolicy.IsProcessReady` | sched/src/policy/pup.cpp:157-174 | a process is ready exactly if one of its queues is known and ready |
| `Pup.ProcessUtilizationPartitionPolicy.SwitchProcess` | sched/src/policy/pup.cpp:176-200 | the queues of one process run and those of every other process in the run queue are suspended |
| `Pup.ProcessUtilizationPartitionPolicy.ForgetDestroyed` | sched/src/policy/pup.cpp:11-19 | exactly the utilizations of known processes are kept |
| `Pup.ProcessUtilizationPartitionPolicy.RecvUtilizationHint` | sched/src/policy/pup.cpp:102-116 | a utilization is taken exactly for a non-zero process and within the range |
| `Pup.ProcessUtilizationPartitionPolicy.RecvTimesliceHint` | sched/src/policy/pup.cpp:117-129 | a time slice is taken exactly within its range |
| `PupTheorems.RunQueueKeepsShape` | sched/src/policy/pup.cpp:24-95 | in every run each process has at most one entry and only the front one can be running |
| `PupTheorems.SwitchIsExclusive` | sched/src/policy/pup.cpp:86-95 | after a switch exactly the queues of the chosen process are unsuspended, and that process was ready |
| `PupTurns.NewQueueRunsBesideTheTurn` | sched/src/policy/pup.cpp:57-61 | a queue that another process makes known during a turn stays unsuspended through the next round |
| `PupExclusivity.EventEndsExclusivityIff` | sched/src/scheduler/local.cpp:165-287 | an event ends the exclusivity of a process if and only if it makes a handle known for another one |
| `PupExclusivity.TurnStaysExclusiveIff` | sched/src/policy/pup.cpp:57-95 | from any switch of any run, for as long as no round switches again, the unsuspended queues are exactly those of the chosen process if and only if no event makes a handle known for another process |
| `PupBudgets.ShareIsBounded` | sched/src/policy/pup.cpp:136-155 | a share is between zero and the whole round |
| `PupBudgets.BudgetsAreBounded` | sched/src/policy/pup.cpp:57-95 | if no share exceeds B in any round, every saved budget and every slice of the run lies between 0 and 11*B |
| `PupTurns.NeverOvertaken` | sched/src/policy/pup.cpp:53-95 | a process that stays ready is not overtaken by any process without an entry in front of it, and gets its turn after at most as many turns as there are entries in front of it and one |
| `Admission.WatermarksAreOrdered` | preempt/src/memory/admission.cpp:75-93 | whatever the settings, the low watermark is at most the high one and that at most the total |
| `AdmissionTheorems.TouchesAreUnique` | preempt/src/memory/admission.cpp:198-399 | in every run all timestamps differ and none is in the future |
| `Admission.PrecedesIsTotalOrder` | preempt/src/memory/admission.cpp:311-322 | with unique timestamps the comparison of victims, and that of prefetch candidates, is a strict total order |
| `AdmissionTheorems.SortedIsUnique` | preempt/src/memory/admission.cpp:311-322 | there is only one way to sort the victims |
| `AdmissionEviction.ChoiceIsOrderFree` | preempt/src/memory/admission.cpp:301-322 | in a given memory the order of victims does not depend on the order of the hash table |
| `AdmissionEviction.EvictionIsOrderFree` | preempt/src/memory/admission.cpp:285-331 | once the queue has adopted its place, neither does the outcome of the eviction |
| `AdmissionOrder.SuspensionIsOrderFreeIff` | preempt/src/memory/admission.cpp:269-338 | a suspension as a whole comes out the same for all walks over the regions if and only if it returns early, is made for queue zero, or finds at most one unowned region at its place |
| `AdmissionOrder.ResumptionIsOrderFreeIff` | preempt/src/memory/admission.cpp:340-399 | a resumption comes out the same for all walks over regions and queues if and only if it returns early or finds at most one unowned region at its place |
| `AdmissionOrder.TransferDiffers` | preempt/src/memory/admission.cpp:311-331 | two memories in which two regions have each other's place in the order never come out alike, whatever is evicted or prefetched |
| `AdmissionOrder.FirstOfTheWalkIsTheVictim` | preempt/src/memory/admission.cpp:107-119 | in a reachable memory with two unowned regions under pressure, the one victim is whichever the walk names first |
| `AdmissionEviction.MovedIs` | preempt/src/memory/admission.cpp:324-331 | exactly the regions that the backend takes are moved, in order, as long as those before were not enough; nothing else changes |
| `AdmissionEviction.TransferConserves` | preempt/src/memory/admission.cpp:324-331 | the resident bytes change by exactly the bytes moved |
| `AdmissionEviction.TransferReachesTarget` | preempt/src/memory/admission.cpp:324-331 | if the backend takes everything, an eviction or prefetch, capped by the limit or not, reaches its target or moves every region it may move |
| `AdmissionEviction.EvictionReachesLowWatermark` | preempt/src/memory/admission.cpp:285-331 | above the high watermark, with every eviction accepted and the limit not cutting the need short, the tracked resident bytes end at or below the low watermark |
| `AdmissionEviction.LastVictimWasNecessary` | preempt/src/memory/admission.cpp:324-331 | without its last victim an eviction would have missed its target |
| `AdmissionEviction.NobodyIsPassedOver` | preempt/src/memory/admission.cpp:311-331 | no region is moved while one earlier in the order that the backend takes stays; `AdmissionVictims` spells the order out on the fields |
| `AdmissionVictims.SuspensionEvictsInOrder` | preempt/src/memory/admission.cpp:311-331 | if a suspension evicts one region while another that the backend would take stays, then not an active queue owns the first and an inactive one the second; among owners alike in that the first has no higher priority; among equal priorities it was touched earlier, an adopted one counting as touched last |
| `AdmissionVictims.ResumptionPrefetchesInOrder` | preempt/src/memory/admission.cpp:374-393 | if a resumption prefetches one region of the queue while another that the backend would take stays away, the first was touched later |
| `AdmissionVictims.NoPressureNoVictims` | preempt/src/memory/admission.cpp:285-293 | a suspension evicts nothing while neither the memory the driver reports in use nor the tracked bytes exceed the high watermark |
| `AdmissionVictims.NoNeedlessVictims` | preempt/src/memory/admission.cpp:295-331 | a suspension that evicts starts above the high watermark, and without its last victim it would have moved less than what was in use above the low watermark, and less than the limit |
| `AdmissionVictims.NoNeedlessPrefetch` | preempt/src/memory/admission.cpp:361-393 | without the last region it brings, a resumption would leave the queue below its budget and have moved less than the limit |
| `AdmissionVictims.CallsAreRecorded` | preempt/src/memory/admission.cpp:277-281 | a suspension or resumption that is not cut short records place, activity and, for a resumption, time of its queue, and leaves its priority and all other queues alone |
| `AdmissionEviction.PrefetchReachesBudget` | preempt/src/memory/admission.cpp:361-393 | a resuming queue that owns memory has at least its budget resident, if the backend takes everything and the limit does not cut the need short |
| `AdmissionEviction.BudgetsFitTogether` | preempt/src/memory/admission.cpp:168-194 | the budgets of all active queues of a place together are at most the low watermark |
| `AdmissionShares.ShareIsProportional` | preempt/src/memory/admission.cpp:160-190 | a share times the weights of all active queues of the place is at most the usable memory times the weight of the queue, and one byte more would exceed that; weights count from one at priority -255 |
| `AdmissionShares.SharesUseTheMemory` | preempt/src/memory/admission.cpp:168-190 | the shares of all active queues of a place add up to the low watermark, less what rounding leaves over, under one byte each |
| `AdmissionShares.PrioritiesStayInRange` | preempt/src/memory/admission.cpp:248-255 | in every run all priorities lie between -255 and 255 |
| `AdmissionManager.MemoryAdmissionManager.RegisterRegion` | preempt/src/memory/admission.cpp:198-216 | tracks a region as resident with a new timestamp, unless something is missing |
| `AdmissionManager.MemoryAdmissionManager.UnregisterRegion` | preempt/src/memory/admission.cpp:218-228 | forgets a region of the same backend |
| `AdmissionManager.MemoryAdmissionManager.TouchRegion` | preempt/src/memory/admission.cpp:230-246 | the first region of the walk that holds the address gets the owner and a new timestamp |
| `AdmissionManager.MemoryAdmissionManager.SetQueuePriority` | preempt/src/memory/admission.cpp:248-255 | the priority is set, clamped to its range |
| `AdmissionManager.MemoryAdmissionManager.RemoveQueue` | preempt/src/memory/admission.cpp:257-267 | forgets the queue and exactly its ownership of regions |
| `AdmissionManager.MemoryAdmissionManager.AdoptContextRegions` | preempt/src/memory/admission.cpp:107-119 | exactly the unowned regions of the place fall to the queue, each with a new timestamp |
| `AdmissionManager.MemoryAdmissionManager.GetQueueBudget` | preempt/src/memory/admission.cpp:168-194 | the budget is the share of the usable memory by weight, at most what the queue owns |
| `AdmissionManager.MemoryAdmissionManager.OnQueueSuspend` | preempt/src/memory/admission.cpp:269-338 | deactivates the queue, lets it adopt its place and evicts what is needed, in place; `AdmissionVictims` says on the fields who is evicted and how much |
| `AdmissionManager.MemoryAdmissionManager.BeforeQueueResume` | preempt/src/memory/admission.cpp:340-399 | activates the queue, lets it adopt its place and prefetches what it is entitled to, in place |
| `TopoSort.BuildDependencyGraph` | tools/autogen/merge_headers.py:48-69 | every header's entry lists what its includes resolve to by file name, in order, and all edges run between headers; `HeaderNames.EdgeIff` says when that is the header meant |
| `TopoSort.TopologicalSort` | tools/autogen/merge_headers.py:71-98 | a result is a permutation of the headers with whatever a header includes before it and the headers that nothing includes last; for some headers the result is empty if and only if the graph has a cycle |
| `TopoSort.OrderedHasNoCycle` | tools/autogen/merge_headers.py:92-98 | headers that can be put in order have no cycle |
| `TopoSort.WalkComesRound` | tools/autogen/merge_headers.py:92-95 | headers that are all still included by one another contain a cycle |
| `HeaderNames.EdgeIff` | tools/autogen/merge_headers.py:50-67 | there is an edge to a header if and only if an include names its file and no later header has the same file name |
| `HeaderNames.MeaningsAreEdgesIff` | tools/autogen/merge_headers.py:50-67 | the graph has an edge for everything an include can mean if and only if no include can mean two headers |
| `HeaderNames.OrderHeaders` | tools/autogen/merge_headers.py:201-208 | building and sorting yields an order of the graph or finds its cycle, and if no include can mean two headers, whatever a header's includes mean comes before it |
| `HeaderNames.MeantComesLast` | tools/autogen/merge_headers.py:50-67 | three headers, two with one file name, for which the only possible result puts a header before the one its include means |
| `HeaderNames.CycleOfNames` | tools/autogen/merge_headers.py:50-67 | the same headers with one more include: a cycle is found although they can be put in an order |

## Left out

- Platform layers and shims (`platforms/`): the hardware queue is abstract. It runs what is pending in order, may lose deactivatable commands while deactivated, and on reactivation either goes on with what it has or waits and relaunches the log from the first lost command, one command per step. Each relaunch looks the log up by index, as a walk over a linked list that only loses entries behind the walk and gains them at its end would; that popping an entry under the walk is a data race in C++ is not modelled.
- After losing a command the hardware is assumed to run no deactivatable command until it is reactivated (`Pipeline.CanRun`), so no command that it could have thrown away runs behind one that it did.
- A change of policy during a run: `Mirror.LocalScheduler.ResumeAll` says what it does to the tables, but the runs of the three policies have no such input.
- `Interrupt` and `Restore` of the hardware queue: the object model records the calls; the pipeline treats them as part of deactivating and reactivating.
- Channels, the HTTP server, JSON, the command line, the event thread and its timer list: a channel is an in-order sequence, a timer is the time a round asks for.
- XQueue queries (`sched/src/scheduler/local.cpp:288-331`) and hints other than those the three policies read: they copy or ignore.
- The other policies: they are maxima or sorts over one pass. The multi-level feedback policy suspends only what it remembers running, so the exclusivity theorems do not carry over to it.
- Changes of level, threshold and batch size while a queue is in use: the source marks them as not safe; they are fixed per run.
- Concurrent `Suspend` and `Resume` calls on one queue and the inside of `Submit`: calls are serialized and a submission is one step.
- Blocking submission, launch callbacks and the hooks `OnSubmit`, `BeforeLaunch` and `OnXQueueCreate`: they do not touch the logs.
- Weak memory and liveness under the operating system's scheduling: the lock and the pipeline are proved under sequential consistency, and what is proved about progress says that someone can move.
- Rounding: virtual runtimes are reals, and the decay of budgets by nine tenths is integer division.
- Byte sums and the products with percentages and weights in memory admission are unbounded; only the driver's `total - free` wraps around.
- `std::sort` in memory admission is an insertion sort: with unique timestamps there is only one result.
- Finding and reading header files, and writing the merged file: what the files include is a parameter.
- Commands.XCommand.SetState: takes the assertion that a state never goes back as a precondition, and runs the listeners inside the call.
- LaunchWorkers.LaunchWorker.LaunchOrDrop: the index of a command is given when the object is made, where the source sets it in `Submit`; the success of a hardware launch is not modelled.
- XQueueObjects.CommandBuffer.Dequeue: returns null where the source waits for a command; the pipeline models the waiting as a step.
- XQueueObjects.CommandBuffer.RequestWaitAll: takes the assertion at the head of the source function as a precondition; when it holds is stated by `PipelineTheorems.WaitAllAssertionOverRuns`.
- McsLock.MCSLock.Access: makes one shared access per call, since Dafny has no threads; `lock` and `unlock` are sequences of such calls.
- Operations.SchedExecutor.ExecuteSchedOperation: a client queue is its `suspended` and `terminated` flags, changed as `XQueueObjects.AsyncXQueue.Suspend` and `Resume` change them; configuration operations and the executor's on-off switch are not modelled.
- Slo.SLOAdaptivePolicy.GetInfo: is given the time instead of reading the clock again, so entries made in one round carry the time of that round.
- Mirror.LocalScheduler.UpdateStatus: reports a failed assertion by its result, where the source exits.
- AdmissionManager.MemoryAdmissionManager.OnQueueSuspend: the final `Synchronize` of the backend only decides whether a message is logged and is not modelled.
