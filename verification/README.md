# EmergenceOS kernel model

A Dafny model of the EmergenceOS kernel and of the stores that must agree with it, with proofs
about all inputs, all runs and all reachable states.

`dafny verify dfyconfig.toml` checks everything.

## What is modelled

**Scheduler** (`Heap`, `SchedulerModel`, `Scheduler`). The ready queue is a binary heap in an
array, with a membership set, a waiting registry and a dependency table. The class is proved to be
a sequence sorted by falling priority and insertion order; no comparison ever reaches the process
id, which has no order. `Priorities` says what a priority means over every sequence of calls.

**Kernel, lifecycle and supervisor** (`States`, `Services`, `Kernel`, `KernelModel`,
`Correspondence`, `Replay`, `Gating`, `KernelRuns`, `Runs`, `Raises`). `Kernel` is the imperative kernel:
dictionaries, mailboxes, budget counters and the scheduler object changed in place, with the bus
handlers called where the events are published. Each method is proved to compute the function of
the same name in `KernelModel`, and the theorems are about runs of those functions. A process body
is any finite list of operations (write and erase shared state, send, receive, remember, use a
tool, spawn, checkpoint) that ends in return, raise or wait, and may overrun its time.

What all this means to a process is stated in its own terms: `Isolation` (what nobody else can
change), `Waking` (what a wait waits for), `Dispatching` (which limits allow a dispatch, what a body
uses up, where its ending leaves it), `Recovery` (what a failure gives back, and how often),
`Permissions` and `SharedState`.

**Plans** (`PlanSafety`, `History`, `PlanLinks`, `Chronicle`, `Graph`, `Progress`, `EndToEnd`). Goals,
plans and tasks with dependencies, as the kernel drives them: safety and progress in every run, by
well-founded descent, end-to-end completion with an exact dispatch count, and what the log tells of it.

**Termination** (`Termination`, `Plain`). Under supervision every dispatch uses up one of the
`max_retries + 1` attempts of its process. `Plain` restates the two termination results with
conditions on the input alone.

**Shared state and its log** (`StateStore`). The state store on the persisting bus, with
subscribers and watchers that re-enter it, subscribe, unsubscribe and raise in any way.

**Artifacts** (`Text`, `Artifacts`, `ArtifactClaims`, `ArtifactService`, `ArtifactFields`), **memory and
checkpoints** (`Memory`, `MemoryManager`), **search** (`VectorIndex`, `Ranking`) and the **timeline**
(`Timeline`).

## Where the code does less than it seems to

- `run_next` escapes with an error exactly when the next process has used up its budget, since
  READY to FAILED is not an edge of the process table, or when its body returns in time and the
  completion of its task leaves a ready task whose definition is not registered, since COMPLETED to
  FAILED is not an edge either (`Raises.RaisesExactlyWhen`, `Runs.EmptyBudgetRaises`,
  `Raises.UnregisteredDefinitionRaises`).
- A process that the supervisor takes back is READY in the table and FAILED in the log; a dispatch
  keeps the log replaying exactly when it revives nobody (`Runs.ReplaysUnlessRevived`,
  `Runs.RevivalBreaksReplay`).
- A process that the supervisor takes back is queued with priority 0, whatever it was spawned with
  (`Recovery.QueuedWithSpawnPriority`), and one with a checkpoint is taken back every time, without
  regard to its retry budget (`Recovery.FailedExactlyWhen`).
- Enqueuing a queued process again records the new priority and leaves the entry where it was
  (`Priorities.EnqueuePrioritisedExactlyWhen`, `Priorities.RequeueKeepsOldPlace`).
- The mailbox scan at the end of `has_work` never finds anything (`KernelRuns.HasWorkStep`).
- Replay turns falsy values into None and skips the empty key (`Replay.ReplayIsExactWhen`).
- An artifact update supersedes the active version before it writes the new blob, so a failed write
  leaves a lineage without an active version (`Artifacts.StepEnds`).
- An artifact created with the id of an existing lineage in its provenance becomes a second version
  1 of it, and if it has the space and file name of the first version and other bytes, those bytes
  are lost: history is immutable exactly without such creates
  (`ArtifactClaims.KeepsBytesExactlyWhen`, `ArtifactClaims.ClaimOverwritesExactlyWhen`,
  `ArtifactClaims.ClaimReplacesBytes`).
- A memory key whose space has a colon does not parse back (`Memory.RoundTrip`).
- The comments of the state store call bus subscribers asynchronous; the bus delivers
  synchronously, and the model follows the bus.

## Conventions

- Process, task, plan and goal ids are numbers; a new process gets the next one, as fresh UUIDs
  never repeat. Artifact and memory ids are texts.
- The clock is a field that only moves between calls. Whether a body overran, whether a blob can be
  written, and the logarithm and square root of the search index are inputs.
- A handler that raises on the bus is ignored there, so the kernel model has no failing handlers;
  `StateStore` has.
- The scheduler's wake callback touches the process table and the log only, which no condition
  reads, so `Kernel.EvaluateWaiting` calls it after the scheduler's loop.
- A run "returns" when every call in it was clean (new ids are new, task names are unique and
  known, a goal gets one plan) and returned, or was refused without changing anything.
- `Inv` is the kernel's invariant. Its `Track` parameter says which optional part is followed: one
  dependency gate, and whether the log replays to the process table.

## Model

| member | source | states |
|---|---|---|
| `Heap.Push` | emergence/scheduler/scheduler.py:250-253 | the array stays a heap and gains exactly the new entry; comparisons are decided before they reach the process id |
| `Heap.Pop` | emergence/scheduler/scheduler.py:137 | the least entry is returned, what is left is a heap of the other entries |
| `Heap.Heapify` | emergence/scheduler/scheduler.py:159-162 | any array with comparable entries becomes a heap of the same entries |
| `Heap.AllAfterRoot` | emergence/scheduler/scheduler.py:141-145 | the root of a heap comes before every other entry, so `peek` is right to look only there |
| `Schedulers.Scheduler.AddToQueue` | emergence/scheduler/scheduler.py:243-254 | the heap, the membership set and the counter change as one insertion into the sorted queue; a queued or waiting process is left where it is |
| `Schedulers.Scheduler.Enqueue` | emergence/scheduler/scheduler.py:107-123 | the process is queued or held back with its dependency set, as `Priorities.EnqueueGivesPriority` and `Runs.DependenciesGate` say |
| `Schedulers.Scheduler.Dequeue` | emergence/scheduler/scheduler.py:125-139 | gives the first id of the sorted queue and removes exactly that one; an empty queue is an error and changes nothing |
| `Schedulers.Scheduler.Peek` | emergence/scheduler/scheduler.py:141-145 | gives the id that the next dequeue gives |
| `Schedulers.Scheduler.MarkWaiting` | emergence/scheduler/scheduler.py:151-162 | registers the condition and takes the process out of the heap and the membership set, heap order restored |
| `Schedulers.Scheduler.EvaluateWaiting` | emergence/scheduler/scheduler.py:167-184 | wakes exactly the waiters whose condition holds, in registration order, and queues them |
| `Schedulers.Scheduler.NotifyCompleted` | emergence/scheduler/scheduler.py:190-206 | takes the process out of every dependency set and releases exactly those left with none, in registration order |
| `Schedulers.Scheduler.QueuedIds` | emergence/scheduler/scheduler.py:219-220 | sorting the heap array lists the ids in dequeue order |
| `SchedulerModel.DrainGivesQueue` | emergence/scheduler/scheduler.py:125-139 | from a well-formed scheduler, repeated dequeuing gives exactly the queued ids, each once, by falling priority and then insertion order |
| `SchedulerModel.SortedIsUnique` | emergence/scheduler/scheduler.py:219-220 | the queue contents determine the order: there is one sorted arrangement |
| `SchedulerModel.EveryRunKeepsSchedOk` | emergence/scheduler/scheduler.py:107-254 | over all operation sequences the queue is sorted, ids and sequence numbers are distinct and bounded by the counter, and queued and waiting ids are disjoint |
| `SchedulerModel.EvaluateFacts` | emergence/scheduler/scheduler.py:167-184 | a satisfied waiter leaves the registry and is queued, and nobody else moves |
| `SchedulerModel.NotifyReleases` | emergence/scheduler/scheduler.py:190-206 | a process held back for a set of others enters the queue at the notification that empties the set, and stays in the table with the smaller set at any other |
| `SchedulerModel.NotifyFacts` | emergence/scheduler/scheduler.py:190-206 | the dependency table after a notification, entry by entry, and who is queued because of it |
| `Priorities.EnqueueGivesPriority` | emergence/scheduler/scheduler.py:117-123 | a process that is neither queued nor waiting and needs nobody gets one entry, with exactly the priority given, behind every other entry of that priority; all other entries stay |
| `Priorities.QueuedWithLastGiven` | emergence/scheduler/scheduler.py:107-254 | over every sequence of calls that never gives a queued process another priority, each queued process has the priority it was last enqueued with, also after a wait or a release |
| `Priorities.EnqueuePrioritisedExactlyWhen` | emergence/scheduler/scheduler.py:243-248 | one enqueue keeps the queue in step with the priorities given if and only if it does not enqueue a queued process again with another priority |
| `Priorities.RequeueKeepsOldPlace` | emergence/scheduler/scheduler.py:243-248 | three calls after which the process with the larger priority is dispatched last, because it was queued already |
| `Priorities.LargerPriorityFirst` | emergence/scheduler/scheduler.py:125-139 | of two queued processes the one enqueued with the larger priority is dequeued first |
| `Priorities.EqualPriorityInOrder` | emergence/scheduler/scheduler.py:250-253 | within one priority the process enqueued first is dequeued first |
| `KernelServices.MailboxManager.Send` | emergence/kernel/mailbox_manager.py:46-65 | appends to an existing mailbox; without one it fails and changes nothing |
| `KernelServices.MailboxManager.Receive` | emergence/kernel/mailbox_manager.py:67-77 | takes the oldest message; no mailbox or no message gives nothing and changes nothing |
| `KernelServices.BudgetTracker.MayDispatch` | emergence/core/budget_tracker.py:39-56 | true if and only if tokens, tool calls and cost are each below their limit and retries not above theirs; the usage record it reads is created |
| `Kernels.Kernel.Transition` | emergence/core/process.py:82-108 | moves along an edge of the process table or stays, and otherwise refuses and changes nothing |
| `States.ProcessEnteredFrom` | emergence/core/state.py:86-116 | the process table from the other end: what each state can be entered from |
| `Kernels.Kernel.ConditionHolds` | emergence/core/wait_conditions.py:8-66 | true if and only if the mailbox exists and is not empty, the key is in the store, the approval is recorded under its key, or the deadline has come, as the condition says |
| `Kernels.Kernel.EvaluateWaiting` | emergence/scheduler/scheduler.py:167-184 | the wake callbacks make every woken WAITING or BLOCKED process READY and log it |
| `Kernels.Kernel.Register` | emergence/kernel/registry.py:33-42 | adds a definition under a new name and refuses a known one |
| `Kernels.Kernel.Spawn` | emergence/kernel/kernel.py:93-166 | mailbox, capabilities, table, scheduler and the two events of a new process |
| `PlanLinks.SpawnMeans` | emergence/kernel/kernel.py:93-166 | a new process is READY with its definition, the budget of the definition and its goal, an empty mailbox, and its priority in the queue or its needs in the dependency table; of everything else only an unknown definition is added |
| `PlanLinks.ChildIsSpawned` | emergence/tools/process_tools.py:10-45 | a child runs the definition registered under the name asked for, with the priority asked for, for the goal of its parent |
| `Kernels.Kernel.Supervise` | emergence/kernel/supervisor.py:60-135 | restore, retry or give up, with every field that changes; what that means for the process is in `Recovery` |
| `Kernels.Kernel.PutState` | emergence/kernel/state_store.py:51-89 | an equal value changes nothing; otherwise the store, the event and then the wakeups |
| `Kernels.Kernel.Send` | emergence/kernel/mailbox_manager.py:46-65 | delivery, event and wakeups, or an error |
| `Kernels.Kernel.Grant` | emergence/kernel/kernel.py:529-540 | records the approval and wakes who waits for it |
| `Kernels.Kernel.CreatePlan` | emergence/cognitive/manager.py:83-145 | tasks created and linked by name in two loops, states and events of plan and goal, first tasks made ready; raises for an unknown goal or a refused transition |
| `Kernels.Kernel.UpdateReady` | emergence/cognitive/manager.py:364-377 | exactly the pending tasks with all dependencies completed become ready, with their events in plan order |
| `Kernels.Kernel.SpawnReady` | emergence/cognitive/manager.py:206-233 | the snapshot of ready tasks is given processes in order, up to an unregistered definition, where it raises |
| `Kernels.Kernel.TaskCompletes` | emergence/cognitive/manager.py:151-177 | the task of a completed process and what follows from it for tasks, plan and goal |
| `Kernels.Kernel.TaskFails` | emergence/cognitive/manager.py:179-197 | the task of a failed process, its plan and its goal fail |
| `Kernels.Kernel.FailProcess` | emergence/kernel/kernel.py:618-629 | a refused transition still publishes the event and fails the task, and then escapes |
| `Kernels.Kernel.RunNext` | emergence/kernel/kernel.py:172-269 | one dispatch with every ending of the body: return, overrun, raise, wait, refused |
| `Kernels.Kernel.HasWork` | emergence/kernel/kernel.py:299-322 | the three looks for work and their wakeups |
| `Kernels.Kernel.Run` | emergence/kernel/kernel.py:324-327 | the loop of `run`, with the number of dispatches |
| `Correspondence.EvaluateWaitingKeeps` | emergence/kernel/kernel.py:560-574 | waking keeps process table, scheduler, mailboxes and capabilities in agreement and touches only waiting processes |
| `Runs.CallStep` | emergence/kernel/kernel.py:93-327 | every clean call that returns, or is refused before it changes anything, keeps the whole kernel invariant |
| `Runs.EveryRunKeepsInv` | emergence/kernel/kernel.py:93-327 | so does every run of calls |
| `Runs.ProcessesMatchServices` | emergence/kernel/kernel.py:172-269 | between calls of any run, supervised or not: nothing is RUNNING; WAITING is being in the waiting registry; READY is being queued or held back; finished is being nowhere, without mailbox and capabilities |
| `Runs.LogReplays` | emergence/events/replay.py:31-82 | over any run the replayed store is the live store as replay can see it and, without a supervisor, the replayed states are those of the process table |
| `Runs.ReplaysUnlessRevived` | emergence/kernel/supervisor.py:121-135 | one dispatch keeps a replaying log replaying exactly when it revives no process |
| `Runs.RevivalBreaksReplay` | emergence/kernel/supervisor.py:121-135 | a supervised process that raises once: the log says FAILED and the table READY |
| `Runs.EmptyBudgetRaises` | emergence/kernel/kernel.py:190-198 | a process without token budget makes `run_next` raise |
| `KernelRuns.RunNextStep` | emergence/kernel/kernel.py:172-269 | whenever `run_next` returns it keeps the invariant; it raises when the next process has used up its budget and, with all task definitions registered, only then |
| `Raises.RaisesExactlyWhen` | emergence/kernel/kernel.py:172-269 | `run_next` raises if and only if the next process has used up its budget, or its body returns in time and the completion of its running task, in an active plan, leaves a ready task whose definition is not registered |
| `Raises.RaisesInEveryRun` | emergence/kernel/kernel.py:172-269 | that condition is exact at every point of every run |
| `Raises.StartTasksRaises` | emergence/cognitive/manager.py:211-219 | the spawn loop raises if and only if a task in its snapshot has no process and no registered definition |
| `Raises.UnregisteredDefinitionRaises` | emergence/cognitive/manager.py:165-177 | a run of two tasks in which the second has no registered definition: the first one's completion makes `run_next` raise although its budget is not used up |
| `KernelRuns.FailStep` | emergence/kernel/kernel.py:618-629 | a running process that fails is FAILED, out of the scheduler and without mailbox and capabilities, or, if the supervisor takes it back, READY and queued with both; its task, plan and goal fail, and nothing escapes |
| `Runs.DependenciesGate` | emergence/scheduler/scheduler.py:119-123 | for a process spawned with dependencies at any point of a run: its pending set is always what has not ended since, and its STARTED events follow a terminal event of every dependency |
| `Runs.GateOpensOnce` | emergence/scheduler/scheduler.py:190-206 | once such a process is no longer held back it is never held back again in the rest of the run |
| `Runs.EntersWhenLastDependencyEnds` | emergence/scheduler/scheduler.py:190-206 | in any state of a run it is not queued while held back, and enters the queue at exactly the terminal event that leaves nothing to wait for |
| `KernelRuns.NoLostWakeups` | emergence/scheduler/scheduler.py:167-184 | after `evaluate_waiting` no remaining condition holds, whenever it came true, and everyone whose condition held is queued |
| `KernelRuns.HasWorkStep` | emergence/kernel/kernel.py:299-322 | `has_work` is false exactly when nothing is queued and no registered condition holds; its mailbox scan never finds anything |
| `Waking.StillWaitsExactlyWhen` | emergence/core/wait_conditions.py:8-66 | after an evaluation a registered process is still registered if and only if its mailbox is missing or empty, its key is not in the store, its approval key is not in the store, or the clock is before its deadline, as its condition says |
| `Waking.GrantWakes` | emergence/kernel/kernel.py:529-540 | granting a request makes every process registered for it READY and queues it, also when the approval was recorded before |
| `Waking.ApprovalGates` | emergence/core/process_context.py:77-99 | in every run a process that waits for an approval not yet recorded is started only after an event that creates the approval key, and stays registered until there is one |
| `Waking.KeyGates` | emergence/core/wait_conditions.py:27-38 | the same for a process that waits for a key of the shared state |
| `Dispatching.StartsExactlyWithinBudget` | emergence/kernel/kernel.py:190-198 | STARTED is logged for the next process if and only if tokens, tool calls and cost are below the limits of its budget and retries not above them; otherwise `run_next` raises |
| `Dispatching.BodyUses` | emergence/executor/tool_executor.py:160-175 | accounting: after its operations a process has used exactly the tokens and cost of its tool calls and one invocation for each of them and for each child spawned |
| `Dispatching.WaitParks` | emergence/kernel/kernel.py:243-257 | a body that waits leaves its process WAITING and registered, with one more checkpoint, of its memory and usage as they then are |
| `Dispatching.ReturnCompletes` | emergence/kernel/kernel.py:211-241 | a body that gets through its operations and returns in time leaves its process COMPLETED, out of the scheduler, without mailbox and capabilities |
| `Dispatching.OtherwiseFails` | emergence/kernel/kernel.py:200-265 | any other body leaves its process FAILED and nowhere else, or READY and queued if it is supervised and has a checkpoint or was retried fewer times than its budget allows |
| `Dispatching.CleanupForgets` | emergence/kernel/kernel.py:631-638 | a finished process loses its capabilities, mailbox and usage counters, and nobody else anything; one that is not finished keeps them |
| `Recovery.SuperviseRestoresLatest` | emergence/kernel/supervisor.py:74-85 | the latest of the checkpoints is restored: every key saved in it has its value again, every other key and every other process is as before, and usage is that of the checkpoint with one more retry |
| `Recovery.SuperviseRetriesWithinBudget` | emergence/kernel/supervisor.py:87-105 | without a checkpoint the process is retried, memory untouched, if it was retried fewer times than its budget allows, and otherwise nothing changes |
| `Recovery.FailureRestores` | emergence/kernel/kernel.py:618-629 | a failing process that has a checkpoint is READY and queued again with the latest one restored |
| `Recovery.FailureAfterWaitRestores` | emergence/checkpoint/checkpoint_store.py:48-52 | in every supervised run, a process that waited and then fails has again every key of its memory as it was when it began to wait, whatever happened in between and whatever the failing body wrote |
| `Recovery.FailedExactlyWhen` | emergence/kernel/supervisor.py:72-105 | in every supervised run a process is FAILED if and only if it has no checkpoint and has failed `max_retries + 1` times; without a checkpoint it never fails more often |
| `Recovery.QueuedWithSpawnPriority` | emergence/kernel/supervisor.py:121-135 | in every run a queued process has the priority it was spawned with until it first fails, also after waits and dependencies, and 0 after the supervisor has taken it back |
| `Recovery.RecordIsKept` | emergence/kernel/kernel.py:93-166 | in every run a process keeps the definition and goal it was spawned with, and the budget of the definition |
| `Recovery.NextHasHighestPriority` | emergence/kernel/kernel.py:181-188 | the process `run_next` dispatches has at least the priority of every queued one and, among equals, was queued first |
| `Isolation.OthersLeaveItAlone` | emergence/kernel/kernel.py:172-269 | in every run, as long as a process is not started, nothing that others do changes its memory, checkpoints, usage, capabilities, priority, retries, definition, budget or goal, and its state changes only by being woken |
| `Permissions.GrantedExactly` | emergence/security/capabilities.py:188-214 | in every run a live process has exactly the five default capabilities and those known ones its definition asks for |
| `Permissions.OperationAllowedExactlyWhen` | emergence/security/gated_state_store.py:36-50 | each operation of a body goes through if and only if the process has the capability it demands, and a mailbox to send to exists; a refused one changes nothing |
| `Permissions.NeverRemembers` | emergence/security/gated_memory_manager.py:30-47 | in every run, supervised or not, a process whose definition does not ask for "memory.write" never has any memory |
| `SharedState.PutMeans` | emergence/kernel/state_store.py:51-89 | a write takes effect whatever the key held, leaves all other keys, and is logged as a creation or a change with the new value before anything that follows from it; an equal value does nothing |
| `SharedState.DeleteMeans` | emergence/kernel/state_store.py:91-110 | an erased key is gone and its deletion logged; all other keys stay |
| `SharedState.LastWriteWins` | emergence/kernel/state_store.py:51-110 | after a body a key has the value of the last operation that touched it, or is missing if that one erased it |
| `SharedState.FirstInFirstOut` | emergence/kernel/mailbox_manager.py:46-77 | a mailbox is a queue: a message sent while `n` others wait is the one left after `n` receptions |
| `Runs.PlansFollowTasks` | emergence/cognitive/manager.py:386-403 | in every run a plan is COMPLETED exactly when non-empty with all tasks COMPLETED, FAILED exactly when some task is, and its goal mirrors it |
| `Runs.TasksStartAfterDependencies` | emergence/cognitive/manager.py:206-233 | in every run a task past PENDING has its dependencies COMPLETED, a process and a task belong to at most one of each other, and the process was started after those of the dependencies had completed |
| `Runs.SettledForGood` | emergence/cognitive/manager.py:206-212 | in every run what is over stays over: no task of a finished plan gets a process, even when the supervisor revives one |
| `PlanLinks.CreatedByName` | emergence/cognitive/manager.py:83-145 | each specification becomes one task with its definition and priority, linked to exactly the tasks its dependencies name, READY at once if it names none and PENDING otherwise |
| `PlanLinks.ReadyTasksRunAsAsked` | emergence/cognitive/manager.py:206-233 | in every run, after `execute_plan` has returned, each task that was READY runs on a READY process with the definition registered under its name, the goal of the plan and the priority of the task |
| `PlanLinks.NamedDependenciesComeFirst` | emergence/cognitive/manager.py:83-145 | from any state of a run on: before the process of a task is started, the processes of the tasks its dependencies name have completed |
| `Chronicle.LogTellsWork` | emergence/cognitive/manager.py:83-233 | over every run of clean calls, also when some of them raise: the last event of each task and goal gives its state, there is none exactly if it does not exist, and a plan is COMPLETED if and only if that was reported |
| `Chronicle.LivesAreLegal` | emergence/core/state.py:119-156 | each event of a task or goal is a legal move from the one before it, and the first is PENDING or CREATED |
| `Graph.GroundedIffNoCycle` | emergence/cognitive/manager.py:379-384 | a task can be reached from tasks without dependencies exactly when it does not transitively depend on a cycle |
| `Graph.SomeTaskCanRun` | emergence/cognitive/manager.py:379-384 | by well-founded descent: below an incomplete task without cycles some incomplete task has all its dependencies complete |
| `Progress.PlansMakeProgress` | emergence/cognitive/manager.py:147-177 | in every run, at every point after `execute_plan` has returned, the plan is over, or one of its tasks is running on a READY or WAITING process exactly while some task that does not depend on a cycle is not complete; so an active non-empty plan without cycles never stalls |
| `Progress.EveryRunAdvances` | emergence/cognitive/manager.py:147-177 | in every run no active plan has an overdue task, a plan whose runnable tasks have all been started stays so until it is over, and no task that depends on a cycle leaves PENDING |
| `Progress.CallAdvances` | emergence/cognitive/manager.py:83-233 | one call leaves each active plan alone, starts every task of it that can run, or creates it without overdue tasks |
| `Progress.ExecuteMakesProgress` | emergence/cognitive/manager.py:147-149 | for a plan without overdue tasks, as `Progress.EveryRunAdvances` gives in every run: after `execute_plan` an active, non-empty plan without cycles has a task running |
| `Progress.CompletionMakesProgress` | emergence/cognitive/manager.py:151-177 | in any state, when the body of a task's process has returned and its completion does not raise, the task is COMPLETED and its plan, if active and without cycles, is COMPLETED or has a task running |
| `Progress.CreatedUpToDate` | emergence/cognitive/manager.py:144 | `create_plan` leaves no task that could be ready and is not |
| `EndToEnd.SomethingIsQueued` | emergence/cognitive/manager.py:206-233 | driving a plan on an idle kernel, something is queued exactly while a task that can run is incomplete |
| `EndToEnd.DrivingStep` | emergence/kernel/kernel.py:172-269 | one dispatch completes exactly one task that could run |
| `EndToEnd.PlanRunsAsFarAsItCan` | emergence/kernel/kernel.py:324-327 | for any plan, cyclic or not, whose bodies return within budget: `run` stops after as many dispatches as there are tasks that do not depend on a cycle; exactly those are COMPLETED, the others are PENDING |
| `EndToEnd.AcyclicPlanCompletes` | emergence/kernel/kernel.py:324-327 | an acyclic plan is completed, with goal and every task, by exactly one dispatch per task, and the kernel is idle again |
| `PlainWorkloads.FreshPlanCompletes` | emergence/cognitive/manager.py:83-177 | the same from a fresh kernel with conditions on the input only: definitions with room in their budgets, bodies that change shared state, read messages and return; and every task was started in its turn |
| `Termination.SupervisedRunHalts` | emergence/kernel/supervisor.py:72-105 | without waits and checkpoints and within token, tool and cost limits `run` never raises, dispatches at most the attempts left of all processes it ever starts, and drains when given that many |
| `Termination.FleetHalts` | emergence/kernel/supervisor.py:72-105 | a fixed set of processes is drained within the sum of `max_retries + 1` dispatches, however often bodies raise, and all have finished |
| `PlainWorkloads.PlainFleetHalts` | emergence/kernel/supervisor.py:72-105 | the same with conditions on the input only |
| `Termination.WorkingStep` | emergence/kernel/kernel.py:263-265 | every dispatch uses at least one attempt: a retry of the supervisor or the rest of them |
| `Replay.ReplayLog` | emergence/events/replay.py:31-38 | the replay loop is the fold of the log and counts its events |
| `Replay.ReplayIsExactWhen` | emergence/events/replay.py:60-76 | replay gives back the live store itself exactly when no key is empty and no value is zero or the empty text |
| `StateStores.StateStore.Set` | emergence/kernel/state_store.py:51-89 | an equal value does nothing; otherwise the change is logged first, delivered to exactly the subscribers of that moment in order, and the log replays to the store, whatever the handlers do |
| `StateStores.StateStore.Delete` | emergence/kernel/state_store.py:91-110 | the same for deletion; a missing key does nothing |
| `StateStores.StateStore.Publish` | emergence/events/persisting_event_bus.py:21-23 | append before delivery; each subscriber registered at that moment gets the event once, in registration order, also when others raise, re-enter or unsubscribe |
| `StateStores.StateStore.Register` | emergence/events/event_bus.py:70-91 | appends a handler, and ignores one that is there |
| `StateStores.StateStore.Unregister` | emergence/events/event_bus.py:93-114 | removes the handler and nothing else |
| `StateStores.RunAll` | emergence/kernel/state_store.py:51-110 | for every run and every re-entrant behaviour of handlers the replayed state has the live keys, the same truthy values, and None for falsy ones |
| `Artifacts.LocationInjective` | emergence/artifacts/service.py:598-605 | blob locations are injective in lineage and version |
| `Artifacts.CreateKeeps` | emergence/artifacts/service.py:108-162 | one new record, a lineage of its own with version 1; every other record and its bytes stay |
| `Artifacts.UpdateKeeps` | emergence/artifacts/service.py:164-219 | the lineage grows by the next version, the previous one is SUPERSEDED, and all bytes stay |
| `Artifacts.DeleteKeeps` | emergence/artifacts/service.py:221-227 | only the status and update time of the active version change; every other record and all bytes stay |
| `Artifacts.OneActive` | emergence/artifacts/service.py:554-564 | at most one version of a lineage is active, so the choice among several candidates is never needed |
| `ArtifactClaims.KeepsBytesExactlyWhen` | emergence/artifacts/service.py:598-605 | an operation leaves the bytes of every existing version alone if and only if no existing record lies at the place its blob is written to while holding other bytes |
| `ArtifactClaims.HistoryIsImmutable` | emergence/artifacts/service.py:298-310 | over any run of create, update and delete that never meets that guard, claimed lineages and failing writes included, the bytes of an existing version never change |
| `ArtifactClaims.CleanNeverOverwrites` | emergence/artifacts/service.py:598-605 | on a valid shelf an operation that claims no lineage, or only its own id, never meets the guard |
| `Artifacts.CleanRunKeeps` | emergence/artifacts/service.py:298-310 | over any run without such claims, also one in which blobs fail to be written, lineages stay linear, indexes exact, and the bytes of every version what they were |
| `Artifacts.LinearVersions` | emergence/artifacts/service.py:108-227 | over any run the versions of a lineage are exactly 1..n in index order, all but the last SUPERSEDED; the last is ACTIVE or DELETED if no update lost its write |
| `Artifacts.StepEnds` | emergence/artifacts/service.py:174-206 | a lineage keeps ending in an ACTIVE or DELETED version if and only if the operation is not an update of an active version whose blob cannot be written |
| `ArtifactClaims.ClaimIsValidExactlyWhen` | emergence/artifacts/service.py:566-586 | with a lineage id in the caller's provenance, creating keeps the lineages well-formed if and only if that id is empty or the new artifact's own |
| `ArtifactClaims.ClaimedLineageBreaks` | emergence/artifacts/service.py:566-586 | claiming an existing lineage gives it a second version 1 at another index |
| `ArtifactClaims.ClaimOverwritesExactlyWhen` | emergence/artifacts/service.py:598-605 | such a create changes bytes that exist if and only if the first version of the claimed lineage has the same space and file name and other bytes |
| `ArtifactClaims.ClaimReplacesBytes` | emergence/artifacts/service.py:566-605 | two creates in which the second claims the lineage of the first and replaces its bytes |
| `Artifacts.SameFromAnyId` | emergence/artifacts/service.py:280-296 | from any id of a lineage `get` finds the same record for a version, and none outside 1..n |
| `ArtifactServices.ArtifactService.IndexRecord` | emergence/artifacts/service.py:480-495 | the record and all three indexes |
| `ArtifactServices.ArtifactService.Update` | emergence/artifacts/service.py:164-219 | status, blob, record and indexes in the order of the source, also when the blob cannot be written |
| `ArtifactServices.ArtifactService.Get` | emergence/artifacts/service.py:280-296 | the lookup loop finds the first record with the version |
| `ArtifactServices.ArtifactService.ReadContent` | emergence/artifacts/service.py:298-310 | the bytes of the version asked for, which always exist |
| `ArtifactServices.ArtifactService.Versions` | emergence/artifacts/service.py:363-374 | every version of the lineage, once, oldest first, from any of its ids |
| `ArtifactServices.ArtifactService.ActiveInLineage` | emergence/artifacts/service.py:554-564 | the last version if it is active, and nothing otherwise |
| `ArtifactServices.ArtifactService.Export` | emergence/artifacts/service.py:376-408 | the version asked for, or the lineage's active version in place of one that is not; content is never missing |
| `ArtifactServices.ArtifactService.LatestVersions` | emergence/artifacts/service.py:504-511 | exactly the records with the greatest version of their lineage |
| `ArtifactServices.ArtifactService.Search` | emergence/artifacts/service.py:312-361 | at most `limit` of the records a linear scan accepts, newest first, none omitted that is newer |
| `ArtifactServices.GoalIndexIsScan` | emergence/artifacts/service.py:330-332 | the goal index picks out the records a linear scan would |
| `ArtifactFields.CreateRefusedExactlyWhen` | emergence/artifacts/service.py:125-158 | `create` is refused, without any change, if and only if the name or type is blank or the blob cannot be written |
| `ArtifactFields.CreatedFields` | emergence/artifacts/service.py:135-156 | every field of a new record from the draft: name trimmed, type trimmed and in lower case, and exactly the tags that are not blank, trimmed and in lower case |
| `ArtifactFields.UpdatedFields` | emergence/artifacts/service.py:175-213 | a new version keeps type, goal, space and lineage, and name and tags unless others are given; the old record changes in its status only |
| `ArtifactFields.ExportTargetMeans` | emergence/artifacts/service.py:382-388 | exporting a version gives that version; exporting without one gives the active version of the lineage, and the record asked for only if there is none |
| `ArtifactFields.FilenameMeans` | emergence/artifacts/service.py:825-827 | a file name is never empty, has only letters, digits, underscore, dot and hyphen, and is the name itself if that has no others |
| `ArtifactFields.DecimalReads` | emergence/artifacts/service.py:603 | the version in a blob location is the decimal numeral of the version |
| `ArtifactFields.FilterMeans` | emergence/artifacts/service.py:326-347 | a record passes if and only if it has the status, goal, space, type and all tags asked for, types and tags trimmed and in lower case |
| `ArtifactFields.TagIsFound` | emergence/artifacts/service.py:341-347 | a search for a tag finds an artifact created with it, however either was written |
| `Memory.RoundTrip` | emergence/memory/memory_manager.py:18-67 | parsing a printed key gives its four parts back if and only if the space has no colon; the short key may have any |
| `Memory.ParseIsPrinted` | emergence/memory/memory_manager.py:43-67 | whatever parses is the printed form of what is returned, with or without the default space |
| `Memory.ScopedInjective` | emergence/memory/memory_manager.py:18-25 | different parts are printed differently |
| `Memory.LegacyIsNotClean` | emergence/memory/memory_manager.py:28-40 | no scoped key reads as a legacy key |
| `Memory.OwnKeysOnly` | emergence/memory/memory_manager.py:231-245 | the prefixes of `working_snapshot` match exactly the process's own working keys in its space |
| `MemoryManagers.MemoryManager.Store` | emergence/memory/memory_manager.py:97-130 | one entry of the store changes, and the search index mirrors the episodic and semantic entries |
| `MemoryManagers.MemoryManager.Peek` | emergence/memory/memory_manager.py:132-150 | the value under the scoped key, else the default |
| `MemoryManagers.MemoryManager.Delete` | emergence/memory/memory_manager.py:186-211 | one entry of the store and of the index goes |
| `MemoryManagers.MemoryManager.WorkingSnapshot` | emergence/memory/memory_manager.py:231-245 | exactly the process's own working entries by short key, in whatever order the store lists them |
| `MemoryManagers.CheckpointManager.Create` | emergence/checkpoint/checkpoint_manager.py:56-83 | saves that snapshot and the usage counters as the latest checkpoint |
| `MemoryManagers.CheckpointManager.Restore` | emergence/checkpoint/checkpoint_manager.py:85-121 | writes every saved entry back, leaves all other keys, and overwrites the counters; an unknown id changes nothing |
| `MemoryManagers.CheckpointManager.Latest` | emergence/checkpoint/checkpoint_store.py:48-52 | the last checkpoint saved for the process |
| `Memory.RestoreUndoes` | emergence/checkpoint/checkpoint_manager.py:96-101 | whatever happened to memory in between, restoring gives every checkpointed key its old value and leaves all other keys alone |
| `Memory.RestoredViews` | emergence/checkpoint/checkpoint_manager.py:96-101 | restoring overrides the process's working memory with the checkpoint's and changes no other process's, which is how the kernel model sees it |
| `VectorIndexes.CountDocuments` | emergence/memory/vector_index.py:102-108 | the document frequency of every term |
| `VectorIndexes.TfidfVector` | emergence/memory/vector_index.py:22-40 | a weight for every term of the text and no other; how it depends on rarity and share is in `Ranking` |
| `VectorIndexes.Cosine` | emergence/memory/vector_index.py:43-54 | the cosine, in whatever order the sums are taken; zero for an empty vector |
| `VectorIndexes.WeightsPositive` | emergence/memory/vector_index.py:34-38 | document frequency never exceeds the number of documents, so every idf is at least 1 and every weight positive |
| `VectorIndexes.CauchySchwarz` | emergence/memory/vector_index.py:47-49 | the squared dot product is at most the product of the squared norms |
| `VectorIndexes.CosineInUnit` | emergence/memory/vector_index.py:43-54 | each score lies in [0, 1] |
| `VectorIndexes.VectorIndex.Search` | emergence/memory/vector_index.py:90-128 | at most `top_k` documents with exactly their scores, none below the minimum, best first, none omitted that scores higher |
| `Ranking.TokenizeSplits` | emergence/memory/vector_index.py:15-19 | with `Ranking.TokenizeWord`, the terms of every text: the maximal runs of letters and digits, in lower case, in order |
| `Ranking.TokenizeWord` | emergence/memory/vector_index.py:15-19 | a text without separators is one term, itself in lower case |
| `Ranking.RarerWeighsMore` | emergence/memory/vector_index.py:34-38 | for a strictly rising logarithm, of two terms equally frequent in a text the one found in fewer documents weighs strictly more |
| `Ranking.CommonestWeighsItsShare` | emergence/memory/vector_index.py:34-38 | a term found in every document weighs exactly its share of the text |
| `Ranking.WeightIsProportional` | emergence/memory/vector_index.py:36-38 | the weights of a term in two texts are as its shares of them |
| `Ranking.NothingSharedScoresZero` | emergence/memory/vector_index.py:43-54 | a document without a term of the query scores 0 |
| `Ranking.OwnTextScoresOne` | emergence/memory/vector_index.py:43-54 | a document scores 1 for its own text |
| `Ranking.RarerMatchScoresHigher` | emergence/memory/vector_index.py:90-128 | of two documents of the same shape that each share one term with the query, equally frequent there, the one that shares the rarer term scores strictly higher |
| `Ranking.RarerMatchComesFirst` | emergence/memory/vector_index.py:120-128 | in the answer of `search` such a document comes before the other one, and is there whenever the other one is |
| `Timelines.Batch` | emergence/events/narrative.py:222-277 | the entries are, in log order, the told events, each one event or a maximal run of memory events with equal plugin, key and UTC day |
| `Timelines.BuildEntries` | emergence/events/narrative.py:222-279 | the same after sorting by time: every told event is in exactly one entry, as often as in the log |
| `Timelines.GroupByDay` | emergence/events/narrative.py:142-163 | each group holds exactly the entries with its label, in order; labels come once, sorted; no event is lost or repeated |
| `Timelines.LabelFitsAll` | emergence/events/narrative.py:166-176 | an entry's day label is right for every event it stands for |
| `Timelines.BuildTimeline` | emergence/events/narrative.py:113-139 | every told event appears as often as in the log, under the label of its own day |
| `Timelines.RunMeans` | emergence/events/narrative.py:237-259 | an entry for more than one event stands for adjacent memory events of one plugin, key and day, and its neighbours in the log are not like them |
| `Timelines.LabelMeans` | emergence/events/narrative.py:166-176 | today, yesterday and tomorrow are the days around now and every other day is named itself, so two times have one label exactly when they lie on one day |
| `Timelines.LabelsInOrder` | emergence/events/narrative.py:155-159 | tomorrow, today, yesterday, then the other days from the earliest on |

## Left out

- Processes, tasks, plans, goals and artifact records are values in the dictionaries rather than objects, so two references to one record are not modelled.
- `Heap.Push`, `Heap.Pop` and `Heap.Heapify` move entries by swaps where the library moves a hole, so the array may be arranged differently; the heap order and the contents are the same.
- Heaps, mailboxes and dictionaries are fields of sequence and map type that the methods reassign.
- Kernels.Kernel.Spawn: leaves out budgets and process associations of the goal registry, parents and correlation ids.
- Kernels.Kernel.Grant: leaves out the event of the approval itself; the key, its event and the wakeups are there.
- Kernels.Kernel.Supervise: leaves out the recorded decisions, the failure fields of the process, and the memory events of the entries that a restore writes back.
- Kernels.Kernel.RunNext: fails an overrun process once; the source would fail it a second time if the first failure raised, which by `KernelRuns.FailStep` does not happen.
- Kernels.Kernel.RunOp: leaves out the events of tool calls.
- Kernels.Kernel.CreatePlan: requires unique task names and known dependency names, and the theorems one plan per goal.
- Kernels.Kernel.Run: takes the bodies of the dispatched processes as an argument and stops when they are used up.
- `cancel_goal_processes`, which leaves a cancelled process in the scheduler, `run_forever`, `tick` and shutdown.
- A bound on dispatches when checkpoints are restored: that branch neither reads nor advances the retry count.
- Execution seconds.
- Replay.ReplayLog: replays the whole log, not from a time on.
- Event store queries, the JSON Lines store, SQLite checkpoints and snapshot files.
- StateStores.StateStore.Invoke: takes what handlers do from a finite script, so a handler that never ends is not modelled.
- `StateStore.clear`, which empties the store without an event, so no log could replay to it.
- ArtifactServices.ArtifactService.Search: has no query text, whose ranking the sort by time overrides, and returns records rather than views.
- Artifact links, watches, notifications, summaries and `restore`, which does not rebuild the indexes.
- Artifacts.LocationInjective: locations are texts below the blob root; path normalisation by the file system is not modelled, and letters and digits are the ASCII ones.
- Legacy memory keys beside scoped ones, other spellings of a UUID, and `MemoryManager.search`, which filters the search index by prefix.
- MemoryManagers.CheckpointManager.Create: saved values are immutable, so sharing a mutable value between store and checkpoint is not modelled.
- Floating point: scores are exact reals and are not rounded.
- Timelines.Batch: takes the narrative sentence of an event as given, and dates are day numbers, which sort as ISO dates do.
- The goal and correlation filters of the timeline, and scheduled placeholders.
- HTTP, admin sockets, command line, web interface, language model providers, tools, virtual file system, plugins, threads and locks.
- Capability facades beyond the permission check of each operation.
