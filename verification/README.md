# MLFQ dispatcher model

This project models the scheduling core of the FreeRTOS PC scheduler simulator, a multi-level feedback
queue (MLFQ) simulator written in C. It covers these parts:

- **The queue bank.** There are 20 FIFO priority queues. Level 0 is the real-time class.
- **The pending ledger.** It holds tasks that have not arrived yet.
- **The starvation sweep.** It evicts any task that has waited 20 ticks or more at levels 1..19.
- **Selection.** The real-time queue is served first; otherwise the lowest non-empty level is taken.
- **Demotion.**
- **One iteration of the dispatcher loop, and the loop itself.** An iteration runs arrivals, timeouts, dispatch, one unit of work, then completion, demotion or keeping the CPU.
- **Task creation.**

The clock and every task field are `uint32_t` in C. The model keeps them as `u32` (0 .. 2^32-1), and the clock step
and the waiting-time subtraction are written out modulo 2^32.

There are two layers:

- **A value layer.**
  - `Mlfq`, in `mlfq.dfy`, is a specification of the scheduler state (`State`) and of every step as a function.
  - `MlfqFacts`, `TickFacts` and `Progress` hold the lemmas about those functions. They cover:
    - conservation of tasks through the ledger and the sweep;
    - the exact conditions for being admitted or evicted;
    - FIFO order;
    - idempotence of the sweep;
    - priority selection;
    - what one tick does in each case;
    - the levels invariant;
    - termination of the dispatcher loop.
  - `Custody` (`custody.dfy`) proves that every task is held in one place at most: the ledger, one ready queue or the CPU. Tasks are counted by id. `scheduler_init` holds none, adding a task with a fresh id holds it once, and no step of an iteration copies or invents a task. So a completed or evicted task is held nowhere afterwards and never comes back.
- **An imperative layer.**
  - `Tasks` (`tasks.dfy`) holds the `Task` record as a class and `task_create`.
  - `Scheduler` (`scheduler.dfy`) is the `Scheduler_t` structure as a class, whose methods update its fields in place. The loops of `check_arrivals` and `check_timeouts` are methods with invariants.
  - `Dispatcher` (`dispatcher.dfy`) is the `dispatcher_task` loop.
  - Each method is proved to change the abstract state (`Abs()`) exactly as the matching `Mlfq` function does. Everything proved about the functions therefore holds for the code.

The effects of the FreeRTOS calls are recorded in each task's `unit` field:

- `NoUnit`: no FreeRTOS task exists.
- `Active`: `xTaskCreate` or `vTaskResume` was called.
- `Paused`: `vTaskSuspend` was called.

The console output is a log of `Event` values. Each event holds the clock, the event kind, the task id, the priority and
the remaining time that is shown.

The program's own documentation and its code disagree on one point, and the model follows the code. The doc comment of
`print_task_info_with_old_priority` (scheduler.c:285-286) says it exists to show a task's old priority, in particular when
the task is suspended, and main.c:194 passes `old_priority` for the SUSPENDED line. The function discards that argument
(scheduler.c:289) and prints the task's current priority, i.e. the priority after demotion (scheduler.c:303). `TickFacts.Requeued`
states the line with the new level.

## Model

| member | source | states |
|---|---|---|
| Tasks.Task.constructor | FreeRTOS_PC_Scheduler/src/tasks.c:44-59 | every field is set as `task_create` sets it: remaining time = duration, creation and start time 0, wait start = arrival time, no FreeRTOS task, not running |
| Tasks.Create | FreeRTOS_PC_Scheduler/src/tasks.c:31-62 | returns null exactly when the allocation fails, otherwise a new task whose record is the initial record |
| Mlfq.NextTime | FreeRTOS_PC_Scheduler/src/main.c:162 | the clock increment wraps at 2^32 |
| Mlfq.Elapsed | FreeRTOS_PC_Scheduler/src/scheduler.c:185 | the waiting time is the `uint32_t` difference now − wait start, modulo 2^32 |
| Mlfq.Reports | FreeRTOS_PC_Scheduler/src/scheduler.c:288-306 | one output line per task, in the order of the tasks, each that task's report |
| Mlfq.Init | FreeRTOS_PC_Scheduler/src/scheduler.c:16-31 | the initial scheduler is well formed, at time 0, with counter 0, no output, and is already in the stop state (all queues, the ledger and the CPU empty) |
| Mlfq.FirstReady | FreeRTOS_PC_Scheduler/src/scheduler.c:230-234 | the level found is the first non-empty level at or after the start of the scan, or past the end when all are empty |
| Mlfq.NextTask | FreeRTOS_PC_Scheduler/src/scheduler.c:221-236 | no task is returned exactly when every queue is empty, and then nothing changes; otherwise the head of some non-empty queue is returned and removed from that queue alone |
| Mlfq.Demoted | FreeRTOS_PC_Scheduler/src/scheduler.c:312-327 | real-time stays real-time; other priorities grow by at most one, are clamped at level 19, and stay below 20 when they started below |
| Mlfq.Tick | FreeRTOS_PC_Scheduler/src/main.c:85-217 | an iteration keeps the state well formed and advances the clock by exactly one (mod 2^32), busy or idle |
| Scheduler.EmptyQueue | FreeRTOS_PC_Scheduler/src/scheduler.c:36-41 | an initialised queue is consistent and holds no task |
| Scheduler.QueueIsEmpty | FreeRTOS_PC_Scheduler/src/scheduler.c:87-89 | the `head == NULL` test is true exactly when the queue holds no task |
| Scheduler.Enqueue | FreeRTOS_PC_Scheduler/src/scheduler.c:48-64 | NULL leaves the queue unchanged; otherwise the task is appended at the tail, the count grows by one and the head is kept unless the queue was empty |
| Scheduler.Dequeue | FreeRTOS_PC_Scheduler/src/scheduler.c:70-82 | an empty queue yields NULL and is unchanged; otherwise the head is returned and the rest stays in order with the count one less |
| Scheduler.DequeueEnqueue | FreeRTOS_PC_Scheduler/src/scheduler.c:48-82 | FIFO: enqueue then dequeue returns the old head, or the new task on an empty queue |
| Scheduler.UnlinkCurrent | FreeRTOS_PC_Scheduler/src/scheduler.c:193-202 | unlinking the visited task keeps head, tail and count consistent with the tasks kept plus the tasks still to visit |
| Scheduler.KeepCurrent | FreeRTOS_PC_Scheduler/src/scheduler.c:208-211 | stepping over a kept task keeps the chain consistent with the visited task as the new `prev` |
| Scheduler.SweepQueue | FreeRTOS_PC_Scheduler/src/scheduler.c:177-213 | the walk over one queue leaves exactly the survivors, in order, and prints one TIMEOUT line per evicted task, in order |
| Scheduler.WalkLedger | FreeRTOS_PC_Scheduler/src/scheduler.c:132-165 | the walk over the ledger appends each admitted task to its level's queue in ledger order and keeps exactly the tasks still waiting |
| Scheduler.SweepBank | FreeRTOS_PC_Scheduler/src/scheduler.c:176-214 | levels 1..19 are swept and level 0 is untouched; the output is the concatenated TIMEOUT lines by level |
| Scheduler.Scheduler.constructor | FreeRTOS_PC_Scheduler/src/scheduler.c:16-31 | every queue is initialised empty and the abstract state is the initial state |
| Scheduler.Scheduler.IsEmpty | FreeRTOS_PC_Scheduler/src/scheduler.c:333-345 | true exactly when every queue and the ledger are empty |
| Scheduler.Scheduler.AddTask | FreeRTOS_PC_Scheduler/src/scheduler.c:95-105 | NULL changes nothing; a task with priority below 20 is appended at the tail of its level; any other task is ignored |
| Scheduler.Scheduler.AddPendingTask | FreeRTOS_PC_Scheduler/src/scheduler.c:111-123 | NULL changes nothing; otherwise the task is linked after the last ledger entry |
| Scheduler.Scheduler.CheckArrivals | FreeRTOS_PC_Scheduler/src/scheduler.c:129-166 | the scheduler changes exactly as `Mlfq.Arrivals`: due tasks are stamped and queued at their level, the rest stay in the ledger in order |
| Scheduler.Scheduler.CheckTimeouts | FreeRTOS_PC_Scheduler/src/scheduler.c:172-215 | the scheduler changes exactly as `Mlfq.Timeouts`: starved tasks at levels 1..19 are removed and reported |
| Scheduler.Scheduler.GetNextTask | FreeRTOS_PC_Scheduler/src/scheduler.c:221-236 | the task returned and the new queues are exactly those of `Mlfq.NextTask` |
| Scheduler.Scheduler.DemoteTask | FreeRTOS_PC_Scheduler/src/scheduler.c:312-327 | only the current task's priority changes, to its demoted value; no current task changes nothing |
| MlfqFacts.WaitingIff | FreeRTOS_PC_Scheduler/src/scheduler.c:137-164 | a ledger task stays in the ledger after the walk iff it is not yet due |
| MlfqFacts.AdmittedIff | FreeRTOS_PC_Scheduler/src/scheduler.c:137-162 | a task is appended to level k iff it was due and its priority is k |
| MlfqFacts.LedgerConservesTags | FreeRTOS_PC_Scheduler/src/scheduler.c:129-166 | the walk loses and invents no task: the tasks kept, the tasks admitted to every level and the tasks dropped are the ledger's tasks |
| MlfqFacts.ArrivalsConserveTags | FreeRTOS_PC_Scheduler/src/scheduler.c:129-166 | over the whole state, admission only moves tasks from the ledger to the queues, apart from the dropped ones |
| MlfqFacts.AddPendingThenArrive | FreeRTOS_PC_Scheduler/src/scheduler.c:111-166 | a task added to the ledger that is already due and below level 20 is queued by the next arrivals check |
| MlfqFacts.SurvivorsIff | FreeRTOS_PC_Scheduler/src/scheduler.c:183-212 | a task survives the sweep iff it is in the queue and has waited less than 20 ticks |
| MlfqFacts.EvictedIff | FreeRTOS_PC_Scheduler/src/scheduler.c:183-212 | a task is evicted iff it is in the queue and has waited 20 ticks or more |
| MlfqFacts.SurvivorsInOrder | FreeRTOS_PC_Scheduler/src/scheduler.c:193-211 | the survivors keep their relative FIFO order |
| MlfqFacts.SweepConservesTags | FreeRTOS_PC_Scheduler/src/scheduler.c:183-213 | survivors and evicted tasks together are exactly the queue's tasks |
| MlfqFacts.SweepOfFreshIsNoOp | FreeRTOS_PC_Scheduler/src/scheduler.c:172-215 | when no task is starved the sweep changes nothing and prints nothing |
| MlfqFacts.SweepLeavesNoneStarved | FreeRTOS_PC_Scheduler/src/scheduler.c:172-215 | after the sweep no task at levels 1..19 is starved |
| MlfqFacts.SweepIdempotent | FreeRTOS_PC_Scheduler/src/scheduler.c:172-215 | a second sweep at the same time, as in the same iteration, changes nothing and prints nothing |
| MlfqFacts.StarvedTaskIsEvicted | FreeRTOS_PC_Scheduler/src/scheduler.c:185-206 | a starved task at a level 1..19 is gone from that queue after the sweep, and a TIMEOUT line names it with its id, its priority and 0 remaining |
| MlfqFacts.SweepBankTags | FreeRTOS_PC_Scheduler/src/scheduler.c:176-214 | over the bank, the tasks after the sweep plus the evicted ones are the tasks before |
| MlfqFacts.FirstReadyIs | FreeRTOS_PC_Scheduler/src/scheduler.c:230-234 | the scan's result is the lowest non-empty level at or after its start, and only that level |
| MlfqFacts.RealTimeFirst | FreeRTOS_PC_Scheduler/src/scheduler.c:224-227 | a non-empty real-time queue is always served first |
| Dispatcher.Select | FreeRTOS_PC_Scheduler/src/main.c:103-133 | dispatch changes the scheduler exactly as `Mlfq.Select` and reports whether a task was started |
| Dispatcher.Execute | FreeRTOS_PC_Scheduler/src/main.c:138-196 | running the current task changes the scheduler exactly as `Mlfq.Execute` |
| Dispatcher.Dispose | FreeRTOS_PC_Scheduler/src/main.c:165-196 | the disposition changes the scheduler exactly as `Mlfq.Dispose` |
| Dispatcher.Tick | FreeRTOS_PC_Scheduler/src/main.c:87-214 | one iteration changes the scheduler exactly as `Mlfq.Tick`; the stop flag is set iff queues, ledger and CPU are all empty |
| Dispatcher.DispatcherTask | FreeRTOS_PC_Scheduler/src/main.c:80-220 | the loop always terminates, after n ≥ 1 iterations from the reset clock, in the stop state, and none of iterations 1..n−1 met the stop test: it leaves at the first iteration whose test holds (main.c:210-214) |
| TickFacts.NothingDue | FreeRTOS_PC_Scheduler/src/scheduler.c:137-165 | when no ledger task is due the ledger is unchanged and nothing is admitted |
| TickFacts.IdleTick | FreeRTOS_PC_Scheduler/src/main.c:198-206 | with the CPU and every queue empty and nothing due, an iteration only advances the clock |
| TickFacts.Dispatch | FreeRTOS_PC_Scheduler/src/main.c:103-133 | an idle CPU with a ready task takes the head of the chosen level; the task keeps id, priority and remaining time; it is Active; the start time is stamped for non-real-time tasks; creation and wait time are stamped on first dispatch; exactly one STARTED line is added |
| TickFacts.Completes | FreeRTOS_PC_Scheduler/src/main.c:152-176 | a task with at most one tick left consumes it (the decrement of main.c:152 stops at 0) and completes: it leaves the CPU, it is not put into any queue (the queues are exactly the swept queues), and the last line is COMPLETED at the new time showing 0; that it is then in no queue at all is `Custody.CompletedIsGone` |
| TickFacts.Requeued | FreeRTOS_PC_Scheduler/src/main.c:152-196 | a non-real-time task with more than one tick left loses one tick and is demoted, suspended, stamped with the new time and appended to its new level; it gives up the CPU; the last line is SUSPENDED with the new level |
| TickFacts.RealTimeKeepsCpu | FreeRTOS_PC_Scheduler/src/main.c:152-197 | a real-time task with more than one tick left keeps the CPU with one tick less and is never demoted or queued |
| TickFacts.SweepLogKinds | FreeRTOS_PC_Scheduler/src/scheduler.c:188 | the sweep prints TIMEOUT lines only |
| TickFacts.ExecuteLines | FreeRTOS_PC_Scheduler/src/main.c:144-196 | running a task keeps the earlier output and adds a RUNNING line iff the task is real-time and was not just dispatched |
| TickFacts.RunningIff | FreeRTOS_PC_Scheduler/src/main.c:144-146 | an iteration prints RUNNING iff a real-time task already held the CPU when it began |
| TickFacts.AddTaskKeepsLevels | FreeRTOS_PC_Scheduler/src/scheduler.c:99-101 | adding a task keeps every queued task at the level of its priority |
| TickFacts.ArrivalsKeepLevels | FreeRTOS_PC_Scheduler/src/scheduler.c:160-162 | admission keeps every queued task at the level of its priority |
| TickFacts.TimeoutsKeepLevels | FreeRTOS_PC_Scheduler/src/scheduler.c:172-215 | the sweep keeps every queued task at the level of its priority |
| TickFacts.SelectKeepsLevels | FreeRTOS_PC_Scheduler/src/scheduler.c:221-236 | dispatch keeps the levels invariant and the dispatched task's priority is below 20 |
| TickFacts.ExecuteKeepsLevels | FreeRTOS_PC_Scheduler/src/main.c:178-192 | re-queueing after demotion keeps every queued task at the level of its priority |
| TickFacts.TickKeepsLevels | FreeRTOS_PC_Scheduler/src/main.c:87-217 | a whole iteration preserves the levels invariant and keeps the current task's priority below 20 |
| Progress.ArrivalsWork | FreeRTOS_PC_Scheduler/src/scheduler.c:129-166 | admission never increases the outstanding work |
| Progress.TimeoutsWork | FreeRTOS_PC_Scheduler/src/scheduler.c:172-215 | the sweep never increases the outstanding work |
| Progress.SelectWork | FreeRTOS_PC_Scheduler/src/main.c:103-133 | dispatch leaves the outstanding work unchanged |
| Progress.DisposeWork | FreeRTOS_PC_Scheduler/src/main.c:166-196 | the disposition never increases the work and strictly decreases it on completion |
| Progress.ExecuteWork | FreeRTOS_PC_Scheduler/src/main.c:138-196 | running a task strictly decreases the outstanding work |
| Progress.DelayNextTick | FreeRTOS_PC_Scheduler/src/main.c:198-206 | an idle tick with nothing due brings every pending task one tick closer to its arrival |
| Progress.TickProgress | FreeRTOS_PC_Scheduler/src/main.c:85-217 | every iteration that does not reach the stop state decreases (work, time to the next arrival) lexicographically |
| Progress.FinishedLater | FreeRTOS_PC_Scheduler/src/main.c:85-214 | from any iteration count, some later iteration reaches the stop state |
| Progress.EventuallyFinished | FreeRTOS_PC_Scheduler/src/main.c:208-214 | from any well-formed state, the stop test holds after some n ≥ 1 iterations |
| Custody.InitOneContainer | FreeRTOS_PC_Scheduler/src/scheduler.c:16-31 | `scheduler_init` holds no task: every id is held zero times, so no id is held twice |
| Custody.AddPendingKeepsOneContainer | FreeRTOS_PC_Scheduler/src/main.c:44-50 | adding to the ledger a task whose id is not held yet (the loader's `task_counter++` ids are fresh) adds exactly one occurrence of that id and keeps every id held at most once |
| Custody.AddTaskKeepsOneContainer | FreeRTOS_PC_Scheduler/src/scheduler.c:95-105 | adding to its queue a task whose id is not held yet adds one occurrence of that id when its priority is below 20, none otherwise, and keeps every id held at most once |
| Custody.ArrivalsIds | FreeRTOS_PC_Scheduler/src/scheduler.c:129-166 | admission moves tasks from the ledger to the queues or drops them: no id is held more often afterwards |
| Custody.TimeoutsIds | FreeRTOS_PC_Scheduler/src/scheduler.c:172-215 | the sweep only releases tasks: what is held afterwards plus the evicted tasks is what was held before |
| Custody.SelectIds | FreeRTOS_PC_Scheduler/src/main.c:103-109 | selection moves the head of the chosen level to the CPU: the tasks held are the same |
| Custody.DisposeIds | FreeRTOS_PC_Scheduler/src/main.c:166-196 | completion releases the task on the CPU, and demotion moves it to one queue or releases it: no id is held more often; on completion exactly the task on the CPU is released |
| Custody.ExecuteIds | FreeRTOS_PC_Scheduler/src/main.c:138-196 | running the task on the CPU for one tick adds no id |
| Custody.TickIds | FreeRTOS_PC_Scheduler/src/main.c:87-217 | a whole iteration copies and invents no task: no id is held more often afterwards |
| Custody.TickKeepsOneContainer | FreeRTOS_PC_Scheduler/src/main.c:87-217 | if no id is held twice before an iteration, none is held twice after it |
| Custody.TicksAddNoIds | FreeRTOS_PC_Scheduler/src/main.c:85-217 | after any number of iterations no id is held more often than at the start |
| Custody.CompletedIsGone | FreeRTOS_PC_Scheduler/src/main.c:166-176 | in a state where no id is held twice, a task whose last tick runs is held nowhere afterwards: not on the CPU, in no ledger entry and in no ready queue |
| Custody.EvictedIsGone | FreeRTOS_PC_Scheduler/src/scheduler.c:183-206 | in a state where no id is held twice, a starved task at levels 1..19 is held nowhere after the sweep |
| Custody.NeverReturns | FreeRTOS_PC_Scheduler/src/main.c:85-217 | an id the scheduler no longer holds is, after any number of iterations, not on the CPU, in no ledger entry and in no ready queue |

## Left out

- Pointers and aliasing: the queues and the ledger hold task records as values. The `next` link is the order of a sequence, and `head`/`tail` are the first and last of it. The model does not capture the in-place writes through `next`. That no task is reachable from two places is stated on ids instead: `Custody.OneContainer` says no id is held twice. It holds after `scheduler_init`, it is kept by adding a task whose id is not held yet, and every iteration keeps it. The loader that hands out fresh ids is not part of this model.
- `PriorityQueue_t.count` is a `uint32_t`. The model keeps it as an unbounded natural, so it does not capture wrap-around beyond 2^32 − 1 queued tasks.
- The mutex, and its release around `vTaskDelay`: the dispatcher is the only mutator, so the loop runs without interleaving.
- The FreeRTOS calls (`xTaskCreate`, `vTaskSuspend`, `vTaskResume`, `vTaskDelete`, `vTaskDelay`, `vTaskPrioritySet`) are kernel calls. They appear only through the `unit` field.
- A failing `xTaskCreate` is not modelled: the unit always becomes `Active`.
- The real-time delays of the quantum and of the exit are not modelled.
- `exit(0)` is the loop's stop.
- `printf` output, colours and the Turkish event names are replaced by `Event` values. The remaining time shown is 0 for TIMEOUT and COMPLETED lines, as the code shows it.
- `load_tasks_from_file`, `main`, `task_function` and the FreeRTOS hooks are input parsing, start-up and the kernel's own code. They are not part of this model.
- The `sprintf`-built task name is a string only used for FreeRTOS. It is not modelled.
- `is_running` is set to true only by `task_function` (tasks.c:19), which runs inside the FreeRTOS task and is not part of this model; the model carries the field and never changes it after creation.
- `task_destroy` and `vTaskDelete` free memory. In the model, a completed or evicted task simply becomes unreachable.
- The NULL checks on the scheduler and queue pointers are not modelled, because the model's scheduler and queues always exist. The NULL-task checks of `queue_enqueue`, `scheduler_add_task` and `scheduler_add_pending_task` are modelled.
- Scheduler.Scheduler.DemoteTask: demotes only the current task, because that is the only task the source passes to `scheduler_demote_task`.
- A pending task whose priority is 20 or more is dropped from the ledger at arrival and never freed. The model records it as dropped (`Dropped`) and does not model the leak.
- TickFacts.Requeued: assumes the task's unit is Active, which holds for every task on the CPU after dispatch. The suspension of a task without a unit is covered by `Mlfq.Dispose` but is not stated separately.
