# modern_coro: a verified model

This Dafny project models the coroutine runtime `modern_coro`: its three schedulers, the `AsyncTask` and `Task`
await protocols, the timer, cancellation, the IO event registry and the two memory pools. Most of that code is
small critical sections whose correctness shows only when they interleave, so each component is modelled twice:

* as **classes** whose methods follow the source's methods field by field and loop by loop, each proved against a
  specification function or an explicit description of the new state;
* as a **transition system**, one step for each critical section or atomic operation. Its steps use the functions that
  specify the methods; a method that is several steps is tied to its run by a lemma whose name ends in `Alone`
  (`ScheduleAlone`, `BatchAlone`, `WorkerAlone`, `OwnerAlone`, `ThiefAlone`, `PlaceAlone`, `CancelAlone`), and a
  registration object of Cancellation.dfy is one id in a sequence there. `Next(state, action)` is `None` when an action
  is not enabled, `Exec` runs a finite sequence of actions, and the theorems hold for every run from every initial
  state, with any number of threads.

Results about a run are stated against what the run itself asks for, read off its actions: the times requested of the
timer, the tasks submitted, the tickets taken, the callbacks registered, the completions brought, the last awaiter of a
coroutine. That the components get on at all is stated too: `stop` can always come to its end, every run of an
`AsyncTask` ends, a due timer fires, a waiter is woken.

`Exec(Next, s0, run) == Some(s)` therefore reads "the interleaving `run` leads from `s0` to `s`".

| file | component |
|---|---|
| Common.dfy | options, runs and invariance, sums over sequences and maps, division facts |
| BaseScheduler.dfy, BaseSchedulerRuns.dfy, BaseSchedulerStop.dfy, BaseSchedulerLimits.dfy, SchedulerObjects.dfy | base scheduler: FIFO queues, round robin, cap, worker ids, stop |
| WorkStealing.dfy, WorkStealingRounds.dfy, WorkStealingObjects.dfy | work-stealing scheduler |
| AdvancedScheduler.dfy | priority order, least-loaded placement with racing producers, stealing |
| AsyncTask.dfy | completion racing with registration |
| Coroutine.dfy | the promise of a `Task` and the active-coroutine counters |
| SingleResume.dfy | scheduler, timer, `Task`, `AsyncTask` and IO events composed: who may resume a coroutine |
| HandOver.dfy | the same system: where each right to resume goes, step by step |
| Timer.dfy | timer queue, worker and condition variable |
| Cancellation.dfy | cancellation source and registrations |
| IoRegistry.dfy, IoAgreement.dfy | descriptor tables, kernel interest sets, global descriptor map, and when these agree |
| MemoryPool.dfy, StackPool.dfy | block pool and coroutine stack pool |

Assumptions of the whole model: sequential consistency; unbounded counters; a mutex section is one step;
`std::priority_queue`, mutexes and condition variables behave as specified, with spurious wakeups; clocks, random
draws, scan orders of hash maps and answers of the system allocator are inputs that may take any allowed value;
coroutines, callbacks and tasks are ids.

## What the code does and does not guarantee

Some of what one expects of the runtime holds only under a condition. The code is modelled as it is; each condition
is proved to be exact, or a concrete run shows the failure.

* `stop` drains a queue if and only if a worker serves it (`DrainedIffServed`). The worker id counter is shared by all
  schedulers, so that a scheduler started while another one starts can leave a queue unserved (`ForeignTicketLosesTasks`), and none
  is left so when no foreign worker starts between two of its own (`UndisturbedStartDrains`);
  the repository's README promises the drain without a condition.
* Size check and push are separate steps: function tasks stay within the queue cap, on all runs, if and only if there is
  at most one producer (`CapHoldsIffOneProducer`); P producers reach cap - 1 + P of them (`CapCanBeExceeded`) and no
  more (`CapHolds`). Submitted coroutines skip the check and are not bounded.
* A live coroutine has exactly one right to be resumed as long as no task is submitted while it is live, none is awaited
  after it was submitted or awaited, and an `AsyncTask` or an IO slot gets a waiter, or an IO slot is deleted, only
  when nobody waits there; and not otherwise (`DisciplineIsExact`). Submitting a finished task again does no harm,
  because its closure is skipped. The repository's README says that awaiters prevent a second resume, but no code does:
  `SubmittedTwiceRunsTwice`. A second awaiter of an `AsyncTask` loses the first (`SecondAwaiterLosesTheFirst`), and a
  reader finds the value moved out exactly when no exception is set and there was a read since the last completion with
  a value (`MovedOutIffReadSince`).
* Thieves take the oldest task, at the front of a deque; the repository's README says the tail.
* Resetting the steal statistics is three stores that thieves, and resets of other workers, interleave with. On every run
  the statistics agree in the end if and only if the attempts in flight at the last store to the total, with the
  successes and failures counted since the last stores to those, are as many as the outcomes counted since that store to
  the total (`StealStatsAgreeIff`, and `LastStoresAgreeIff` for three stores given). They can disagree although no
  attempt is in flight when a reset starts or ends (`InterruptedResetDisagrees`), and because two resets overlap
  (`OverlappingResetsDisagree`).
* `Timer::stop` notifies without the mutex and can miss the worker (`StopCanMissTheWorker`), exactly when the worker is
  between its look and its wait (`StopMissedIffInsideTheWindow`).
* A `cancel` returns before the state is CANCELLED if and only if it is REQUESTED when the call gets the mutex, and with
  callbacks still to run if and only if another `cancel` is then running them (`EarlyReturnIffRequested`,
  `LosingCancelReturnsEarly`). Move-assigning over a registration leaves its callback stored until cancellation, with no
  registration to take it out (`UnregistrableIffNotDisowned`, `DisownedIsReachable`).
* `EPOLL_CTL_MOD` replaces the mask, so that adding one direction stops reports for a waiter in the other: a waiter is
  reported exactly as long as its descriptor is not added again to the same IO thread (`ReportedIffNotAddedSince`,
  `MutedWaiterIsReachable`).
* `add_event` takes the next IO thread whatever thread has the descriptor, and `del_event` reaches one thread only. Map
  and tables agree from then on if and only if no other thread has the descriptor, or is just erasing it, when it is
  added (`AgreementIffDisciplined`, `MapAgreesIffDisciplined`); `TwoThreadsOrphanARegistration` is a failing run.
* Freeing a pool block while 512 blocks are free loses count of it (`FreeKeepsBooksIffBelowCap`), and every pool can get
  there (`FullFreeListIsReachable`); a stack returned with a foreign size breaks the stack pool's books
  (`ReturnKeepsBooksIffOwnSize`, `ForeignReturnIsReachable`).
* Racing producers of the advanced scheduler can spread the loads as far as their number, and no further
  (`SpreadUnderRaces`, `RaceReachesTheBound`).

## Model

| member | source | states |
|---|---|---|
| `BaseScheduler.DrainedIffServed` | src/scheduler/scheduler.cpp:69-117 | after `stop` has joined, each task pushed to a queue before the stop flag was executed exactly once iff a worker serves the queue (or there was none) |
| `BaseScheduler.DiscardedOnlyLatecomers` | src/scheduler/scheduler.cpp:107-116 | no task is executed twice, and what the cleanup throws away was pushed after the queue's worker left |
| `BaseScheduler.ServedIffTicketFalls` | src/scheduler/scheduler.cpp:190-192 | a queue has a worker iff the ticket of one of the scheduler's own workers falls on it |
| `BaseSchedulerRuns.ClaimsCountUp` | src/scheduler/scheduler.cpp:190-192 | over every run the tickets of the workers are strictly increasing from the counter's first value on; they are exactly the next ones iff no foreign worker took one before, and consecutive iff none did in between |
| `BaseSchedulerRuns.UndisturbedStartDrains` | src/scheduler/scheduler.cpp:185-230 | with as many workers as queues, on a run in which no foreign worker takes a ticket between two of theirs, each queue has one worker and is drained |
| `BaseSchedulerRuns.AloneTheyTakeTurns` | src/scheduler/scheduler.cpp:190-192 | workers that start one after the other, alone, are such a run, and take the queues in turn |
| `BaseSchedulerRuns.EarlyIsWhatStopFound` | src/scheduler/scheduler.cpp:86-90 | the tasks that the drain is about are those pushed when `stop` raised the flag, and they head the log ever after |
| `BaseSchedulerRuns.EveryRequestIsPlaced` | src/scheduler/scheduler.cpp:119-162 | each task a run asks for is with its producer or placed, and what is placed at a queue is on its way there, pushed there or dropped there by the cap: none is lost, doubled or changed |
| `BaseSchedulerStop.WorkerAlone` | src/scheduler/scheduler.cpp:199-227 | a worker to whose queue nobody pushes executes every task there once, in order, and then leaves iff the flag is up |
| `BaseSchedulerStop.StopCanFinish` | src/scheduler/scheduler.cpp:69-117 | from every reachable state before the join a run leads to the end of `stop`, with all workers gone and all queues empty |
| `BaseScheduler.QueueIsFifoLog` | src/scheduler/scheduler.cpp:199-211 | with at most one worker a queue is a FIFO log: executed, running, discarded and waiting tasks are its pushes in order |
| `BaseScheduler.ScheduledIsAccountedFor` | src/scheduler/scheduler.cpp:119-162 | scheduled tasks are completed, queued, running, in flight, dropped by the cap or discarded, in every reachable state |
| `BaseScheduler.CapHolds` | src/scheduler/scheduler.cpp:132-144 | P racing producers never get more than cap - 1 + P function tasks into a queue |
| `BaseScheduler.PlacementIsEven` | src/scheduler/scheduler.cpp:132-134 | after k placements each of n queues got floor(k/n), and the first k mod n one more |
| `BaseScheduler.ShareIsEven` | src/scheduler/scheduler.cpp:190-192 | how many of the first k tickets modulo n fall on a queue |
| `BaseScheduler.ConsecutiveTicketsCover` | src/scheduler/scheduler.cpp:190-192 | any n consecutive worker ids cover each of n queues exactly once |
| `BaseSchedulerLimits.CapCanBeExceeded` | src/scheduler/scheduler.cpp:136-144 | for every cap and every number P of producers, a run that puts cap - 1 + P function tasks into a queue |
| `BaseSchedulerLimits.CapHoldsIffOneProducer` | src/scheduler/scheduler.cpp:136-144 | the cap is kept on all runs iff there is at most one producer |
| `BaseSchedulerLimits.ForeignTicketLosesTasks` | src/scheduler/scheduler.cpp:190-192 | a run in which a task pushed before `stop` is never executed, because another scheduler took a worker id |
| `SchedulerObjects.WorkerQueue.Push` | include/scheduler/scheduler.h:164-169 | the push of the step system, and the size counter stays the length |
| `SchedulerObjects.WorkerQueue.TryPop` | include/scheduler/scheduler.h:171-182 | the pop of the step system, which takes the front, or an empty queue reported and left as it is |
| `SchedulerObjects.WorkerQueue.RunNext` | src/scheduler/scheduler.cpp:203-211 | a task is popped and executed at its position of the log, or there is none |
| `SchedulerObjects.WorkerQueue.Empty` | include/scheduler/scheduler.h:184-188 | true iff there are no tasks |
| `SchedulerObjects.WorkerQueue.Clear` | src/scheduler/scheduler.cpp:108-116 | the loop does the cleanup of the step system: all that was queued is discarded |
| `SchedulerObjects.ScheduleAlone` | src/scheduler/scheduler.cpp:119-162 | one producer alone takes no step when stopped, and otherwise accepts, counts, places, checks, and pushes iff there is room; that run does what the method does |
| `SchedulerObjects.ScheduleCoroAlone` | include/scheduler/scheduler.h:61-86 | the same for `schedule(Task&&)`, which only places and pushes, with no stop check, cap or counting |
| `SchedulerObjects.Scheduler.constructor` | src/scheduler/scheduler.cpp:38-52 | one empty queue for each thread, at least one |
| `SchedulerObjects.Scheduler.Schedule` | src/scheduler/scheduler.cpp:119-162 | empty function or stopped: nothing changes; else both counters go up by one and the task goes to the back of the next queue iff fewer than the cap wait there; no other queue changes |
| `SchedulerObjects.Scheduler.ScheduleTask` | include/scheduler/scheduler.h:61-86 | the coroutine goes to the back of the next queue whatever the flags say, and only the placement counter moves |
| `SchedulerObjects.Scheduler.IsIdle` | include/scheduler/scheduler.h:47-58 | true iff no task is queued and no coroutine is active |
| `SchedulerObjects.Scheduler.WorkerThread` | src/scheduler/scheduler.cpp:199-227 | while nobody pushes, the loop executes the queued positions one after the other, and leaves at a wait iff the flag is up |
| `SchedulerObjects.Scheduler.DiscardLeftovers` | src/scheduler/scheduler.cpp:107-116 | every queue is cleared as in the step system |
| `WorkStealing.VictimIsAnyOther` | src/scheduler/work_stealing_scheduler.cpp:207-215 | a thief can try exactly the queues that are not its own |
| `WorkStealing.TasksAreConserved` | src/scheduler/work_stealing_scheduler.cpp:102-185 | every pushed task is in exactly one deque, hand or log, and a deque's size counter is its length |
| `WorkStealing.StealsAreOldestFirst` | include/scheduler/work_stealing_scheduler.h:114-125 | over a whole run the tasks stolen from a deque come out in push order, each older than all that is left |
| `WorkStealing.EndsOfTheDeque` | include/scheduler/work_stealing_scheduler.h:102-125 | an owner's pop takes the newest task and fails iff there is none; an attempt takes the oldest of its victim, never of its own deque, and fails iff that has none |
| `WorkStealing.StealStatsAgreeWithoutReset` | src/scheduler/work_stealing_scheduler.cpp:194-225 | on every run without a reset: attempts are successes, failures and attempts in flight, and per-queue steals are successes and steals not yet counted |
| `WorkStealing.StealStatsAgreeIff` | src/scheduler/work_stealing_scheduler.cpp:227-257 | on every run, with any overlapping resets: the statistics agree iff the attempts in flight at the last store to the total, the successes since the last store to those and the failures since the last store to those add up to the outcomes since that store to the total |
| `WorkStealing.LastStoresAgreeIff` | src/scheduler/work_stealing_scheduler.cpp:251-255 | for the last stores to total, successes and failures by any workers: they agree iff the attempts in flight at the first are the successes counted before the second and the failures before the third |
| `WorkStealing.OverlappingResetsDisagree` | src/scheduler/work_stealing_scheduler.cpp:227-257 | a run in which two workers' resets overlap and the statistics disagree, with nothing in flight at the first store |
| `WorkStealing.InterruptedResetDisagrees` | src/scheduler/work_stealing_scheduler.cpp:251-255 | a run in which they do not, with no attempt in flight before or after the reset |
| `WorkStealing.ResetAgreesIffNobodyIsStealing` | src/scheduler/work_stealing_scheduler.cpp:251-255 | the case of a reset that nothing interleaves with: it agrees iff no attempt is in flight |
| `WorkStealing.CountersAgree` | src/scheduler/work_stealing_scheduler.cpp:151-156 | executed, completed and scheduled counters agree up to workers and producers between two increments |
| `WorkStealing.QueueCountersAreExact` | src/scheduler/work_stealing_scheduler.cpp:139-156 | each queue's executed count is what its own worker counted over the run and its stolen count what was taken from it; the scheduled count is what the calls count; a worker leaves at its check iff stopped |
| `WorkStealingRounds.OwnerAlone` | src/scheduler/work_stealing_scheduler.cpp:132-156 | left alone, a worker runs all of its own deque, newest first, counts each task, and steals nothing |
| `WorkStealingRounds.ThiefAlone` | src/scheduler/work_stealing_scheduler.cpp:139-156 | left alone beside another's deque, a worker with none of its own steals and runs all of it, oldest first, with one attempt and one success each |
| `WorkStealingObjects.DealtCount` | src/scheduler/work_stealing_scheduler.cpp:89-99 | dealing a batch round robin gives every queue floor or ceiling of its share |
| `WorkStealingObjects.BatchAlone` | src/scheduler/work_stealing_scheduler.cpp:82-100 | one producer alone in `schedule_batch` deals its tasks round robin from queue 0, as the method does |
| `WorkStealingObjects.WorkStealingQueue.PushLocal` | include/scheduler/work_stealing_scheduler.h:95-99 | pushes at the back |
| `WorkStealingObjects.WorkStealingQueue.PopLocal` | include/scheduler/work_stealing_scheduler.h:102-111 | pops the back, or nothing |
| `WorkStealingObjects.WorkStealingQueue.Steal` | include/scheduler/work_stealing_scheduler.h:114-125 | takes the front and counts it, or counts a failure |
| `WorkStealingObjects.WorkStealingScheduler.LeastLoaded` | src/scheduler/work_stealing_scheduler.cpp:45-57 | finds the first of the shortest queues |
| `WorkStealingObjects.WorkStealingScheduler.Schedule` | src/scheduler/work_stealing_scheduler.cpp:29-62 | the task goes to the caller's own queue if it has one, else to a shortest one, and to no other |
| `WorkStealingObjects.WorkStealingScheduler.ScheduleWithAffinity` | src/scheduler/work_stealing_scheduler.cpp:64-80 | the preferred queue if valid; the fallback counts the task twice |
| `WorkStealingObjects.WorkStealingScheduler.ScheduleBatch` | src/scheduler/work_stealing_scheduler.cpp:82-100 | the non-empty functions are dealt round robin from queue 0, and the empty ones are counted too |
| `WorkStealingObjects.WorkStealingScheduler.TrySteal` | src/scheduler/work_stealing_scheduler.cpp:194-225 | for any draws: the oldest task of a victim other than the thief, or every victim tried was empty |
| `AdvancedScheduler.DrainsIffSortedPermutation` | include/scheduler/advanced_scheduler.h:10-31 | popping a queue until empty yields exactly the permutations sorted by CRITICAL, HIGH, NORMAL, LOW and then by earlier submission |
| `AdvancedScheduler.TakenInOrder` | src/scheduler/advanced_scheduler.cpp:133-140 | while nothing is pushed to a queue, owner and thieves together take its tasks in order, over any run |
| `AdvancedScheduler.EmptiedMeansDrained` | src/scheduler/advanced_scheduler.cpp:205-216 | a queue emptied so, by owner and thieves, was drained in order |
| `AdvancedScheduler.EveryDrainHappens` | src/scheduler/advanced_scheduler.cpp:133-155 | each of these orders is taken, and executed, on some run of one worker |
| `AdvancedScheduler.EveryTaskIsInOnePlace` | src/scheduler/advanced_scheduler.cpp:114-165 | every task with an id is pending, queued, held, executed or failed, in one place, so it runs at most once |
| `AdvancedScheduler.TasksAreAsSubmitted` | src/scheduler/advanced_scheduler.cpp:53-84 | wherever a task is, it has the priority, time and id it was submitted with, and the logs have one entry for each task finished or failed |
| `AdvancedPlacement.SpreadGrowsIffLevel` | src/scheduler/advanced_scheduler.cpp:64-82 | a placement raises the spread of the loads iff all were equal, and then to one |
| `AdvancedPlacement.GreedyIsRoundRobin` | src/scheduler/advanced_scheduler.cpp:64-82 | from empty queues the k-th placement goes to queue k mod n, so loads are floor or ceiling of the share |
| `AdvancedPlacement.PlaceAlone` | src/scheduler/advanced_scheduler.cpp:64-82 | a producer that nobody interferes with puts its task on the first of the shortest queues |
| `AdvancedPlacement.SpreadUnderRaces` | src/scheduler/advanced_scheduler.cpp:64-82 | with racing producers that read counters one by one, the spread never exceeds the larger of its old value and their number |
| `AdvancedPlacement.RaceReachesTheBound` | src/scheduler/advanced_scheduler.cpp:64-82 | for every number of producers a run that reaches that bound |
| `AdvancedObjects.ThreadQueue.Push` | src/scheduler/advanced_scheduler.cpp:78-82 | adds one task, and the counter stays the number of tasks |
| `AdvancedObjects.ThreadQueue.Pop` | src/scheduler/advanced_scheduler.cpp:133-139 | removes one task that is below no other |
| `AdvancedObjects.AdvancedScheduler.LeastLoaded` | src/scheduler/advanced_scheduler.cpp:64-76 | finds the first of the shortest queues |
| `AdvancedObjects.AdvancedScheduler.ScheduleWithPriority` | src/scheduler/advanced_scheduler.cpp:53-84 | the task, with a fresh id, goes to that queue and no other |
| `AdvancedObjects.AdvancedScheduler.TrySteal` | src/scheduler/advanced_scheduler.cpp:176-211 | takes the top of another queue that had more than one task and a free mutex; fails iff there is none |
| `AdvancedObjects.AdvancedScheduler.NextTask` | src/scheduler/advanced_scheduler.cpp:124-147 | a worker serves its own queue first and steals only when that is empty and stealing is enabled |
| `AsyncTask.SharedState.SetValue` | include/core/async_task.h:225-249 | stores, marks completed, takes the continuation out and tells where to dispatch it |
| `AsyncTask.SharedState.SetException` | include/core/async_task.h:251-275 | the same for an exception |
| `AsyncTask.SharedState.RegisterContinuation` | include/core/async_task.h:300-313 | wins iff not completed; keeps a scheduler already set |
| `AsyncTask.SharedState.AwaitResume` | include/core/async_task.h:150-198 | exception before value, error when not completed or not set; moves the value out |
| `AsyncTask.DispatchedAtMostOnce` | include/core/async_task.h:225-298 | for any number of awaiters and completions: no continuation is handed over twice, or before completion, or while still registered |
| `AsyncTask.FinishedIffNotOverwritten` | include/core/async_task.h:300-313 | when nothing is left to do after a completion, an awaiter has finished iff no later registration overwrote it |
| `AsyncTask.HandedOverExactlyOnce` | include/core/async_task.h:119-148 | one awaiter: one hand-over iff it was dispatched, after completion, on its own scheduler or else its completer's, and in the end it has read what the completions mean |
| `AsyncTask.SuspendedIsPostedOnce` | include/core/async_task.h:119-148 | an awaiter that suspended is handed over exactly once by the time nothing is left to do after a completion |
| `AsyncTask.EveryRunEnds` | include/core/async_task.h:119-148 | no run has more than five steps an awaiter and two a completion, so that the end which these theorems speak of is always near |
| `AsyncTask.HistoryIsTheRuns` | include/core/async_task.h:225-298 | the completions by which outcomes are judged are those of the run's completers, in its order, and so are the moments of its reads |
| `AsyncTask.ReadyIffCompleted` | include/core/async_task.h:119-148 | an awaiter goes on at once iff some completion came before, and its registration is refused iff one did |
| `AsyncTask.EveryOutcomeIsReported` | include/core/async_task.h:150-198 | any number of awaiters: what each has read is what the completions up to some moment mean, or a value moved out |
| `AsyncTask.MovedOutIffReadSince` | include/core/async_task.h:177-186 | a read finds the value moved out iff no exception is set and there was a read since the last completion with a value |
| `AsyncTask.SecondReaderFindsItMoved` | include/core/async_task.h:177-186 | a run in which the second of two readers does |
| `AsyncTask.SecondAwaiterLosesTheFirst` | include/core/async_task.h:307-311 | a run in which the first of two awaiters is never resumed |
| `Coroutine.PromiseObject.InitialSuspend` | include/core/coroutine.h:79-100 | counted iff a scheduler was captured |
| `Coroutine.PromiseObject.AwaitSuspend` | include/core/coroutine.h:283-312 | stores the awaiter, inherits a scheduler only into a gap, starts the child unless done |
| `Coroutine.PromiseObject.FinalSuspend` | include/core/coroutine.h:131-166 | takes the flag down and charges the captured scheduler, once |
| `Coroutine.PromiseObject.FinalAwait` | include/core/coroutine.h:103-129 | hands the stored continuation, and only it, to a scheduler if one is known, else resumes it in place |
| `Coroutine.LastAwaiterIsWoken` | include/core/coroutine.h:103-129 | over every run the final awaiter wakes whoever awaited last, through a scheduler if its creator, an awaiter or the finishing thread has one, else in place |
| `Coroutine.CounterIsExact` | include/scheduler/scheduler.h:112-123 | under any interleaving no counter underflows, every decrement's test succeeds, each coroutine is taken off once, where it was added |
| `Coroutine.ZeroIffAllOver` | include/scheduler/scheduler.h:47-58 | a counter is zero iff every coroutine added to it is over |
| `Coroutine.OwedCounterIsPositive` | include/scheduler/scheduler.h:116-123 | whoever still owes a decrement finds the counter positive |
| `Coroutine.CountedWhereCreated` | include/core/coroutine.h:79-100 | each coroutine is added to the counter of the scheduler it was created on, to none without one, and taken off that one |
| `SingleResume.Ledger` | include/core/coroutine.h:283-312 | for every state: what each action creates and destroys of the rights to resume a coroutine, and that finishing makes guarded closures expire |
| `SingleResume.DisciplineIsExact` | include/core/coroutine.h:283-312 | a step keeps one right for each live coroutine iff it submits no live task, awaits a task only before it was submitted or awaited, and registers at, or deletes, no place where another coroutine waits |
| `SingleResume.SubmittedTwiceRunsTwice` | include/scheduler/scheduler.h:61-86 | a run in which a task submitted twice is run by two threads at once |
| `SingleResume.LiveIffInOnePlace` | include/core/coroutine.h:103-129 | a coroutine is live iff some place holds it, and then only that place |
| `SingleResume.ResumedOnlyWhenSuspended` | include/scheduler/scheduler.h:61-86 | a thread starts running only a suspended, unfinished coroutine that no other thread runs |
| `SingleResume.SingleResume` | src/utils/timer.cpp:79-155 | in every state of every disciplined run each live coroutine has exactly one place: queue, timer, child, `AsyncTask`, IO slot, thread or dropped; `HandOver` says which |
| `HandOver.RightMoves` | include/core/coroutine.h:103-129 | a disciplined step takes each right to its destination and nowhere else: an awaiter to the thread that finishes its child, a sleeper to the one that fires, a waiter to the one that delivers, a posted closure to the back of its queue |
| `HandOver.NewRight` | include/scheduler/scheduler.h:61-86 | a task submitted goes to the back of its queue, a child awaited to its awaiter's thread |
| `HandOver.WaiterGoesOn` | src/utils/timer.cpp:106-146 | whoever waits where the step happens runs at once or is handed to a scheduler: behind a child, behind an `AsyncTask`, in the timer, in an IO slot, in a queue |
| `HandOver.SuspendedIsOffItsThread` | include/core/async_task.h:119-148 | whoever suspends is off its thread, and goes on by a hand-over when it yields or its registration is refused |
| `HandOver.IdleThreadCanRun` | src/scheduler/scheduler.cpp:203-211 | an idle thread can run whoever heads a queue, sleeps, was spawned or waits in a slot |
| `HandOver.FlagsAreTheRuns` | include/core/async_task.h:225-249 | the schedulers stopped and the `AsyncTask`s done are those that the run stopped or completed |
| `HandOver.DroppedOnlyBy` | src/scheduler/scheduler.cpp:119-144 | a live coroutine is lost only by a post to a stopped scheduler or full queue, or by the cleanup of a stopped one |
| `HandOver.NobodyIsLost` | src/scheduler/scheduler.cpp:119-144 | after a disciplined run without these every live coroutine is in a place from which it is resumed |
| `Timer.NeverOversleeps` | src/utils/timer.cpp:66-91 | a request not fired and due before the sleeping worker's deadline has its own producer between its push and its notify |
| `Timer.FiredOnceInOrderNeverEarly` | src/utils/timer.cpp:93-155 | each request waits or was fired once, with the time it asked for, never before that, never ahead of an earlier one that waited, and is delivered in that order |
| `Timer.LookFiresTheEarliest` | src/utils/timer.cpp:97-153 | a pass of the worker fires iff a request is due and the flag is down, and then the earliest one; it leaves iff the flag is up |
| `Timer.DueRequestsFire` | src/utils/timer.cpp:97-153 | whenever a request is due and the flag is down, at most three steps of the worker and of pending notices fire one |
| `Timer.StopCanMissTheWorker` | src/utils/timer.cpp:29-40 | a run after which `stop` waits for a worker that only a push or a spurious wakeup can wake |
| `Timer.NotifiedOutsideTheWindow` | src/utils/timer.cpp:29-40 | notified outside that window, the worker never sleeps again |
| `Timer.StopMissedIffInsideTheWindow` | src/utils/timer.cpp:97-104 | the worker can sleep after the stop notification iff it had decided to wait before it |
| `Timer.TimerObject.Start` | src/utils/timer.cpp:20-27 | spawns a worker iff not started |
| `Timer.TimerObject.Stop` | src/utils/timer.cpp:29-40 | raises the flag and joins iff started |
| `Timer.TimerObject.WorkerPass` | src/utils/timer.cpp:97-153 | one pass leaves iff the flag is up, fires a due event that none precedes, or sleeps no longer than the earliest event |
| `Cancellation.InvokedAtMostOnce` | include/safety/coroutine_cancellation.h:88-150 | no callback runs twice, none that was unregistered while stored, and none stays stored after cancellation |
| `Cancellation.CancelledMeansInvoked` | include/safety/coroutine_cancellation.h:88-116 | in state CANCELLED a registered callback was invoked once iff it was not unregistered before |
| `Cancellation.CallbacksRunAsRegistered` | include/safety/coroutine_cancellation.h:88-144 | the callback run for an id is the one registered under it: the first registrations of the run are stored under their numbers, the later ones are run at once, in order |
| `Cancellation.UnregisteredIsNeverRun` | include/safety/coroutine_cancellation.h:147-150 | a callback unregistered while stored is run by no continuation of the run |
| `Cancellation.PhaseOnlyAdvances` | include/safety/coroutine_cancellation.h:88-116 | the state never moves back |
| `Cancellation.AllReturnedMeansCancelled` | include/safety/coroutine_cancellation.h:450-472 | when all cancel calls (explicit, timeout, destructor) have returned the state is CANCELLED |
| `Cancellation.EarlyReturnIffRequested` | include/safety/coroutine_cancellation.h:88-116 | a cancel returns before the state is CANCELLED iff it is REQUESTED on entry, and with callbacks still to run iff another cancel is then running them |
| `Cancellation.CancelledIffWinnerReturned` | include/safety/coroutine_cancellation.h:88-116 | once some cancel has returned, all collected callbacks have run and the state is CANCELLED iff the one that runs them has returned |
| `Cancellation.LosingCancelReturnsEarly` | include/safety/coroutine_cancellation.h:94-96 | a run in which a second cancel returns with a callback still to run |
| `Cancellation.CancelAlone` | include/safety/coroutine_cancellation.h:88-116 | a first cancel left alone runs every stored callback once, in the order of its walk, and sets CANCELLED |
| `Cancellation.UnregistrableIffNotDisowned` | include/safety/coroutine_cancellation.h:47-59 | a stored callback has a registration, and one only, iff no move was assigned over it |
| `Cancellation.DisownedIsReachable` | include/safety/coroutine_cancellation.h:52-59 | a run to a stored callback without a registration |
| `Cancellation.CancellationSource.Collect` | include/safety/coroutine_cancellation.h:91-104 | the winner gets every stored callback once, the loser nothing |
| `Cancellation.CancellationSource.RegisterCallback` | include/safety/coroutine_cancellation.h:127-144 | stores under a fresh id, or runs at once when cancelled |
| `Cancellation.CancellationSource.UnregisterCallback` | include/safety/coroutine_cancellation.h:147-150 | erases that id only |
| `Cancellation.CancellationRegistration.MovedFrom` | include/safety/coroutine_cancellation.h:47-50 | takes the id over and zeroes the other's |
| `Cancellation.CancellationRegistration.MoveAssign` | include/safety/coroutine_cancellation.h:52-59 | the same onto an existing registration, without unregistering it; self-assignment does nothing |
| `Cancellation.CancellationRegistration.Unregister` | include/safety/coroutine_cancellation.h:201-208 | erases the callback once and zeroes the id |
| `IoRegistry.ReportedIffNotAddedSince` | src/io/io_manager.cpp:358-395 | in every reachable state the kernel reports a stored registration's event iff no later `add_event` of the descriptor replaced the mask |
| `IoRegistry.AddIsStored` | src/io/io_manager.cpp:341-397 | `add_event` puts new registrations into the slots it names, overwrites only those, tells the kernel of these directions alone, and then the map of the thread |
| `IoRegistry.WaiterIsResumed` | src/io/io_manager.cpp:505-551 | a reported event resumes all waiters of its directions, reader first, and no others, and empties their slots |
| `IoRegistry.DeletedIsGone` | src/io/io_manager.cpp:423-461 | `del_event` empties the slots it names and no others, and forgets the descriptor iff nobody waits for it any more |
| `IoRegistry.IOThreadContext.AddEvent` | src/io/io_manager.cpp:349-395 | stores the handle in the named slots and issues ADD only for absent, MOD only for present descriptors |
| `IoRegistry.IOThreadContext.DelEvent` | src/io/io_manager.cpp:423-455 | clears the named slots and deletes the descriptor iff none is left |
| `IoRegistry.IOThreadContext.Deliver` | src/io/io_manager.cpp:505-551 | resumes the waiters of the reported directions, reader first, once |
| `IoRegistry.KernelMirrorsTable` | src/io/io_manager.cpp:341-462 | in every reachable state each table has the descriptors of its kernel interest set |
| `IoRegistry.MapPointsIntoTable` | src/io/io_manager.cpp:397-461 | while a thread's mutex is free, what the global map sends there is in its table |
| `IoRegistry.ResumedAtMostOnce` | src/io/io_manager.cpp:492-552 | each registration is resumed at most once, and is in a slot iff nothing has ended it |
| `IoRegistry.FateIsFinal` | src/io/io_manager.cpp:404-462 | a registration that was resumed, deleted or overwritten is never resumed later |
| `IoRegistry.MutedWaiterIsReachable` | src/io/io_manager.cpp:358-395 | a run to a stored waiter whose direction the kernel does not report |
| `IoAgreement.AgreementIffDisciplined` | src/io/io_manager.cpp:341-462 | a step keeps every table entry known to the map and every descriptor in one table iff it adds no descriptor that another thread has or is erasing |
| `IoAgreement.MapAgreesIffDisciplined` | src/io/io_manager.cpp:335-339 | after a disciplined run, a step is disciplined iff map and tables agree, where no mutex is held, after whatever disciplined run follows |
| `IoAgreement.OneThreadPerDescriptorAgrees` | src/io/io_manager.cpp:335-339 | so they agree if each descriptor keeps to one thread |
| `IoAgreement.TwoThreadsOrphanARegistration` | src/io/io_manager.cpp:404-416 | a run with round-robin threads after which a deleted descriptor still has a waiter |
| `MemoryPool.InChunkIffBlock` | include/core/memory_pool.h:58-70 | the range-and-remainder test accepts exactly the 256 block addresses of a chunk |
| `MemoryPool.BlocksApart` | include/core/memory_pool.h:121-124 | two blocks of disjoint chunks share no byte |
| `MemoryPool.MemoryInUseIsDisjoint` | include/core/memory_pool.h:22-49 | after every proper run no byte is handed out twice, as a block or as a large block |
| `MemoryPool.PoolIsSound` | include/core/memory_pool.h:51-80 | after every proper run the chunks' blocks are exactly the free, live and shrunk-away ones, without duplicates, at most 512 free, and the numbers add up |
| `MemoryPool.AllocationIsFresh` | include/core/memory_pool.h:22-49 | a request fails, changing nothing, iff the system allocator had to be asked and gave nothing; else the address was not in use, overlaps nothing in use, has room, and is in use afterwards beside all that was, as one more live block or a large one |
| `MemoryPool.FreeEndsUse` | include/core/memory_pool.h:51-80 | a proper free ends the use of that address and of no other |
| `MemoryPool.FreedBlockIsReused` | include/core/memory_pool.h:35-48 | the block freed last is the next one given out, and the pool is then as before |
| `MemoryPool.ShrinkKeepsHalf` | include/core/memory_pool.h:129-134 | shrinking keeps the first 256 free blocks, or all when there are no more, and touches nothing in use |
| `MemoryPool.FreeKeepsBooksIffBelowCap` | include/core/memory_pool.h:72-79 | after every proper run, freeing a live block keeps the books iff fewer than 512 blocks are free, and else leaves the count one too high |
| `MemoryPool.FullFreeListIsReachable` | include/core/memory_pool.h:72-79 | from every reachable state a run to where the next free loses count |
| `MemoryPoolObject.PoolObject.constructor` | include/core/memory_pool.h:99-102 | starts with one chunk if the system gives one |
| `MemoryPoolObject.PoolObject.AllocateChunk` | include/core/memory_pool.h:111-127 | the loop puts the 256 blocks on the free list in order |
| `MemoryPoolObject.PoolObject.Allocate` | include/core/memory_pool.h:22-49 | null iff the system had to be asked and gave nothing; else one more live block, counted, or one more large block |
| `MemoryPoolObject.PoolObject.Deallocate` | include/core/memory_pool.h:51-80 | null, pool block, full list, foreign address |
| `MemoryPoolObject.PoolObject.ShrinkToFit` | include/core/memory_pool.h:129-134 | keeps the first 256 free blocks |
| `StackPool.BooksAreExact` | include/core/memory_pool.h:154-207 | after every proper run memory is the summed clamped sizes of live and cached stacks, the count is the live ones, caches hold at most 50, none is both live and cached |
| `StackPool.ClearLeavesTheLive` | include/core/memory_pool.h:209-219 | clearing leaves exactly the live stacks and their bytes |
| `StackPool.AllocationIsFresh` | include/core/memory_pool.h:154-179 | a request fails iff the cache has no stack of its size and the system gave none; else the stack was not live, has 16384 to 131072 bytes, as many as asked in that range, fewer iff more than 131072 were asked |
| `StackPool.ReturnEndsUse` | include/core/memory_pool.h:181-201 | a returned stack is no longer live, and stays with the pool iff fewer than 50 of its size do |
| `StackPool.ReturnKeepsBooksIffOwnSize` | include/core/memory_pool.h:181-201 | returning a stack keeps the books iff its size clamps to its own |
| `StackPool.ForeignReturnIsReachable` | include/core/memory_pool.h:181-201 | a run to a return that breaks them |
| `StackPool.ReturnedStackIsReused` | include/core/memory_pool.h:161-168 | the next request of the size gets the stack returned last, and the pool is as before |
| `StackPool.CoroutineStackPool.constructor` | include/core/memory_pool.h:224-224 | starts empty |
| `StackPool.CoroutineStackPool.AllocateStack` | include/core/memory_pool.h:154-179 | cached stack, new stack, or no memory |
| `StackPool.CoroutineStackPool.DeallocateStack` | include/core/memory_pool.h:181-201 | null, room in the cache, full cache |
| `StackPool.CoroutineStackPool.ClearCache` | include/core/memory_pool.h:209-219 | the loops over sizes and stacks subtract exactly the cached bytes and empty the cache |

## Left out

- Frame lifetime and handle destruction, `SharedState::release`, keep-alive pointers: a coroutine is an id with a status.
- Weak memory orders, thread-id reuse, unsynchronised access to `thread_id_to_index_`, wrap-around of 64-bit counters.
- `AsyncTask<void>` and a null `state_`; only the value-carrying task is modelled.
- `SingleResume.SingleResume`: schedulers drop tasks when stopped or full, and a dropped coroutine counts as being in the place "dropped"; the `await_ready` test of a task and the `done()` test of its `await_suspend` are one step; each queue has its own stop flag; an IO slot stands for one direction of a descriptor in one IO thread, and an `add_event` for both directions at once, which the library itself never makes, is not composed; nor are cancellable awaiters, because two independent parties may resume there.
- `BaseScheduler.DrainedIffServed`: the waiting loop of `stop` may end at any time, which covers its ten-second limit; a task that schedules more tasks is a producer of its own.
- `WorkStealing.CountersAgree`: the size counter changes in the same step as the deque, inside the mutex; backoff times and success rates are not modelled.
- `WorkStealingObjects.WorkStealingScheduler.Schedule`: the thread's queue index is an input; `schedule(Task&&)` of that scheduler is not modelled.
- `AdvancedPlacement.SpreadUnderRaces`: stated without removals; with them a queue can be emptied while others stay, whatever the placement.
- `AdvancedScheduler.EveryTaskIsInOnePlace`: workers of that scheduler leave at the stop flag, so it gives at most once and no drain; time slices and waiting times are not modelled.
- `Timer.FiredOnceInOrderNeverEarly`: covers what is fired, not what `stop` leaves in the queue; a start racing with a stop is not modelled.
- `Cancellation.UnregistrableIffNotDisowned`: the source outlives its registrations; callbacks that re-enter the source while its mutex is held are not modelled.
- `IoRegistry.KernelMirrorsTable`: `epoll_ctl` fails only for ADD of a present and MOD or DEL of an absent descriptor, and descriptors are not closed while registered; a resume is an output that does not re-enter the context.
- `MemoryPool.PoolIsSound`: for runs that free only live memory, and pool blocks only below the cap; `FreeKeepsBooksIffBelowCap` says what happens otherwise.
- `StackPool.BooksAreExact`: stacks are told apart by address; their byte ranges are not compared.
- Destructors of the pools, alignment of allocations.
- Socket and file calls, errno handling, libc hooks, `FdManager`: kernel behaviour or one-branch facts.
- Logging, printing, exception classes, guards, `NestedTask`, lifecycle managers, thread-safe statistics: only easy members.
