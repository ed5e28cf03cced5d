# A Dafny model of the coro runtime

This project models the hard core of the C++ coroutine runtime `coro` and proves properties
of the model with Dafny 4.11. `dafny verify dfyconfig.toml` checks the whole of it.

## What is modelled, and how

Code that several threads run at once is a state machine: a datatype for the shared and
thread-local state, one total `Step` function whose actions are single atomic accesses or
single critical sections, and `Run`, which follows a schedule. The theorems quantify over
every schedule, and over any number of workers, thieves, wakers, tasks, readers and
registrations. Interleavings are sequentially consistent. Where a model allows more
interleavings than the code (a notification made by a thread of its own, a spawned task that
may run before it has been announced), it allows all of the code's.

An invariant does not say that a step does its work, so each machine also has results of other
kinds. Conservation: tasks and registrations are neither lost nor made up over a run. History: a
flag or a state is a function of what has happened so far, defined without it. Answers: when an
operation succeeds, gives up or takes another way. And what a thread achieves when it is left
alone, with the other threads stopped wherever they are: it finishes, with exactly the effect its
operation should have.

Code that one thread runs, alone or under a lock, keeps its imperative form: classes with the
source's fields, methods with loops, each tied by its contract to a specification.

| files | component |
|---|---|
| `RingMachine`, `RingSafety`, `RingTheorems`, `RingQueues`, `RingThieves`, `RingAlone`, `RingAnswers` | the work-stealing ring and its injection queue |
| `RingWords`, `RingCode`, `RingPrompt`, `RingAba` | the ring's 32-bit indices and packed head word |
| `Parking`, `ParkingRuns`, `ParkingAlone`, `ParkingAnswers`, `SearchHandOver`, `LoopParking`, `LoopParkingRuns` | parking and notification: the work-stealing executor's workers, and the single-threaded executor's loop |
| `Shutdown`, `ShutdownRuns`, `OwnedTasks`, `IntrusiveList` | runtime shutdown, the sets of live tasks, the intrusive list |
| `Scheduling`, `SchedulingRuns` | the task state machine, and blocking threads that park on it |
| `TimerHeap`, `TimerTables`, `TimerSpec`, `TimerQueue`, `TimerRuns` | the timer queue |
| `IoReadiness`, `IoReadinessRuns`, `IoLifetime`, `IoLifetimeRuns` | the I/O driver's readiness and its registrations' lifetime |
| `CoroScope`, `TaskBudget`, `RefCount` | structured concurrency, the poll budget, the non-atomic reference count |

`RingMachine.Run` takes the width of the indices: 0 gives unbounded indices, 2^32 the code's.
The safety and conservation theorems are proved of the unbounded machine;
`RingWords.WordsRefineIndices` ties the 32-bit one to it and `RingCode.CodeIsSafe` carries them
over. The 32 bits suffice for every step but two, and `RingWords.FitsWords` says when for those;
`RingPrompt.PromptFits` gives a condition on the schedule under which they always do.

In the timer queue `Now()` is the whole state as a value, and each method's contract is a
relation between two such values (`InsertSpec`, `CancelSpec`, ...). The `Book` in it is the
reference definition: a map from ids to live timers, and the fate of every timer that ended.

A few predicates with large definitions (`TimerTables.Good`, `TimerSpec.SnapOk`,
`IntrusiveLists.Chained`, `ParkingAlone.LeadsOn` and others) are folded: they are quantified over
a one-value type, so that their definition is used only where a proof asks for it.

## Findings

- Step 2 of the worker loop takes more tasks than the injection queue holds when there is one
  worker and its free slots, capped at 128, outnumber the queue. The header requires at least
  two workers, and the ring theorems do too. `RingSafety.BatchFitsExactly` gives the exact
  condition and an input that fails.
- `IntrusiveList::remove` is documented as a no-op on any node that is not in the list. That
  holds exactly when both links of the node are null; `IntrusiveLists.IntrusiveList.Remove`
  states it and `IntrusiveLists.RemoveFromWrongList` is an input that fails.
- A thief compares the packed 64-bit head word. If the head advances by a positive multiple of
  2^32 between its load and its claim, the words are equal and the claim succeeds on indices it
  never looked at. `RingWords.ClaimWrapsExactly` proves that this distance is the exact
  condition, and `RingWords.InStepExactly` that the code is in step with unbounded indices along
  a schedule if and only if every step of it fits. `RingAba.HeadWordCanComeRound` constructs a
  schedule from the initial state, 2^32 pushes and pops while a thief is about to claim, after
  which the code has returned more tasks than were pushed.

## Model

| member | source | states |
|---|---|---|
| RingSafety.RunKeeps | include/coro/detail/local_run_queue.h:175-415 | every interleaving of pushes, pops, spills, batch refills and steals by any number of workers keeps the ring invariant: what each owner and each thief knows at each of its steps stays true whatever the others do |
| RingTheorems.SafeOnEveryRun | include/coro/detail/local_run_queue.h:191-415 | in every reachable state steal <= front <= tail <= steal + 256, no assertion has failed, at most one steal of a ring is in progress, phase 3's first compare-exchange cannot succeed, and no slot is open to two workers |
| RingTheorems.SlotsExclusive | include/coro/detail/local_run_queue.h:355-415 | two workers that may touch the same slot of the same ring, a thief landing tasks in its own ring included, are the same worker |
| RingTheorems.InvariantMeans | include/coro/detail/local_run_queue.h:220-415 | the invariant implies each of those safety properties |
| RingThieves.RobbedByAThief | include/coro/detail/local_run_queue.h:355-415 | in every run a ring's two head indices are apart if and only if some worker has claimed from it and not yet finished copying, so a finished steal leaves its victim free to be robbed again |
| RingQueues.StepMoves | include/coro/detail/local_run_queue.h:191-415 | each atomic step of the ring is one given move on plain FIFO queues: enqueue, take the front, rob the front, spill the back half, refill; a compare-exchange makes its move if and only if the word is the one loaded and it does not fail spuriously |
| RingQueues.SpillExposesFirstHalf | include/coro/detail/local_run_queue.h:259-291 | after the head jumps by 256 and the tail by 128, the ring holds exactly the old first half in order, and the other half is what spills |
| RingQueues.MoveConserves | include/coro/detail/local_run_queue.h:191-415 | every move keeps the tasks held plus the tasks returned equal, as a multiset, to the tasks pushed |
| RingQueues.NothingLostOrDuplicated | include/coro/detail/local_run_queue.h:191-415 | in every run, the tasks in rings, claimed windows, hands and overflow, and those returned, are exactly the tasks pushed |
| RingAlone.OperationAlone | include/coro/detail/local_run_queue.h:175-415 | from every reachable state, with the other workers stopped anywhere in their operations, a worker that runs an operation alone finishes it with exactly the effect on plain queues: a pop takes the front or answers empty if there is none, a push is queued, or diverted or spilled only when the ring is full, a steal moves the first half, rounded up, of its victim's queue unless another is in progress or there is nothing, a refill takes its batch in order |
| RingAnswers.NobodyIsBlocked | include/coro/detail/local_run_queue.h:175-415 | from every reachable state every worker, wherever it is in its operation, finishes it when left alone |
| RingAnswers.PopAnswers | include/coro/detail/local_run_queue.h:220-243 | a pop that starts answers empty if and only if its queue is, one that retries only if it is, and its exchange succeeds if and only if the head is the one it saw, with the front of the queue |
| RingAnswers.PopReturnsFront | include/coro/detail/local_run_queue.h:220-243 | a pop returns the task that was at the front when its exchange succeeded, whatever others do before it reads the slot |
| RingAnswers.PushAnswers | include/coro/detail/local_run_queue.h:191-218 | a push goes to the ring if and only if there is room, to the injection queue if the ring is full and being robbed, and spills otherwise |
| RingAnswers.StealAnswers | include/coro/detail/local_run_queue.h:328-377 | a steal is not tried with the own ring over half full; it gives up if and only if another was in progress when it loaded the head or nothing lies beyond that head, and then the victim's queue is empty |
| RingAnswers.ClaimTakesHalf | include/coro/detail/local_run_queue.h:355-399 | a claim that succeeds takes exactly half, rounded up, of what the victim's queue held when the claim was sized, from the front of the queue, whatever happened in between |
| RingAnswers.AssertionsAreSeen | include/coro/detail/local_run_queue.h:175-399 | the assertion failure that the safety results exclude is reached if and only if the condition of one of the assertions is false, in any state and at any index width |
| RingAnswers.RefillTakesShare | src/runtime/work_stealing_executor.cpp:497-531 | a refill takes one task, or as many as a share of the queue plus one, half the ring and the free slots all allow |
| RingSafety.BatchFits | src/runtime/work_stealing_executor.cpp:497-531 | with two or more workers a batch takes at least one task, no more than the injection queue holds, and its rest fits the ring |
| RingSafety.BatchFitsExactly | src/runtime/work_stealing_executor.cpp:497-531 | the batch stays within the queue if and only if there are two workers or the capped free slots are no more than the queue; one worker, one task, an empty ring fails |
| RingWords.PackRoundTrip | include/coro/detail/local_run_queue.h:65-72 | pack and unpack of the head word undo each other, both ways |
| RingWords.PackInjective | include/coro/detail/local_run_queue.h:65-72 | equal packed words have equal halves, so one compare-exchange compares both |
| RingWords.WordsStandForHeads | include/coro/detail/local_run_queue.h:65-72 | comparing words is comparing the heads they stand for, and packing a pair stores that head |
| RingWords.Distance | include/coro/detail/local_run_queue.h:75-77 | the wrapping difference of two 32-bit indices is their true distance when that is less than 2^32 |
| RingWords.StepWraps | include/coro/detail/local_run_queue.h:175-415 | one step of the 32-bit code from the wrapped state is the wrapped step of the unbounded machine if and only if the step fits its words |
| RingWords.WordsRefineIndices | include/coro/detail/local_run_queue.h:175-415 | over every schedule whose steps fit, the 32-bit code follows the unbounded machine step for step |
| RingWords.InStepExactly | include/coro/detail/local_run_queue.h:175-415 | the code is in step with the unbounded machine all along a schedule if and only if every step of it fits |
| RingCode.CodeIsSafe | include/coro/detail/local_run_queue.h:175-415 | along every such schedule the 32-bit code itself fails no assertion, keeps its wrapping distances in order and within 256, its slots exclusive, at most one thief to a ring, phase 3's first compare-exchange failing, and accounts for every task pushed |
| RingPrompt.PromptFits | include/coro/detail/local_run_queue.h:355-387 | every step of a schedule fits its words if each thief sizes and makes its claim within 2^25 - 3 steps, by any workers, of loading the head |
| RingPrompt.StepModest | include/coro/detail/local_run_queue.h:175-415 | no step moves a tail by more than 128, and only a load of the head or a failed claim gives a thief a new head to hold |
| RingPrompt.ShortSchedulesFit | include/coro/detail/local_run_queue.h:355-387 | every schedule of at most 2^25 - 2 steps fits |
| RingWords.ClaimWrapsExactly | include/coro/detail/local_run_queue.h:375-387 | a claim on the packed word agrees with one on unbounded indices unless the head, with no steal in progress, has advanced by a positive multiple of 2^32 since it was loaded |
| RingWords.TailWrapsExactly | include/coro/detail/local_run_queue.h:361-377 | a thief sizes its claim as with unbounded indices if and only if fewer than 2^32 have passed since it loaded the head |
| RingAba.HeadWordCanComeRound | include/coro/detail/local_run_queue.h:355-415 | a schedule from the initial state whose every step fits up to a claim that does not, after which the code has returned more tasks than were pushed |
| Parking.RunKeeps | src/runtime/work_stealing_executor.cpp:189-370 | every interleaving of workers, enqueuers and driver turns keeps the parking invariant: idle bits, park states, turn, searching count and wake signals agree with where each thread is |
| Parking.NothingStranded | src/runtime/work_stealing_executor.cpp:541-662 | whenever the injection queue is non-empty a worker has its injection check to make, a token is banked or a notification is under way; with every worker blocked and no notification or signal outstanding, no queue or LIFO slot holds a task |
| Parking.TokensReachTheirWorker | src/runtime/work_stealing_executor.cpp:318-370 | a worker blocked in the driver with a token has the unpark signal set or about to be; one blocked on its condvar is about to be notified; one thread at most holds the turn; the searching count is exact and bounded |
| Parking.TokensAreHonoured | src/runtime/work_stealing_executor.cpp:318-370 | no step starts a worker blocking with a token banked, and a token is taken only by its own worker on its way back to the loop |
| ParkingRuns.SomeonePolls | src/runtime/work_stealing_executor.cpp:318-353 | in every run some worker is not waiting on its condvar, so if every worker is blocked one of them is polling the driver and holds the turn |
| ParkingRuns.TasksAreConserved | src/runtime/work_stealing_executor.cpp:189-662 | over every run the tasks waiting in rings, slots and injection queue and those taken out to run add up to those brought, through steals, spills, batches and demotions |
| ParkingAlone.WorkerGetsThere | src/runtime/work_stealing_executor.cpp:318-370 | a worker on its way to park, left alone in any reachable state, goes back to the loop if a check finds a task or a token is banked, otherwise polls the driver if the turn is free and waits on its condvar if not; one on its way back reaches the loop with token, idle bit and turn given up |
| ParkingAlone.NotificationReaches | src/runtime/work_stealing_executor.cpp:292-370 | a notification left alone wakes nobody if it sees a searcher or no idle worker, and otherwise banks a token for each worker it picks and wakes each of those that is blocked, and nothing else changes |
| ParkingAnswers.SearchAnswers | src/runtime/work_stealing_executor.cpp:539-592 | a worker searches if and only if fewer than the limit do, and one that found a task stops being counted and notifies |
| ParkingAnswers.CheckAnswers | src/runtime/work_stealing_executor.cpp:595-651 | the checks before a park find a task if and only if there is one: in the own ring, in the injection queue, and for the last searcher in any peer's ring |
| ParkingAnswers.QueueAnswers | src/runtime/work_stealing_executor.cpp:478-575 | of k tasks taken from the injection queue or stolen one is run and the others queued; the own ring gives one if and only if it is not empty |
| ParkingAnswers.PushAnswers | src/runtime/work_stealing_executor.cpp:189-263 | a push goes to the ring, or with what it spills to the injection queue, and starts a notification; a wake in the worker's own turn starts none |
| ParkingAnswers.SlotAnswers | src/runtime/work_stealing_executor.cpp:432-460 | a wake fills the empty LIFO slot, and queues are looked at only with the slot empty |
| ParkingAnswers.TurnAnswers | src/runtime/work_stealing_executor.cpp:318-353 | a busy worker gets the driver's turn if and only if it is free, and whoever polls comes back from it |
| SearchHandOver.PushOwesLook | src/runtime/work_stealing_executor.cpp:189-249 | every push by a worker that notifies, onto its ring or spilling from it, leaves a look at the queues owed |
| SearchHandOver.SearchersTakeOver | src/runtime/work_stealing_executor.cpp:541-643 | a look owed stays owed through every continuation, passing from the notification to the searchers it saw, from one searcher to the next and from one that finds a task to the notification it must make, until the last searcher looks at its peers before parking or finds a task in its other checks, or a notification wakes a worker or finds none idle |
| Parking.EndTurnKeeps | src/runtime/io_driver.cpp:104-122 | the turn's holder resets the unpark event without taking a wake meant for another worker |
| LoopParking.RunKeeps | src/runtime/current_thread_executor.cpp:127-152 | every interleaving of the loop with remote enqueues, added timers and shutdown rechecks keeps the loop's parking invariant |
| LoopParking.NoSleepThroughWork | src/runtime/current_thread_executor.cpp:274-315 | a loop blocked in the parker that nobody has unparked, or is about to, has no local and no injected task and wakes no later than every timer's deadline |
| LoopParkingRuns.TasksAreConserved | src/runtime/current_thread_executor.cpp:127-199 | in every run the tasks brought are those taken and those in the two queues |
| LoopParkingRuns.DecidesExactly | src/runtime/current_thread_executor.cpp:289-315 | the loop will not block if and only if it has a task or a due timer; otherwise it waits for exactly its earliest timer, recorded as parked and waiting |
| LoopParkingRuns.UnparkReported | src/runtime/current_thread_executor.cpp:127-152 | an enqueue must unpark if and only if the loop is recorded as parked, a timer if and only if one waits and it is earlier than every other |
| LoopParkingRuns.LoopAlone | src/runtime/current_thread_executor.cpp:289-315 | a loop left alone after its decision blocks if and only if its wait is not zero and nobody has unparked it, and otherwise is back at its tasks, recorded neither as parked nor as waiting |
| Shutdown.RunKeeps | src/runtime/runtime.cpp:195-278 | every interleaving of spawns across shards and pool, announcements, completions, closings, checks and waits keeps the shutdown invariant |
| Shutdown.QuiescenceIsFinal | src/runtime/runtime.cpp:195-249 | when the check has found every shard and then the pool empty, no live task exists in any of them and none appears later, however the run goes on |
| Shutdown.WaitIsEnded | src/runtime/runtime.cpp:212-278 | a shutdown that waits with no live task left has a completion still to be announced, and the announcement makes it check again |
| Shutdown.NoTaskEscapesCancel | src/task/blocking_pool.cpp:134-220 | a live task in a closed place has been cancelled, was collected and is about to be, or was reported closed to a spawner whose next step cancels it |
| Shutdown.SpawnKeeps | src/runtime/work_stealing_executor.cpp:163-177 | a spawn during the check leaves a spawner that is still counted ahead of the check until it has announced the task |
| ShutdownRuns.ShutdownAlone | src/runtime/runtime.cpp:195-278 | from every reachable state shutdown left alone closes every place, cancels what it collects, and declares quiescence if and only if no task is live, and waits otherwise |
| ShutdownRuns.PoolClosesLast | src/runtime/runtime.cpp:195-249 | the pool is closed only when every shard is and what was collected from them has been cancelled |
| ShutdownRuns.CancelledExactlyWhenClosed | src/task/blocking_pool.cpp:134-220 | in every run a live task is cancelled, or about to be, if and only if its place is closed |
| ShutdownRuns.LivesUntilFinished | include/coro/detail/owned_tasks.h:86-117 | a task stays live in its place until it finishes, and finished after that; a cancellation is not taken back |
| ShutdownRuns.SpawnBringsOne | src/runtime/work_stealing_executor.cpp:163-177 | a spawn adds one live task in the place asked for, and the spawner has to cancel and announce it if and only if the place is closed |
| ShutdownRuns.AnnouncementAlone | src/runtime/runtime.cpp:251-278 | a spawner or finished task left alone gets its announcement made, and a shutdown that waits checks again |
| OwnedTasks.Shard.Insert | include/coro/detail/owned_tasks.h:86-96 | the task becomes the first of the shard's chain, closed or not, and the flag is reported |
| OwnedTasks.Shard.Remove | include/coro/detail/owned_tasks.h:109-117 | exactly that task leaves the chain, or nothing changes if it was not linked; the links stay well formed |
| OwnedTasks.TaskSet.constructor | include/coro/detail/owned_tasks.h:55-58 | the shards start empty, open and distinct |
| OwnedTasks.TaskSet.Insert | include/coro/detail/owned_tasks.h:86-96 | exactly that task joins the set, in its own shard; every other shard keeps its chain; the flag of its shard is reported |
| OwnedTasks.TaskSet.Remove | include/coro/detail/owned_tasks.h:109-117 | exactly that task leaves the set if it was in it, and relinking its neighbours leaves every other shard's chain intact |
| OwnedTasks.Shard.CloseAndCollect | include/coro/detail/owned_tasks.h:125-134 | walking the links from the head returns exactly the chain, in order |
| OwnedTasks.TaskSet.CloseAndCollect | include/coro/detail/owned_tasks.h:125-134 | after it every shard is closed and the tasks returned are exactly those linked in any shard |
| OwnedTasks.TaskSet.Empty | include/coro/detail/owned_tasks.h:139-145 | true if and only if no task is linked in any shard |
| IntrusiveLists.IntrusiveList.PushBack | include/coro/detail/intrusive_list.h:117-124 | the node becomes the last of the chain |
| IntrusiveLists.IntrusiveList.PushBackBlock | include/coro/detail/intrusive_list.h:101-114 | the list becomes the concatenation and the other list empty |
| IntrusiveLists.IntrusiveList.PopBackBlock | include/coro/detail/intrusive_list.h:132-157 | the last n nodes, or all, move to the new list in order, and the rest stay |
| IntrusiveLists.IntrusiveList.WalkBack | include/coro/detail/intrusive_list.h:138-142 | the walk from the tail stops at the n-th node from the back, or at the head |
| IntrusiveLists.IntrusiveList.PopBack | include/coro/detail/intrusive_list.h:160-169 | takes the last node, or nothing from an empty list |
| IntrusiveLists.IntrusiveList.PopFront | include/coro/detail/intrusive_list.h:172-181 | takes the first node, or nothing from an empty list |
| IntrusiveLists.IntrusiveList.Remove | include/coro/detail/intrusive_list.h:191-199 | a member leaves the chain and the rest stays in order; on a non-member the list survives if and only if both links of the node are null |
| IntrusiveLists.RemoveFromWrongList | include/coro/detail/intrusive_list.h:183-199 | removing a linked node from another list leaves that list broken |
| IntrusiveLists.UnlinkChains | include/coro/detail/owned_tasks.h:169-174 | tying a node's neighbours together leaves a chain without it |
| Scheduling.ScheduledExactlyOnce | src/task/task.cpp:9-53 | over all interleavings of wakers and workers a Notified task is in exactly one place and any other in none, one thread polls a running task and none another, no abort branch is reached, and no unserved wake is left on an idle task |
| Scheduling.WakeLands | src/task/task.cpp:9-53 | a wake that returns leaves the task owed a poll, or Done |
| Scheduling.OwedUntilPolled | src/runtime/work_stealing_executor.cpp:685-757 | an owed poll stays owed until one starts; only the poll already running can end the task first |
| Scheduling.WakeIsServed | src/runtime/current_thread_executor.cpp:201-272 | in every continuation a wake landed before Done is followed by a poll that starts after it, or the task is still scheduled for one, or the poll that was running completed it |
| SchedulingRuns.HistoryDecides | src/runtime/work_stealing_executor.cpp:685-757 | over every interleaving the state is a function of how the last poll ended and of whether a wake has landed since it started: Done if and only if it returned ready, after pending Idle without a wake and Notified with one, Running or RunningAndNotified during a poll |
| SchedulingRuns.WorkerFinishes | src/runtime/current_thread_executor.cpp:201-272 | a worker that has the task and is left alone leaves it Done, Idle or back in a ready queue, as its poll answers and as wakes have landed |
| SchedulingRuns.WakeReturns | src/task/task.cpp:9-53 | a thread in wake() left alone returns, with an idle task queued, a running one flagged, and any other as it was |
| SchedulingRuns.QueuedIsTaken | src/runtime/work_stealing_executor.cpp:685-700 | a queued task is taken by a worker that looks, and then by no other |
| SchedulingRuns.AbortsExactly | src/runtime/work_stealing_executor.cpp:685-757 | the abort that ScheduledExactlyOnce excludes is reached if and only if an exchange of the poll loop meets a state it does not expect |
| BlockingPark.NoWakeMissed | src/task/blocking_pool.cpp:31-71 | a thread blocked in park with a wake pending is about to be notified, and park's plain stores and assertion never meet an unexpected state |
| BlockingParkRuns.HistoryDecides | src/task/blocking_pool.cpp:31-71 | the state is a function of where the thread is and of whether a wake has landed since park last returned |
| BlockingParkRuns.ParkReturns | src/task/blocking_pool.cpp:31-65 | a thread in park left alone returns if a wake has landed, consuming it, and otherwise blocks |
| BlockingParkRuns.UnparkReturns | src/task/blocking_pool.cpp:67-71 | a thread in unpark left alone returns, with the wake landed and a blocked thread on its way to see it |
| TimerHeap.FrontIsEarliest | include/coro/detail/timer_queue.h:149-152 | the front of a heap is not later than any entry |
| TimerHeap.PushHeap | src/detail/timer_queue.cpp:19-37 | sifting the last entry up gives a heap of the same entries |
| TimerHeap.AddToHeap | src/detail/timer_queue.cpp:19-37 | appending and sifting up gives a heap of the entries and the new one |
| TimerHeap.SiftDown | src/detail/timer_queue.cpp:149-168 | sifting one entry down restores the heap from that index on, with the same entries |
| TimerHeap.PopHeap | src/detail/timer_queue.cpp:149-168 | takes the earliest entry and leaves a heap of the others |
| TimerHeap.MakeHeap | src/detail/timer_queue.cpp:86-95 | turns any vector into a heap of the same entries |
| TimerTables.GoodInsert | src/detail/timer_queue.cpp:63-74 | taking a slot keeps heap, slots, free list and book in step, one entry per slot in use, under a fresh id |
| TimerTables.GoodLeave | src/detail/timer_queue.cpp:76-84 | freeing a slot keeps them in step and makes its old id stale |
| TimerTables.GoodCancel | src/detail/timer_queue.cpp:39-61 | marking a slot cancelled ends exactly that timer in the book |
| TimerQueues.TimerQueue.Insert | src/detail/timer_queue.cpp:19-37 | a closed queue refuses; otherwise exactly one live timer is added under an id never issued before, and the caller is told to unpark if and only if a waiter is recorded and the deadline is earlier than every entry's |
| TimerQueues.TimerQueue.Cancel | src/detail/timer_queue.cpp:39-61 | a stale id changes nothing; a live one ends just that timer; a sweep that looks at the whole heap follows exactly when it is due and leaves no cancelled entry; and then fewer than 64 cancelled entries remain or they do not outnumber the live ones |
| TimerQueues.TimerQueue.Sweep | src/detail/timer_queue.cpp:86-95 | removes exactly the cancelled entries and frees their slots; no live timer changes |
| TimerQueues.TimerQueue.BeginWait | src/detail/timer_queue.cpp:97-119 | the wait ends no later than the earliest deadline or the limit, whichever comes first, and is recorded if it is not zero |
| TimerQueues.TimerQueue.PopFront | src/detail/timer_queue.cpp:149-168 | the front entry leaves: a cancelled one without a trace, a live one fired and earlier than every timer left |
| TimerQueues.TimerQueue.FireBatch | src/detail/timer_queue.cpp:136-184 | one locked batch fires a prefix of the due live timers in (deadline, insertion) order, those and no others, at most 32 wakers, and all of the due ones unless it filled up; it changes no entry it leaves, nor the insertion counter |
| TimerQueues.TimerQueue.FireExpired | src/detail/timer_queue.cpp:136-184 | the batches together fire every due timer, once, in order, and leave none due |
| TimerQueues.TimerQueue.CloseAndWakeAll | src/detail/timer_queue.cpp:186-210 | every live timer and no other ends exactly once with its waker woken if it can be, and the queue is empty and closed, with the record of a waiter and the insertion counter as they were |
| TimerRuns.Execute | src/detail/timer_queue.cpp:19-210 | making the given calls one after the other on a new queue is a run of exactly those operations, a cancel being of the id that the given insert returned, a refused one included, and every state of it keeps the invariant |
| TimerRuns.EndedNeverFires | src/detail/timer_queue.cpp:39-210 | once a timer has fired, been cancelled or been closed, no later batch fires it |
| TimerRuns.EqualDeadlinesFireInOrder | include/coro/detail/timer_queue.h:121-152 | in every run, when a batch fires the later inserted of two timers with equal deadlines, the earlier has ended already or fires before it in that batch |
| TimerSpec.IssuedIsNot | src/detail/timer_queue.cpp:39-84 | no id that an insert has issued is one that a free slot will issue next |
| TimerSpec.ZeroIsNot | src/detail/timer_queue.cpp:19-24 | nor is the id 0 that a closed queue returns |
| TimerRuns.SweepsArePaidFor | src/detail/timer_queue.cpp:39-95 | in every run the entries the sweeps looked at are the heaps of the cancels that swept, added up, and these plus twice the cancelled entries in the heap are at most twice the effective cancels |
| TimerRuns.WaiterWakesInTime | src/detail/timer_queue.cpp:19-126 | in every run a waiter is recorded exactly while a begin_wait that had to wait is not ended, and since then an insert has reported that it must be unparked or the wait it computed ends no later than every deadline in the heap |
| TimerRuns.WaiterWakesForLive | src/detail/timer_queue.cpp:97-126 | the same in terms of the deadline of each live timer |
| IoReadiness.RunKeeps | src/runtime/io_driver.cpp:211-463 | every interleaving of arrivals, turns, polls, operations, clears, cancels and shutdown keeps the readiness invariant |
| IoReadiness.ReadinessIsNotLost | src/runtime/io_driver.cpp:416-463 | an available direction has its flag set or an event undelivered, and a waiting reader of it has an event on its way; nobody waits once the driver is shut down |
| IoReadiness.DispatchWakesWaiters | src/runtime/io_driver.cpp:232-297 | a dispatch wakes the slot's reader of each direction it reports and ends only when no listed waiter of them is linked; shutdown wakes every reader |
| IoReadiness.ClearKeeps | src/runtime/io_driver.cpp:436-463 | clearing under an unchanged tick drops readiness only when whatever arrived since the reader's EAGAIN is still undelivered |
| IoReadiness.PollKeeps | src/runtime/io_driver.cpp:491-527 | a poll for readiness, by slot or by listed waiter, keeps the invariant |
| IoReadinessRuns.HistoryDecides | src/runtime/io_driver.cpp:436-463 | over every interleaving a flag is set by each event delivered for its direction and dropped by a reader's clear if and only if no event was delivered since that reader's poll |
| IoReadinessRuns.PollAnswers | src/runtime/io_driver.cpp:415-527 | a poll refuses if and only if the driver has shut down, gives an event if and only if the flag is set or a dispatch woke the waiter, and otherwise leaves the reader waiting |
| IoReadinessRuns.OperationAnswers | src/io/lookup_host.cpp:38-58 | an operation goes through if and only if its direction is available, and otherwise its readiness is to be cleared |
| IoReadinessRuns.WokenOnlyFor | src/runtime/io_driver.cpp:232-297 | a reader is woken only while it waits, once, for an event of its direction or by shutdown |
| IoReadinessRuns.TurnDelivers | src/runtime/io_driver.cpp:73-122 | from every reachable state a turn left alone flags every direction with an edge and wakes every reader that waits for one |
| IoReadinessRuns.ShutDownWakesAll | src/runtime/io_driver.cpp:128-210 | shutdown wakes every reader that waits and leaves none waiting |
| IoLifetime.RunKeeps | src/runtime/io_driver.cpp:73-379 | every interleaving of adds, deregistrations, turns and shutdown keeps the ownership of registrations disjoint: owned, in a deregistration, pending, being released, freed |
| IoLifetime.NothingFreedIsTouched | src/runtime/io_driver.cpp:73-379 | no event of a fetched batch names a freed registration, shutdown's walk meets none, and no step touches one or frees it twice |
| IoLifetimeRuns.NothingLeaks | src/runtime/io_driver.cpp:73-379 | in every run each registration made is owned, in a thread's hands, waiting for release, being released or freed |
| IoLifetimeRuns.ListIsLocked | src/runtime/io_driver.cpp:128-379 | in every run at most one thread, or shutdown's walk, holds the mutex of the registrations' list |
| IoLifetimeRuns.FaultsAreSeen | src/runtime/io_driver.cpp:73-379 | the fault that NothingFreedIsTouched excludes is recorded if and only if an action touches a freed registration |
| IoLifetimeRuns.ThreadFinishes | src/runtime/io_driver.cpp:299-379 | an add or a deregistration left alone with the mutex free for it is completed: linked and owned, or unlinked and waiting for release |
| IoLifetimeRuns.TurnFrees | src/runtime/io_driver.cpp:73-122 | a turn frees exactly what waits for release before it polls, and dispatches exactly the batch it fetched, to its end |
| IoLifetimeRuns.ShutdownWalks | src/runtime/io_driver.cpp:128-210 | shutdown closes the driver and visits exactly the linked registrations, each once, before it ends |
| CoroScopes.Children.Interfere | include/coro/detail/task_state.h:131-139 | termination sets the flag and takes the waker in one section and fires it later, in any order among children |
| CoroScopes.Scope.Sweep | include/coro/detail/coro_scope.h:121-127 | only terminated children are dropped, and those kept were not terminated when looked at |
| CoroScopes.Scope.SetDrainWaker | include/coro/detail/coro_scope.h:119-133 | false means every child has terminated; true means each child that remains was running when the call began and holds the waker, or has finished since and taken it to fire; one that had finished is not given it |
| CoroScopes.Coro.Poll | include/coro/coro.h:185-290 | Ready, Error and Dropped are reported only with every registered child terminated and match how the body ended; the awaited future is polled once, the body resumed if and only if it is ready, and otherwise nothing changes; pending after the body is over means some child remains, each one running when the poll began and holding the waker or having taken it to fire since; a result not reported is kept |
| CoroScopes.Coro.PollCancelled | include/coro/coro.h:192-226 | the frame is destroyed if and only if no cancellable future is awaited or it has drained, and Dropped reported only when the children registered by that too have terminated; it is pending only on that future or on children that were running when it began |
| CoroScopes.Coro.Deliver | include/coro/coro.h:232-244 | a finished body's result is delivered, once, only when all children have terminated; until then it is kept, and each child that remains was running when the call began and will fire the waker |
| TaskBudget.DoAllPays | include/coro/detail/context.h:53-73 | over any nesting of awaits each first poll and each charged item takes one unit, refusals happen only with the budget spent and each wakes the task; an unlimited budget refuses nothing |
| TaskBudget.OnePollIsBounded | include/coro/detail/future_awaitable.h:73-153 | one task poll makes at most `budget` first polls, and if one was refused the budget is spent and the task has woken itself |
| TaskBudget.AllAreServed | include/coro/detail/future_awaitable.h:73-153 | with budget to spare, or none set, every future is polled and every item charged at one unit each, and the task wakes itself only where it asks to |
| TaskBudget.NoneAreServed | include/coro/detail/context.h:53-73 | with the budget spent nothing is polled for the first time or charged, each first poll that comes up is refused, and the task has yielded if and only if something was held back or asked to |
| TaskBudget.FutureAwaitable.AwaitReady | include/coro/detail/future_awaitable.h:73-86 | charges and polls, or with no budget wakes the task and defers the future unpolled |
| TaskBudget.FutureAwaitable.Poll | include/coro/detail/future_awaitable.h:138-153 | a deferred future pays for its first poll or stays deferred; one polled before is polled for free |
| TaskBudget.Context.TryConsumeBudget | include/coro/detail/context.h:46-57 | takes one unit unless the budget is unlimited or spent, and says which |
| TaskBudget.Context.YieldIfBudgetSpent | include/coro/detail/context.h:59-73 | tells a branch to stop exactly when the budget is spent, and then the task is sure to have yielded |
| RefCounts.ControlBlock.ReleaseStrong | include/coro/detail/rc.h:68-76 | the last strong handle starts the destructor once, on the handles that are left; the block is to be freed if and only if no handle is left after it has returned |
| RefCounts.ControlBlock.ReleaseWeak | include/coro/detail/rc.h:79-83 | the block is to be freed only with no reference left and no destructor running in it |
| RefCounts.ControlBlock.LockWeak | include/coro/detail/rc.h:284-292 | gives a strong reference exactly while the value is alive |
| RefCounts.HandleLives | include/coro/detail/rc.h:202-292 | through any sequence of uses, nested destructor uses included, a handle lives until it is dropped and never again; with no strong handle left none is made, and with none at all nothing is |
| RefCounts.UsesWork | include/coro/detail/rc.h:213-292 | a copy of a live handle, a downgrade of a strong one, and a lock of a weak one if and only if a strong one lives, make a live handle of the right kind, and dropping it undoes that |
| RefCounts.DestructorRuns | include/coro/detail/rc.h:68-76 | the destructor's uses happen when the last strong handle goes and at no other drop |
| RefCounts.ControlBlock.DestroyValue | include/coro/detail/rc.h:45-76 | through the destructor's own uses of weak handles the counts stay the numbers of handles alive, and nothing is freed |
| RefCounts.ControlBlock.UseOne | include/coro/detail/rc.h:202-292 | after each copy, downgrade, drop or lock, also one made inside the destructor, the counts are the numbers of strong and weak handles alive, the value destroyed once and the block freed once when they should be |
| RefCounts.Lifetime | include/coro/detail/rc.h:45-93 | after any sequence of uses of named handles, nested destructor uses included, the counts are the numbers of handles alive; the value has been destroyed once if no strong one is, the block freed once if none is, and neither otherwise |

## Left out

- C++ memory orderings and cache-line layout: the models interleave sequentially consistent steps.
- Liveness under fair scheduling: lost wake-ups are excluded as safety properties and threads are proved to finish when left alone, but not that they finish while others go on.
- The kernel and the poller: an arrival leaves an edge until fetched, and a write leaves the unpark signal set until the turn's holder resets it. Windows re-arming is not modelled.
- Level-triggered registrations, whose waker runs inline.
- The stop flag and the joining of executor and pool threads; the parking theorems are about a running executor.
- RingCode.CodeIsSafe: assumes that every step fits its words. `RingPrompt.PromptFits` gives that when no thief lets more than 2^25 - 3 steps of all the workers pass between its load of the head and its claim; for a slower one `RingWords.FitsWords` is the exact condition.
- SearchHandOver.SearchersTakeOver: the chain also ends when a notification finds no worker idle, or when the last searcher finds a task in its other checks; the source documents that a task in a busy worker's own ring may then have to wait for that worker.
- TimerHeap.PushHeap: like SiftDown and MakeHeap, swaps within sequence values; that the standard library's heap algorithms work in place on the vector is not captured.
- Shutdown.QuiescenceIsFinal: assumes, as the source does, that once shutdown has started only live tasks spawn.
- TimerQueues.TimerQueue.Cancel: an id must not be the one a free slot will issue next; every id an insert has returned qualifies (`TimerSpec.IssuedIsNot`, `TimerSpec.ZeroIsNot`). Generations do not wrap.
- TimerQueues.TimerQueue.FireExpired: one clock reading and no other call between the batches; each batch by itself is FireBatch, and `TimerRuns` interleaves them with anything.
- IoReadiness.ReadinessIsNotLost: the tick does not wrap, and of several readers sharing a direction's slot only the last to store its waker is waiting.
- CoroScopes.Coro.Poll: children that coroutine parameters register when a finished frame is destroyed are not covered, since the source destroys that frame outside the scope guard; other threads store no waker for a child of the scope.
- CoroScopes.Coro.Resume: the body, the awaited futures and destructors are arbitrary choices.
- TaskBudget: which results futures return, and the carrying over of a budget to the LIFO slot.
- Exceptions from allocation failure, tracing and debug assertions other than those of the ring.
- Fibers, streams, channels, `join`, `select`, `JoinHandle`, `JoinSet`, blocking-pool thread counts, WebSocket, MQTT, TCP, UDP, pipes, files, DNS.
- The work-sharing executor, the mutex-based deque, ring buffer, frame pool, defer and socket address: simpler than what is here.
