# CppRtos: a verified model of the scheduler, its blocking primitives and its timers

The project models the core of a small real-time kernel: the scheduler over ready bitmaps, a sleep
bitmap and a tick; mutex, semaphore and event group with their wait queues; the message queue; the
ring buffer under all of them; and counters, alarms and timers.

It has three layers.

* **Classes** (`Fifo.dfy`, `Tasks.dfy`, `Kernel.dfy`, `WaitQueues.dfy`, `Mutex.dfy`, `Semaphore.dfy`,
  `EventGroup.dfy`, `MessageQueue.dfy`, `Counter.dfy`, `Alarm.dfy`, `Timer.dfy`) update arrays, machine
  words and fields the way the program does. Each method is proved to do to its fields exactly what a
  function on values says.
* **Values** (`Words.dfy`, `Scheduling.dfy`, `Blocking.dfy`, `Places.dfy`, `Clock.dfy`) hold these
  functions and the invariants.
* **Runs** (`Systems.dfy` and the files of proofs about it): a step relation over one kernel and any
  number of tasks, mutexes, semaphores and event groups. Every critical section, tick and selection is
  one atomic step built from the same functions. A task that has signalled or flushed a semaphore
  readies itself outside any critical section, so there each single access to the kernel is a step of
  its own, and anything may fall in between. `MessageQueue.dfy` has a step relation of its own, with the
  unlocked tests and the locked commits as separate steps, and the timing files prove schedules over any
  number of ticks.

The schedules of alarms and timers are about the functions that one call of the class methods is
proved to compute, applied tick after tick.

The code of a task takes steps while its task is current and no context switch is pending, whatever the
state field of the task says: a caller that blocks while nobody else is ready goes on executing. The idle
task's code is an empty loop and takes no step. Tasks are registered before the first of them runs or by
task code, with a priority from 0 to 15 they keep, apart from what a mutex lends them.

Results about locks, tokens, event flags, priorities and the idle task hold in every run
(`BaseProofs.dfy`, `Marks.dfy`, and most of `Theorems.dfy` and `WaitTheorems.dfy`). Results about where
tasks are hold in *orderly* runs (`OrderlyProofs.dfy`), and `Windows.dfy` proves that these are exactly
the runs in which every task is in one place and nobody executes who does not run. `MutexWaits.dfy` and
`Sleepers.dfy` say for all runs exactly when the wake-up of a mutex is lost and what ends a sleep, and
derive what holds in orderly ones. `Breakdowns.dfy`, `StaleWords.dfy` and `Stalls.dfy` exhibit runs in
which things go wrong.

What each operation does is also said apart from the functions that define it: bit by bit for the kernel
(`KernelEffects.dfy`), and by results, queue order, flags and switch requests for the calls
(`CallResults.dfy`, `WaitTheorems.dfy`, `MessageEnds.dfy`), in every run.

## What the code turns out to do

* `signal` and `flush` call `setTaskReady` for the caller after leaving the critical section
  (`Source/Semaphore.cpp:79-88`, `104-111`). A context switch between the write of the state and the
  write of the ready bit loses the caller for good (`Breakdowns.SignallerIsLost`, `Windows.LostForever`);
  an interrupt that wakes a task of the same priority between load and store of the ready word loses
  that task for good (`Windows.StoreLoses`, `StaleWords.WokenTaskIsLost`); a word stored late can also set
  the bit of a task that sleeps by then (`StaleWords.SleeperIsSelected`); and a selection before the
  bitmap is stored can leave an empty level marked (`Breakdowns.MarkedButEmpty`).
  `Windows.OnePlaceExactly`, `Marks.WordUnchangedExactly` and `Marks.MarkFailsExactly` say exactly when.
* Selection never looks at the idle level. A call that sleeps or blocks while no other task is ready may
  therefore find nobody to switch to, and its caller goes on executing: out of a semaphore wait and, if it
  calls wait again, into the queue again (`Stalls.WaiterQueuesAgain`), round its acquire loop, queueing up
  again each time (`Stalls.BlockedCallerQueuesTwice`), or out of an event wait, still blocked and in no
  queue (`Breakdowns.EventWaitReturnsBlocked`). This cannot happen before the next selection if and only
  if somebody is ready when the call is made (`Windows.StopsSafelyExactly`).
* A caller that queues up again and again fills the queue, and the next task that waits is dropped: it
  blocks without being queued anywhere, for good (`Stalls.WaiterIsDropped`).
* `release` wakes the first entry of the queue and hands nothing over. When that entry belongs to a task
  queued twice, the wake-up can go to a task that does not try again: the mutex is free, a task waits for
  it without limit, and nobody is left to take it (`Stalls.MutexIsForgotten`). In all runs this never
  happens if and only if every release that leaves waiters behind also leaves a task inside the acquire
  loop that is not one of them (`MutexWaits.NoLostWakeupExactly`); in orderly runs it never happens.
* A successful `acquire` enters a critical section twice and leaves it once (`Source/Mutex.cpp:47-54`). On
  ports that count the nesting (`Ports/GCC/ARMCM7/Port.cpp:92-111`) the counter never returns to zero, so
  interrupts and with them all switches stay off from then on. Runs take critical sections as balanced, as they are on
  a port where they are empty (`Test/UnitTests/Port.hpp:85-92`); `Stalls.BlockedCallerQueuesTwice` and
  `Stalls.MutexIsForgotten`, in which a task sleeps or is switched while it owns a mutex, are runs of such
  a port. The other concrete runs take no mutex.
* The kernel's idle task is current from the start and executes up to the first selection that finds a
  task ready below idle, and never after it (`Theorems.IdleUntilFirstSwitch`), although the comment in
  `Include/IdleTask.hpp:13-19` says it runs whenever nothing else is ready.
* Every selection runs the best *other* ready task, so with two or more runnable tasks the two best
  alternate and a third never runs, not even one boosted to the best priority while it was ready
  (`SchedulingProofs.TwoBestStarveTheRest`).
* A priority boost is permanent: `setPriority` overwrites the base priority as well, so `resetPriority`
  has nothing to restore (`Blocking.ResetPriorityIsNoOp`).
* `isAnyTaskBlocking` reads the first slots of the buffer rather than the waiters; the slots it reads
  are never null, and its answer changes nothing.
* A sender that had to wait and then succeeds keeps the inner mutex of the message queue for good; no
  sender ever gets into the waiting loop after that (`MessageQueues.KeptForever`), and its own next
  send that finds the queue full returns Timeout at once (`MessageQueues.TimeoutAtOnce`).
* With two senders a message can be lost although both are told Success
  (`MessageQueues.TwoSendersLose`); a loss can follow from a state if and only if the senders past their
  test outnumber the free slots (`MessageQueues.LossFollowsExactly`).
* `SetCounterValue` admits the maximum itself, a value the counter never reaches by counting. From
  there the first increment is not counted, so elapsed values are exact if and only if the count did not
  start at a maximum above 1 (`Counters.ElapsedExactly`).
* A timer with period 0 runs for the whole 32-bit range, because its countdown wraps. Setting the period
  of a running timer restarts its countdown (`Timers.SetPeriodRestarts`).

## Model

| member | source | states |
|---|---|---|
| `Fifos.Fifo.constructor` | Include/Fifo.hpp:29-31 | a new buffer is empty and starts at slot 0 |
| `Fifos.Fifo.Enqueue` | Include/Fifo.hpp:41-49 | the item is appended, or silently dropped exactly when the buffer is full |
| `Fifos.Fifo.Dequeue` | Include/Fifo.hpp:58-68 | the front element leaves and the rest keeps its order; an empty buffer answers with the default element |
| `Fifos.Fifo.GetAt` | Include/Fifo.hpp:78-85 | reads a physical slot, whether live or not, and the default beyond the last one |
| `Fifos.Fifo.CloseGap` | Include/Fifo.hpp:96-100 | the shift loop moves every later element one slot forward at any wrap position and ends |
| `Fifos.Fifo.RemoveAt` | Include/Fifo.hpp:94-103 | removing any live slot, also in a wrapped or full buffer, deletes exactly that element, keeps the order of the others and restores the tail |
| `Fifos.ShiftDone` | Include/Fifo.hpp:96-102 | after the shifts the window, one shorter, is the old queue without the removed element |
| `Fifos.Prev` | Include/Fifo.hpp:96-101 | the slot before slot i, wrapping from 0 to the last |
| `Fifos.Next` | Include/Fifo.hpp:41-49 | the slot after slot i, wrapping from the last to 0 |
| `Fifos.Fifo.IsEmpty` | Include/Fifo.hpp:110-113 | true exactly when no element is queued |
| `Fifos.Fifo.IsFull` | Include/Fifo.hpp:120-123 | true exactly when every slot is live |
| `Tasks.TaskData.SetPriority` | Include/Task.hpp:192-204 | the base priority is overwritten too; a value below idle is clamped in the priority only |
| `Tasks.TaskData.ResetPriority` | Include/Task.hpp:111-114 | the priority becomes the base priority |
| `Kernels.Kernel.constructor` | Source/Kernel.cpp:6-17 | the idle task is registered as task 0 and is current, and nothing else is ready, asleep or marked |
| `Kernels.Kernel.AddTask` | Source/Kernel.cpp:19-50 | the task gets the next id and a ready bit at its priority, the highest priority is updated, the level bitmap is not, and a full table changes nothing |
| `Kernels.Kernel.SetTaskReady` | Source/Kernel.cpp:86-99 | the task's bit at its priority and the mark of that level are set, all other bits and tasks are as before |
| `Kernels.Kernel.ResetTaskReady` | Source/Kernel.cpp:101-121 | only a task in the ready state loses its bit, and a level that becomes empty loses its mark |
| `Kernels.Kernel.AddSleepingTask` | Source/Kernel.cpp:222-229 | the sleep bit is set with wake-up time now + ticks |
| `Kernels.Kernel.FirstBit` | Source/Kernel.cpp:238-266 | shifting a level's word finds its least set bit, or that the level is empty |
| `Kernels.Kernel.PreemptCurrent` | Source/Kernel.cpp:245-249 | a current task that is still running goes back to the ready tasks |
| `Kernels.Kernel.DispatchTask` | Source/Kernel.cpp:251-261 | the picked task runs, is current and has no ready bit at the level it was found at |
| `Kernels.Kernel.SelectHighestPriorityTask` | Source/Kernel.cpp:231-270 | the nested scan from the highest registered priority does what selection specifies: it switches to the least (level, id) of all ready bits below idle, or changes nothing when there is none; the table entry it uses is never null |
| `Kernels.Kernel.WakeIfDue` | Source/Kernel.cpp:276-284 | one round of the wake-up loop wakes the task if it sleeps and its time has come |
| `Kernels.Kernel.Tick` | Source/Kernel.cpp:272-284 | the whole loop wakes exactly the sleeping tasks whose time has come |
| `Kernels.Kernel.IncrementTickCount` | Ports/GCC/ARMCM7/Port.cpp:138-147 | the port counts the tick before the kernel looks at it |
| `Words.OrAndBits` | Source/EventGroup.cpp:20-24 | bitwise or and and of 32- and 64-bit words are union and intersection of bit sets, and the latter is 0 exactly when no bit is shared |
| `Words.AndNotBits` | Source/EventGroup.cpp:115-120 | `a & ~b` removes exactly the bits of b |
| `Words.SetBit` | Source/Kernel.cpp:95-96 | or-ing a shifted one sets that bit only |
| `Words.ClearBit` | Source/Kernel.cpp:112-115 | and-ing the complement of a shifted one clears that bit only |
| `Words.TestBit` | Source/Kernel.cpp:278 | the masked word is non-zero exactly when the bit is set |
| `Words.ScanBit` | Source/Kernel.cpp:238-266 | the scan sees every bit: the lowest bit of the shifted word is the next bit of the word |
| `SchedulingProofs.BootKeeps` | Source/Kernel.cpp:6-17 | the kernel invariant holds at first |
| `SchedulingProofs.SetReadyKeeps` | Source/Kernel.cpp:86-99 | making a blocked or running task ready keeps the invariant |
| `SchedulingProofs.BlockKeeps` | Source/Kernel.cpp:101-121 | blocking the running task keeps the invariant and touches no bit |
| `SchedulingProofs.SleepKeeps` | Source/Kernel.cpp:222-229 | falling asleep keeps the invariant |
| `SchedulingProofs.BoostKeeps` | Source/Mutex.cpp:65-68 | a boost keeps the invariant: a ready bit may lie below the new priority, never above it |
| `SchedulingProofs.AddTaskKeeps` | Source/Kernel.cpp:19-50 | registering keeps the invariant |
| `SchedulingProofs.TickKeeps` | Source/Kernel.cpp:272-284 | a tick keeps the invariant |
| `SchedulingProofs.WakeLoopIsTick` | Source/Kernel.cpp:276-284 | waking task by task in id order is waking all due tasks at once |
| `SchedulingProofs.BestUnique` | Source/Kernel.cpp:236-266 | there is at most one least ready pair, so selection is deterministic |
| `SchedulingProofs.SelectPicks` | Source/Kernel.cpp:236-263 | with any ready bit below idle, selection runs the least pair |
| `SchedulingProofs.SelectStalls` | Source/Kernel.cpp:236-269 | with levels 0 to 14 empty selection changes nothing |
| `SchedulingProofs.SelectKeeps` | Source/Kernel.cpp:245-263 | selection keeps the invariant, and the ready tasks plus the running one are the same set before and after |
| `SchedulingProofs.LevelsAfterSwitch` | Source/Kernel.cpp:245-263 | a switch changes the level of no other runnable task and can only improve that of the task it runs |
| `SchedulingProofs.SelectOther` | Source/Kernel.cpp:236-263 | one selection runs the one of the two best candidates, by level and id, that is not running |
| `SchedulingProofs.Alternates` | Source/Kernel.cpp:236-263 | any number of selections alternates strictly between the two best, from the first on |
| `SchedulingProofs.TwoBestStarveTheRest` | Source/Kernel.cpp:236-263 | two such tasks exist whenever two are runnable below idle, and no third one is ever run, boosted or not |
| `KernelEffects.ReadyEffect` | Source/Kernel.cpp:86-99 | waking a task changes its state, sets its bit at its priority and that level's mark, and nothing else |
| `KernelEffects.ResetEffect` | Source/Kernel.cpp:101-121 | a ready task loses the bit at its priority, and the level its mark if nobody else is ready there; a task in any other state loses nothing |
| `KernelEffects.ResetTakesAway` | Source/Kernel.cpp:106-118 | a ready task with its bit at its priority has none afterwards, all others keep theirs, and the level stays marked exactly if it was and is still non-empty |
| `KernelEffects.ResetMissesBoosted` | Source/Kernel.cpp:106-118 | a task boosted since it became ready keeps the bit it has, although it is not ready any more |
| `KernelEffects.AddEffect` | Source/Kernel.cpp:19-50 | the record goes under the next id with a bit at its priority and no mark, and the highest priority is the higher of the two |
| `KernelEffects.SelectEffect` | Source/Kernel.cpp:231-270 | after a switch exactly the previous runner's bit is added and the picked one taken, and a level is marked exactly if it was, or the runner's is, and the picked one's only while not empty |
| `KernelEffects.TickEffect` | Source/Kernel.cpp:272-284 | a tick makes exactly the sleepers whose time has come ready, with their bits and the marks of their levels |
| `KernelEffects.SleepEffect` | Source/Kernel.cpp:222-229 | falling asleep changes the state, the sleep bit and the time of one task |
| `WaitQueues.Join` | Include/Fifo.hpp:41-49 | enqueueing a task pointer appends its id to the wait queue |
| `WaitQueues.WakeFirst` | Source/Mutex.cpp:113-116 | the first waiter leaves the queue and is made ready |
| `WaitQueues.WakeAll` | Source/Semaphore.cpp:98-103 | the drain loop makes every waiter ready in arrival order and empties the queue |
| `WaitQueues.WakeMatching` | Source/EventGroup.cpp:96-109 | the filtering loop wakes, in order, exactly the waiters whose flags share one with the new flags and leaves the others queued in order |
| `WaitQueues.RaisePriority` | Source/Mutex.cpp:65-68 | a raised priority keeps the kernel's fields consistent |
| `WaitQueues.RestorePriority` | Include/Task.hpp:111-114 | resetting a priority never changes it |
| `Blocking.ResetPriorityIsNoOp` | Include/Task.hpp:192-204 | base and priority are equal in every reachable state, so a reset undoes no boost |
| `Blocking.MatchingOrDisjoint` | Source/EventGroup.cpp:96-109 | each waiter is on exactly one side of the partition, decided by its own flags |
| `Blocking.OthersKept` | Source/EventGroup.cpp:99-104 | waking some waiters changes no other task |
| `Mutexes.Mutex.OwnerIsCurrent` | Source/Mutex.cpp:34-38 | comparing the owner pointer with the current task compares task ids, and the owner is null exactly when the count is 0 |
| `Mutexes.Mutex.Lend` | Source/Mutex.cpp:65-68 | the owner's priority becomes the higher of its own and the caller's |
| `Mutexes.Mutex.TryOnce` | Source/Mutex.cpp:47-81 | one pass takes a free mutex, or times out on a held one after the deadline, or boosts the owner and queues the caller |
| `Mutexes.Mutex.Acquire` | Source/Mutex.cpp:26-88 | the owner is told AlreadyOwned, also in an interrupt; otherwise an interrupt gets its error and a task makes its first pass with deadline now + timeout |
| `Mutexes.Mutex.IsAnyTaskBlocking` | Source/Mutex.cpp:135-147 | true exactly when one of the first slots holds a task of that priority; no slot it reads is null |
| `Mutexes.Mutex.PassOn` | Source/Mutex.cpp:113-124 | the first waiter, if any, is made ready without getting the mutex, and no priority changes |
| `Mutexes.Mutex.Release` | Source/Mutex.cpp:90-133 | NotOwner exactly outside an interrupt with another task as owner, the interrupt error exactly in one with any owner, Success otherwise; only the owner's release changes anything, and it wakes the first waiter |
| `Semaphores.Semaphore.constructor` | Source/Semaphore.cpp:6-12 | the counts are the given ones and nobody waits |
| `Semaphores.Semaphore.WaitSection` | Source/Semaphore.cpp:24-50 | a token is taken exactly if there is one, the caller gives up exactly if there is none and the timeout is zero or its deadline has passed, and otherwise it is blocked and queued |
| `Semaphores.Semaphore.Wait` | Source/Semaphore.cpp:14-60 | outside an interrupt Timeout exactly when there is no token and the timeout is zero, and Success exactly when a token was there or the caller blocked |
| `Semaphores.Semaphore.SignalSection` | Source/Semaphore.cpp:67-79 | the first waiter gets the signal, or else it is counted up to the maximum |
| `Semaphores.Semaphore.Signal` | Source/Semaphore.cpp:63-90 | outside an interrupt the signalling task is also made ready |
| `Semaphores.Semaphore.FlushSection` | Source/Semaphore.cpp:96-104 | every waiter is woken in arrival order and the queue is empty |
| `Semaphores.Semaphore.Flush` | Source/Semaphore.cpp:92-113 | the flushing task is made ready too if anybody was woken outside an interrupt; the count stays |
| `EventGroups.EventGroup.WaitSection` | Source/EventGroup.cpp:17-46 | true with a flag set, false with timeout zero, otherwise the caller is blocked, its flags stored and the caller queued |
| `EventGroups.EventGroup.LeaveQueue` | Source/EventGroup.cpp:58-65 | the search-and-remove loop takes exactly the caller's entry out, wherever it is |
| `EventGroups.EventGroup.Recheck` | Source/EventGroup.cpp:51-86 | one pass of the wait loop ends with true on a set flag, with false at the deadline, and otherwise goes on |
| `EventGroups.RemovedIs` | Source/EventGroup.cpp:58-65 | removing at the first slot that holds the caller removes its first entry |
| `EventGroups.EventGroup.SetEvents` | Source/EventGroup.cpp:89-113 | the flags are or-ed in and the waiters partitioned stably into woken and still queued |
| `EventGroups.EventGroup.ClearEvents` | Source/EventGroup.cpp:115-120 | exactly the given flags are cleared, bit by bit |
| `Places.OnePlace` | Source/Kernel.cpp:86-121 | state field and place agree, and every task is in one of the four places |
| `Places.BlockPlace` | Source/Kernel.cpp:101-121 | a running task that joins a queue is in that queue only |
| `Places.WakePlace` | Source/EventGroup.cpp:99-104 | a task woken out of any queue position is ready and in no queue |
| `Places.QueuesDistinct` | Include/Fifo.hpp:41-49 | no wait queue holds a task twice, whoever is running |
| `Places.RoomToBlock` | Include/Fifo.hpp:41-49 | whenever a running task blocks, no queue holds it and there is room in each |
| `BaseProofs.BaseStep` | Source/Kernel.cpp:86-121 | every step of any run keeps ranges, lock cores, quiet semaphores and groups, and waiters queued once in their group |
| `BaseProofs.BaseInRun` | Source/Kernel.cpp:86-121 | these hold in every state of every run |
| `BaseProofs.RecheckBase` | Source/EventGroup.cpp:49-86 | a pass of the event wait loop keeps them, and a caller that returns is in the queue of no group, even if it was still queued |
| `SystemProofs.AcquirePassStep` | Source/Mutex.cpp:47-85 | a pass of an acquire loop by a running task keeps the invariant of orderly runs |
| `SystemProofs.ReleaseStep` | Source/Mutex.cpp:90-133 | a release keeps it, whether or not a waiter is woken |
| `SystemProofs.WaitSemStep` | Source/Semaphore.cpp:14-60 | a semaphore wait keeps it |
| `SystemProofs.SignalStep` | Source/Semaphore.cpp:67-79 | the critical section of a signal keeps it |
| `SystemProofs.FlushStep` | Source/Semaphore.cpp:96-104 | the critical section of a flush keeps it |
| `SystemProofs.WaitEventsStep` | Source/EventGroup.cpp:17-46 | the start of an event wait keeps it |
| `SystemProofs.RecheckStep` | Source/EventGroup.cpp:51-86 | a pass of the event wait loop by a running task keeps it |
| `SystemProofs.RaiseStep` | Source/EventGroup.cpp:89-113 | setting events keeps it |
| `SystemProofs.LowerStep` | Source/EventGroup.cpp:115-120 | clearing events keeps it |
| `OrderlyProofs.StateWriteSound` | Source/Kernel.cpp:90 | a running task that writes its own state keeps what holds in orderly runs, seen as still running |
| `OrderlyProofs.WordStoreSound` | Source/Kernel.cpp:91-95 | storing the ready word that was loaded keeps it: the task is now ready |
| `OrderlyProofs.MapStoreSound` | Source/Kernel.cpp:96 | so does storing the bitmap of levels, whether the task was switched in between or not |
| `OrderlyProofs.SelectSound` | Source/Kernel.cpp:231-270 | so does a selection outside the window of a task readying itself, unless it finds nobody for a task that has stopped |
| `OrderlyProofs.SoundStep` | Source/Kernel.cpp:86-121 | so does every orderly step |
| `OrderlyProofs.SoundInRun` | Source/Kernel.cpp:86-121 | it holds in every state of every orderly run |
| `Windows.SwitchLoses` | Source/Semaphore.cpp:81-88 | a selection that finds somebody before the bit of the current task is written leaves that task in none of the four places |
| `Windows.StoreLoses` | Source/Kernel.cpp:95 | storing a ready word that has changed since it was loaded leaves a task that was ready in none of the four places, with no word about to be stored that has its bit |
| `Windows.StallGoesOn` | Source/Kernel.cpp:236-269 | a selection that finds nobody lets a task that has stopped running execute on |
| `Windows.OnePlaceExactly` | Source/Kernel.cpp:86-121 | in all states of a run every task is in exactly one place and nobody executes who does not run, if and only if none of these three ever happens |
| `Windows.LostForever` | Source/Semaphore.cpp:81-88 | a task lost like that is in none of the four places ever after and is never current again |
| `Windows.StopsSafelyExactly` | Source/Kernel.cpp:236-269 | a call that sleeps or blocks cannot be followed, up to the next selection, by its caller executing on, if and only if somebody is ready below idle when it is made |
| `Windows.PrudentRunSound` | Source/Kernel.cpp:236-269 | a run is orderly if every such call is made while somebody is ready and the windows of tasks readying themselves are not hit |
| `Windows.OnePlaceWhenPrompt` | Source/Kernel.cpp:236-269 | when each such call is followed at once by its switch, every task is in one place in all states if and only if every such call is made while somebody is ready and no window is hit |
| `Marks.MarksStep` | Source/Kernel.cpp:86-121 | every step keeps marked levels non-empty, except a store of the bitmap by a task readying itself that marks an empty one |
| `Marks.MarksExactly` | Source/Kernel.cpp:86-121 | in all states of any run a marked level is never empty, if and only if no such store happens |
| `Marks.MarkFailsExactly` | Source/Kernel.cpp:95-96 | such a store marks an empty level if and only if a selection since the store of the ready word took the last bit of its level, or one since the load of the bitmap the last bit of a level marked there |
| `Marks.WordUnchangedExactly` | Source/Kernel.cpp:95 | the ready word stored is the one loaded if and only if no interrupt readied a task of that level in between |
| `Breakdowns.SignallerIsLost` | Source/Semaphore.cpp:63-90 | from any orderly state with another task ready: signal, write of the state, tick and selection lose the signaller |
| `Breakdowns.SomeSignallerIsLost` | Source/Semaphore.cpp:63-90 | a run from the start does so |
| `Breakdowns.MarkedButEmpty` | Source/Semaphore.cpp:79-88 | a run marks an empty level although every task is in its place |
| `Breakdowns.EventWaitReturnsBlocked` | Source/EventGroup.cpp:67-86 | a run in which an event wait returns at its deadline with its caller blocked and in no queue |
| `Breakdowns.StallNeedNotFollow` | Source/Kernel.cpp:236-269 | a run in which a task falls asleep with nobody ready and everything stays in place, because a tick readies somebody before the selection |
| `StaleWords.WokenTaskIsLost` | Source/Semaphore.cpp:63-90 | a run from the start in which an interrupt wakes a task between another one's load and store of the ready word they share, and the store loses it |
| `StaleWords.SleeperIsSelected` | Source/Kernel.cpp:86-99 | a run in which a stored word sets the ready bit of a task that fell asleep since the load, and a selection runs it before its time |
| `Stalls.WaiterQueuesAgain` | Source/Semaphore.cpp:40-60 | for every n up to the capacity a run in which one task, waiting while nobody else is ready, has n entries in the queue of a semaphore |
| `Stalls.WaiterIsDropped` | Include/Fifo.hpp:41-49 | a run in which a running task waits on a semaphore whose queue is full: it blocks, is in no queue, and is lost when the task in the queue is woken |
| `Stalls.BlockedCallerQueuesTwice` | Source/Mutex.cpp:45-85 | a run in which a task blocked on a mutex, with nobody else ready, queues up twice |
| `Stalls.MutexIsForgotten` | Source/Mutex.cpp:90-133 | a run that ends with a mutex free, a task waiting for it without limit, the other one running outside all calls, and nobody inside the acquire loop to take it |
| `Theorems.OnePlaceInRun` | Source/Kernel.cpp:86-121 | in every state of an orderly run each task is exactly one of running and current without a ready bit, ready with one bit at or below its priority, asleep, or blocked with one entry in one queue |
| `Theorems.ReadySelfUninterrupted` | Source/Kernel.cpp:86-99 | without anything in between, the accesses of a task readying itself make it ready like any wake-up |
| `Theorems.UnmarkedLevel` | Source/Kernel.cpp:46 | a non-empty level may be unmarked: registering a task does not mark it |
| `MutexWaits.PassedOnStep` | Source/Mutex.cpp:90-133 | only a release can leave a free mutex with waiters and nobody else inside its acquire loop, and does so if and only if it leaves waiters and nobody else inside the loop |
| `MutexWaits.NoLostWakeupExactly` | Source/Mutex.cpp:45-133 | in all runs: while a mutex is free and has waiters, some task that is not one of them is inside its acquire loop, in every state, if and only if every release by its owner that leaves waiters leaves such a task |
| `MutexWaits.NoLostWakeupInRun` | Source/Mutex.cpp:45-133 | in an orderly run, while a mutex is free and has waiters, such a task exists and is ready or running |
| `Theorems.NeverDropped` | Include/Fifo.hpp:41-49 | in an orderly run whoever makes a call is in no queue, and no blocking call meets a full one |
| `Theorems.DropNeedsTwice` | Include/Fifo.hpp:41-49 | in all runs a queue drops an entry only if it holds some task twice or the current task already |
| `Theorems.PriorityKeptInRun` | Include/Task.hpp:192-204 | no step of any run lowers a priority, or raises that of a task owning no mutex |
| `Theorems.MutualExclusion` | Source/Mutex.cpp:26-133 | over any run takings and releases of a mutex alternate, each pair by the same task, and the owner is the one whose taking is open |
| `Theorems.CountIsOwner` | Source/Mutex.cpp:49-53 | the count is 1 exactly while there is an owner, and 0 otherwise |
| `Theorems.PriorityNeverLowered` | Source/Mutex.cpp:119-122 | no run ever lowers any priority |
| `Theorems.BoostCoversForever` | Source/Mutex.cpp:65-78 | from then on the owner's priority never drops below what the waiter had when it blocked |
| `Theorems.RegisteredDormant` | Source/Kernel.cpp:19-50 | a task registered at idle priority owns no mutex and has no ready bit below idle, set or about to be stored |
| `Theorems.IdleNeverSelected` | Source/Kernel.cpp:236 | in all runs the task that a registration at idle priority adds is never current and keeps that priority |
| `Theorems.IdleUntilFirstSwitch` | Source/Kernel.cpp:15-16 | the idle task is current up to the first selection that finds a task ready below idle, and never after it |
| `Sleepers.SleepStepInRun` | Source/Kernel.cpp:272-284 | in all runs a step leaves a sleeper asleep with the same time, unless it is the tick that reaches that time, which makes it ready, or one of the listed disturbances, which end it: its own next call, a wake-up out of a queue it is in, a selection of a ready bit it has |
| `Sleepers.SleepsExactly` | Source/Task.cpp:32-46 | in all runs a task that sleeps n ticks at count t is asleep in all states before t + max(n, 1) if and only if no such disturbance falls in between, and then the tick that reaches it makes it ready |
| `Sleepers.TickLeavesNoneDue` | Source/Kernel.cpp:276-284 | after a tick no sleeping task has a wake-up time that has come |
| `Sleepers.SleepKeptInRun` | Source/Kernel.cpp:276-284 | in an orderly run nothing wakes a sleeper but the tick that reaches its time |
| `Sleepers.ExactSleep` | Source/Task.cpp:32-46 | in an orderly run a task that sleeps n ticks at count t is asleep before t + max(n, 1) and ready at the tick that reaches it |
| `CallResults.SemWaitEnds` | Source/Semaphore.cpp:14-60 | in all runs a wait takes a token if and only if there is one, gives up and changes nothing if and only if there is none and the timeout is zero or has passed, and otherwise blocks its caller at the end of the queue |
| `CallResults.ReleaseEnds` | Source/Mutex.cpp:90-133 | in all runs a release answers NotOwner if and only if another task owns the mutex, and changes anything only for the owner: the mutex is free, the first waiter ready, a switch requested |
| `CallResults.WaitEnds` | Source/Mutex.cpp:56-83 | in all runs a pass that has to wait gives the owner exactly the higher of the two priorities and nobody else a new one, blocks a running caller and queues it last; with a full queue neither happens |
| `CallResults.PassEnds` | Source/Mutex.cpp:47-62 | in all runs a pass that takes the mutex or times out changes nothing else than the mutex and the caller's place in its call |
| `CallResults.SignalGoesOn` | Source/Semaphore.cpp:79-111 | a signal by a task always goes on to ready the task itself, a flush by a task exactly if it woke somebody, neither in an interrupt |
| `CallResults.WokenInOrder` | Source/Mutex.cpp:70-124 | over any run the waiters of a mutex are woken exactly in the order in which they queued up |
| `CallResults.GroupWaitEnds` | Source/EventGroup.cpp:35-46 | an event wait that blocks stores its request and queues its caller last |
| `CallResults.RecheckEnds` | Source/EventGroup.cpp:51-86 | a pass of the event wait loop that goes on changes nothing, and one that ends takes exactly the caller's entry out of the queue |
| `CallResults.FlagExactly` | Source/EventGroup.cpp:89-120 | in any run a flag is set if and only if some call set it and none has cleared it since |
| `CallResults.PendingExactly` | Include/Kernel.hpp:380-383 | in any run a context switch is pending if and only if one was asked for since the last one, by a tick, a sleep, a call that has to wait, an owner's release, a finished signal or a setting of flags |
| `WaitTheorems.SemStep` | Source/Semaphore.cpp:14-113 | every step moves count and queue of a semaphore in one of six ways or not at all |
| `WaitTheorems.TokensConserved` | Source/Semaphore.cpp:14-113 | count + taken at once + handed over + lost at the maximum = initial count + signals, and the joined tasks are the woken ones followed by the queue |
| `WaitTheorems.NoOvertaking` | Source/Semaphore.cpp:25-30 | a token is taken at once only while nobody waits |
| `WaitTheorems.AcquireEnds` | Source/Mutex.cpp:45-85 | an acquire succeeds exactly on a free mutex and times out exactly on a held one, with a finite timeout, strictly after call time plus timeout |
| `WaitTheorems.EventWaitAtOnce` | Source/EventGroup.cpp:17-33 | a wait that does not block returns true exactly with a requested flag set and false exactly with none set and timeout zero |
| `WaitTheorems.EventWaitEnds` | Source/EventGroup.cpp:49-86 | a wait that blocked returns true exactly with a requested flag set, false exactly with none set and the deadline reached, and leaves the caller in the queue of no group, in an orderly run in no queue at all |
| `WaitTheorems.KeptInOrder` | Source/EventGroup.cpp:96-109 | waiters that stay keep their order |
| `WaitTheorems.PartitionCounts` | Source/EventGroup.cpp:96-109 | no waiter is lost or duplicated between woken and kept |
| `WaitTheorems.RaiseWakesExactly` | Source/EventGroup.cpp:89-113 | setting flags makes ready exactly the waiters that asked for one of the group's flags, forgets their request and changes no other task; no waiter is queued twice |
| `WaitTheorems.GroupsAreQuiet` | Source/EventGroup.cpp:89-120 | between steps no queued waiter has one of its flags set |
| `MessageQueues.MessageQueue.constructor` | Include/MessageQueue.hpp:76-77 | a new queue is empty |
| `MessageQueues.MessageQueue.CommitSend` | Include/MessageQueue.hpp:150-156 | the commit of a send appends the message or drops it on a full buffer |
| `MessageQueues.MessageQueue.CommitReceive` | Include/MessageQueue.hpp:199-204 | the commit of a receive takes the front message, or a default one from an empty buffer |
| `MessageQueues.MessageQueue.SendISR` | Include/MessageQueue.hpp:84-99 | from an interrupt a full queue is an error and otherwise the message is stored |
| `MessageQueues.MessageQueue.TrySend` | Include/MessageQueue.hpp:102-108 | a send that meets nobody stores the message, fails with ErrorQueueFull exactly when full with timeout zero, and has to wait exactly when full otherwise |
| `MessageQueues.MessageQueue.TryReceive` | Include/MessageQueue.hpp:161-178 | the receive errors and the delivered front message, each exactly when |
| `MessageQueues.StoredConserved` | Include/MessageQueue.hpp:80-205 | for any number of senders and receivers, the stored messages are the received ones followed by the queue contents |
| `MessageQueues.LossExactly` | Include/MessageQueue.hpp:150-156 | a message is lost if and only if its commit finds the queue full, and one is made up if and only if a receive commits to an empty queue |
| `MessageQueues.InterruptIsSender` | Include/MessageQueue.hpp:84-99 | a send from an interrupt does and returns what a sender with timeout zero does that nothing interrupts |
| `MessageQueues.LossFollowsExactly` | Include/MessageQueue.hpp:102-156 | without any further test a loss can follow from a state if and only if the senders past their test outnumber the free slots |
| `MessageQueues.SingleReady` | Include/MessageQueue.hpp:102-204 | with one sender and one receiver a commit always finds room or a message, although the test was made outside the critical section |
| `MessageQueues.NothingLost` | Include/MessageQueue.hpp:80-205 | with one sender and one receiver the messages with which the successful sends were called are, in order, those delivered by successful receives followed by the queue contents |
| `MessageQueues.MessageCarried` | Include/MessageQueue.hpp:102-156 | a sender carries the message of its last call through every place up to its commit |
| `MessageEnds.ReceiveEnds` | Include/MessageQueue.hpp:161-205 | in all runs a receive succeeds if and only if one of its tests found a message, fails with ErrorQueueEmpty if and only if its first finds none with timeout zero, and times out if and only if it has found none later than its finite timeout after its first test |
| `MessageEnds.SendEnds` | Include/MessageQueue.hpp:102-156 | in all runs a send fails with ErrorQueueFull if and only if its test finds the queue full with timeout zero, and times out if and only if it holds the inner mutex already, or waits for it longer than its finite timeout, or finds the queue full later than that after it first got the mutex |
| `MessageQueues.TwoSendersLose` | Include/MessageQueue.hpp:102-156 | two senders can both be told Success while one message is lost |
| `MessageQueues.LoopOwnsInRun` | Include/MessageQueue.hpp:117-125 | whoever is in the waiting loop holds the inner mutex |
| `MessageQueues.WaitKeeps` | Include/MessageQueue.hpp:117-156 | a send that waited goes to its commit with the mutex held and with the message it was called with |
| `MessageQueues.KeptForever` | Include/MessageQueue.hpp:111-145 | once held outside the loop, the inner mutex is held for ever and nobody gets into the loop again |
| `Counters.Counter.Increment` | Source/Counter.cpp:17-24 | one increment, with wrap at the maximum and at 32 bits |
| `Counters.Counter.GetElapsedValue` | Source/Counter.cpp:27-37 | the elapsed value is the number of increments since the start modulo the cycle |
| `Counters.Counter.SetCounterValue` | Source/Counter.cpp:40-46 | values up to and including the maximum are stored, others ignored |
| `Counters.ElapsedIs` | Source/Counter.cpp:17-37 | from inside the cycle exactly n modulo the cycle has elapsed after n increments |
| `Counters.ElapsedFromMax` | Source/Counter.cpp:17-46 | from the maximum the first increment is not counted |
| `Counters.ElapsedExactly` | Source/Counter.cpp:17-46 | elapsed values are exact at all times if and only if the start is below the maximum or the maximum is at most 1 |
| `Alarms.Alarm.Start` | Source/Alarm.cpp:33-37 | the start tick is recorded and the alarm armed |
| `Alarms.Alarm.CheckAndTrigger` | Source/Alarm.cpp:39-74 | one check calls the callback exactly when the alarm is active and its time has elapsed, and then restarts or stops the alarm |
| `Alarms.Alarm.SystemTick` | Source/Kernel.cpp:285-287 | the counter is incremented before the alarm is checked |
| `Alarms.Waits` | Source/Alarm.cpp:39-44 | before its first firing, and for ever if its time does not fit the counter's cycle, the alarm waits unchanged |
| `Alarms.Cycles` | Source/Alarm.cpp:46-51 | a cyclic alarm that has fired is armed with its cycle time from the tick of its last firing |
| `Alarms.Schedule` | Source/Alarm.cpp:33-74 | for every counter, start value, time and cycle: the exact set of ticks at which the alarm fires |
| `Alarms.FiresEvery` | Source/Alarm.cpp:33-74 | in the ordinary case these are time, time + cycle, time + 2 * cycle, and so on |
| `Timers.Timer.Start` | Source/Timer.cpp:17-21 | the countdown starts with the whole period |
| `Timers.Timer.Reset` | Source/Timer.cpp:28-31 | the countdown is the whole period again, running or not |
| `Timers.Timer.SetPeriod` | Source/Timer.cpp:33-40 | the new period restarts the countdown of a running timer only |
| `Timers.Timer.Tick` | Source/Timer.cpp:47-65 | one tick counts down only while running, calls the callback at zero and reloads or stops |
| `Timers.Schedule` | Source/Timer.cpp:47-65 | n ticks after a start with period p an auto-reload timer has fired n / p times, a one-shot min(1, n / p) times, with 1 to p ticks remaining while it runs |
| `Timers.StoppedRests` | Source/Timer.cpp:47-65 | a timer that does not run stays as it is and never fires |
| `Timers.FiresAt` | Source/Timer.cpp:47-65 | the tick numbers at which a timer fires |

## Left out

- Machine words: they are natural numbers below 2^32 or 2^64 with the bitwise operators defined bit by bit; the tick count itself is unbounded, so its 64-bit wrap-around is not modelled.
- Blocking loops as single methods: after a yield other tasks run, so the passes of the loops of the mutex, the event group and the message queue are separate methods or steps, and what happens between them is what the step relations say.
- Semaphores.Semaphore.Wait: one critical section directly after reading the clock; the step relation also covers ticks in between.
- Semaphores.Semaphore.Signal: nothing interrupts the caller readying itself; the step relation takes these accesses apart, and `Theorems.ReadySelfUninterrupted` connects the two.
- Semaphores.Semaphore.Flush: as for `Signal`.
- Mutexes.Mutex.Acquire: the first pass only, directly after reading the clock; later passes are `TryOnce` and the steps of the system.
- MessageQueues.MessageQueue.TrySend: nothing falls between its test and its commit; the step relation of the message queue covers the rest.
- MessageQueues.MessageQueue.TryReceive: as for `TrySend`.
- Kernels.Kernel.AddTask: asks for a task not registered yet whose priority is at most 15 and equals its base priority, which rules out one given the reserved priority 0xFF before.
- MessageQueues.FromISR: a nested interrupt between the test and the commit of an interrupt's send (Include/MessageQueue.hpp:86-91) is not a step of its own; an interrupt that is interrupted there does what a sender with timeout zero does (`MessageQueues.InterruptIsSender`), and the results for any number of senders cover it as one.
- EventGroups.EventGroup.SetEvents: asks that no task is queued twice, which `BaseProofs.BaseInRun` shows for the queue of every group in every run.
- MutexWaits.NoLostWakeupInRun: says who will try the mutex, not that it is scheduled; selection can starve it.
- Reading the priority and loading the ready word, two reads of a task readying itself, are one step: only another task could change the priority in between, and the switch to it would lose the first one anyway.
- Critical-section nesting, which a successful acquire leaves unbalanced (see above): each critical section is one atomic step that ends with interrupts on.
- Interrupt assertions: `assert` of not being in an interrupt is dropped and the checked error result kept.
- Ports, registers, stacks, `SpinLock`, `KernelFactory` and start-up: hardware access or thin forwarding.
- The mutex destructor and task-activating alarms: both set the ready state without a ready bit, outside the protocol of the ready set.
- Timer, counter and alarm slot tables and the order of several of them within a tick: only one counter with one alarm, and one timer, per object.
- Calls that change a registered task's priority other than a mutex boost, and registering a task twice.
- Callbacks that start or stop their own timer or alarm.
- Time by which a blocked task returns: blocked tasks are on no timed list, so only what a call returns is claimed, not when.
