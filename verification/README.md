# aRTOS kernel, verified

This project models the hardware-independent kernel of aRTOS: the preemptive fixed-priority scheduler with its ready
lists and bitmap, delays and timeouts over a wrapping 32-bit tick, mutexes with priority inheritance, semaphores and
bounded queues. It proves what the kernel keeps in every interleaving of task calls, interrupt calls, ticks and context
switches. `dafny verify dfyconfig.toml` checks everything.

## How it is built

| layer | files | form |
|---|---|---|
| lists | `IntrusiveList`, `TaskLists`, `StableSort`, `Sequences` | the circular list on the heap, refined to sequences; all lists of the kernel in one linked store; sorted inserts as stable sort |
| scheduler | `Kernel`, `KernelInvariants`, `SchedulerSteps`, `TaskViews` | `tasks.c` as functions on one state value, and what each keeps |
| system | `System`, `Effects`, `SystemInvariants`, `MutexInvariants`, `SystemProof` | the objects and the state machine: events, legal use, runs, and the proof that every step keeps every invariant |
| promises | `Theorems`, `Lifecycle`, `Timing`, `WakeOrder`, `Outcomes`, `Answers`, `Preemption`, `Idling`, `RoundRobin`, `Retry`, `ExactInheritance`, `Lending`, `Chains` | statements about every reachable state and every run |
| instances | `Scenes`, `Stranding`, `Outrunning`, `LateRetry`, `Dozing` | legal runs that reach the four exceptions below |
| code | `Bitmap`, `Scheduling`, `Ring`, `QueueStorage`, `Api` | the routines in place, on objects with fields, arrays and loops, each proved equal to its function above, with the source's assertions proved where they stand |

**State.** A state is the task control blocks, the contents of every list in order, the bitmap, the tick, the current task,
a pending-switch flag, the objects, and for each task where it is inside a kernel call. The clock that never wraps, the
absolute deadlines, the order of insertions and the logs of tokens and items are history: no branch depends on them.

**Steps.** A critical section is one step. A blocking call is two: the step that blocks and `Resume`, which runs the rest
once the task is on again. Everything else may happen in between, also between the block and the switch it asked for, when
the blocked task may already be ready again while it is still the current one. An interrupt may ask for a switch at any
time, which covers a request that is issued only after the critical section has ended.

**Legal use.** `System.Enabled` says it: a requested switch happens before the next kernel step of the requesting task;
blocking calls come from a started task that is not idle; objects exist and are initialised once, before the run. The
number of levels is any value in 1..32 and the number of tasks is arbitrary.

## Where the code is narrower than its description

- A queue wait of 0x80000000 ticks or more counts as already over (`src/rtos/queue.c:75-76`, `src/rtos/queue.c:130-131`), so
  `Retry.QueueCallOnTime` speaks of shorter timeouts. A call that resumes more than half the tick range after its deadline takes it for
  a future one; `Retry.RetryExact` gives the exact condition and `LateRetry.LateRetryOverruns` a run that reaches it.
- Unlocking with waiters ignores that the caller's priority dropped (`src/rtos/mutex.c:114`, `src/rtos/mutex.c:134-138`), so a
  ready task can outrank the caller until the next tick. `Preemption.UnlockSafeIff` gives the exact condition,
  `Stranding.UnlockStrands` a run that reaches it, and `Preemption.TickRepairs` the repair.
- `include/rtos.h:414-416` promises that the owner inherits the highest waiter's effective priority, not transitively. A waiter that
  is itself raised later does not pass that on. What always holds is a bound on the waiters' base priorities
  (`Theorems.InheritanceSafety`); the bound on their effective priorities holds until a lock call joins such a chain from above
  (`Chains.CoveredStepIff`, `Chains.CoveredIff`), and `Outrunning.LockOutruns` is a run that does.
- A wake flag compares with the running priority, and idle counts as 0, so an interrupt that wakes a task of level 0 raises no flag
  (`src/rtos/semaphore.c:141-145`, `Idling.FlagUnderIdle`) and idle may run on. `Idling.FlaggedIdleIff` gives the exact condition for handlers
  that go by the flag, `Dozing.IdleDozes` a run that reaches it.

## Model

| member | source | states |
|---|---|---|
| `IntrusiveList.Append` | src/rtos/list.c:29-52 | linking behind a node inserts the item in the list's sequence right after it; the circle stays closed, count is the length, containers are set, payloads untouched; the assertions hold |
| `IntrusiveList.Prepend` | src/rtos/list.c:54-77 | linking in front of a node inserts the item in the sequence right before it, with the same invariants |
| `IntrusiveList.Unlink` | src/rtos/list.c:79-102 | removes exactly this item from its list's sequence and clears its links; all eight assertions hold |
| `IntrusiveList.InsertEnd` | src/rtos/list.c:104-108 | appends to the sequence; a null list changes nothing |
| `IntrusiveList.InsertSorted` | src/rtos/list.c:110-125 | the forward scan stops at the sentinel at the latest and inserts behind all keys that are at most the new one |
| `IntrusiveList.InsertReversedSorted` | src/rtos/list.c:127-143 | the backward scan stops at the sentinel at the latest and inserts in front of the trailing smaller keys |
| `IntrusiveList.List.constructor` | src/rtos/list.c:5-16 | a new list is valid and empty |
| `IntrusiveList.Item.constructor` | src/rtos/list.c:18-27 | a new item is linked nowhere |
| `IntrusiveList.WalksAgree` | src/rtos/list.c:42-51 | the forward walk visits the sequence in order, the backward walk in reverse, and both return to the sentinel after count items |
| `IntrusiveList.ListsAreApart` | src/rtos/list.c:50-51 | two valid lists share no node, so an operation on one leaves the other valid |
| `IntrusiveList.MoveToEnd` | src/rtos/tasks.c:276-279 | moving an item between two lists removes it from one sequence, appends it to the other, and keeps both valid |
| `TaskLists.Store.constructor` | src/rtos/tasks.c:143-167 | one store of linked lists for all lists of the kernel, all empty |
| `TaskLists.Store.AddTask` | src/rtos/tasks.c:106-107 | adds the two loose items of a task; no list changes |
| `TaskLists.Store.Append` | src/rtos/list.c:104-108 | appends the task to one list of the linked store; every other list keeps its contents and all circles stay closed |
| `TaskLists.Store.InsertByValue` | src/rtos/list.c:110-143 | links the task where the scan over the values of the tasks in the list stops; no other list changes |
| `TaskLists.Store.Unlink` | src/rtos/list.c:79-102 | takes the task off one list; no other list changes |
| `TaskLists.Store.First` | src/rtos/tasks.c:67-70 | the owner of the first item is the first task of the list |
| `StableSort.InsertAllIsStableSort` | src/rtos/list.c:110-143 | any sequence of sorted inserts, ascending or descending, yields an ordered list in which equal keys keep their order of insertion |
| `IntrusiveList.InsertEach` | src/rtos/list.c:110-143 | inserting items one after the other into the linked list, by either sorted insert, leaves it ordered by value and stable |
| `StableSort.StableSortIsUnique` | src/rtos/list.c:110-143 | ordered and stable determine the list completely |
| `StableSort.SortedInsertIsStable` | src/rtos/list.c:119-124 | the new item comes last among those with its key, and no other key is affected |
| `Bitmap.FindMsb` | src/rtos/ports/cortex-m4f/rtos_port.c:76-80 | the index of the highest set bit of the word; 0 for an empty word |
| `Bitmap.SetBitAdds` | src/rtos/tasks.c:39 | the or-mask adds exactly this level to the set the bitmap stands for |
| `Bitmap.ClearBitRemoves` | src/rtos/tasks.c:77-78 | the and-mask removes exactly this level |
| `Bitmap.ShiftSeesHigher` | src/rtos/tasks.c:42-47 | the shifted bitmap is non-zero if and only if some level at or above the shift is set |
| `Scheduling.Scheduler.constructor` | src/rtos/tasks.c:143-167 | initialisation gives the initial state of every run |
| `Scheduling.Scheduler.RemoveState` | src/rtos/list.c:79-102 | takes the state item off the list its container names; it is in that list, which is what the assertions of the list need |
| `Scheduling.Scheduler.RemoveEvent` | src/rtos/list.c:79-102 | the same for the event item |
| `Scheduling.Scheduler.InsertReady` | src/rtos/tasks.c:34-40 | appends to the ready list of the effective priority and sets its bit; does nothing for a linked task |
| `Scheduling.Scheduler.CheckRunnable` | src/rtos/tasks.c:42-47 | true if and only if some ready level is at least the given one |
| `Scheduling.Scheduler.PopHighest` | src/rtos/tasks.c:58-84 | takes the first task of the highest level; all eight assertions follow from the invariants, the last being that the bit is set if and only if the list is not empty after the removal |
| `Scheduling.Scheduler.Create` | src/rtos/tasks.c:111-141 | the status in terms of arguments, priority, 64 stack words and free slots, each in both directions; on success one ready task of that priority, otherwise nothing changes |
| `Scheduling.Scheduler.Start` | src/rtos/tasks.c:187-199 | starts the highest ready task, once |
| `Scheduling.Scheduler.SelectNext` | src/rtos/tasks.c:201-217 | requeues the running task unless it is linked, then runs the highest ready task or idle; invariants kept |
| `Scheduling.Scheduler.BlockCurrent` | src/rtos/tasks.c:236-260 | links the running task in the delayed, overflow or suspend list and in the wait list; the four assertions hold |
| `Scheduling.Scheduler.DelayStateItem` | src/rtos/tasks.c:250-253 | chooses the overflow list for a wake tick below the present one and records the absolute deadline |
| `Scheduling.Scheduler.Unblock` | src/rtos/tasks.c:262-282 | takes the task off its state and wait lists, readies it and records the reason |
| `Scheduling.Scheduler.DrainCurrent` | src/rtos/tasks.c:288-292 | the loop at the wrap empties the list it is given |
| `Scheduling.Scheduler.WakeDue` | src/rtos/tasks.c:298-301 | the loop wakes exactly the due prefix of the current delayed list, in order |
| `Scheduling.Scheduler.Tick` | src/rtos/tasks.c:284-306 | the whole tick: wrap, list swap, wake-ups and switch request; invariants kept |
| `Scheduling.Scheduler.IncrementHeld` | src/rtos/tasks.c:333-336 | counts up, saturating at 255 |
| `Scheduling.Scheduler.DecrementHeld` | src/rtos/tasks.c:337-340 | counts down, saturating at 0 |
| `Scheduling.Scheduler.SetEffective` | src/rtos/tasks.c:342-377 | moves a ready task to the end of its new level and a waiting task to its new place in the wait list; invariants kept |
| `Scheduling.Scheduler.Inherit` | src/rtos/tasks.c:379-383 | raises, never lowers |
| `Scheduling.Scheduler.Relinquish` | src/rtos/tasks.c:385-389 | back to base with the last mutex, and says if that changed anything |
| `Scheduling.Scheduler.Disinherit` | src/rtos/tasks.c:391-401 | lowers to what is still required, for a holder of exactly one mutex |
| `QueueStorage.Create` | src/rtos/queue.c:28-47 | a queue is created if and only if buffer, item size and capacity are usable and their product fits the address range |
| `QueueStorage.RingBuffer.Put` | src/rtos/queue.c:97-100 | the bytes copied into the array become the newest item and no other item changes |
| `QueueStorage.RingBuffer.Take` | src/rtos/queue.c:152-155 | the bytes copied out are the oldest item, and the rest is what remains |
| `Ring.Init` | src/rtos/queue.c:31-46 | the division test rejects exactly the sizes whose product overflows; an accepted ring is valid and empty |
| `Ring.PutAppends` | src/rtos/queue.c:97-100 | contents after copying in are the old contents and the new item |
| `Ring.TakeRemovesFront` | src/rtos/queue.c:152-155 | the old contents are the item copied out followed by the new contents |
| `Ring.SlotBounds` | src/rtos/queue.c:97 | every slot lies inside item_size * capacity bytes |
| `Ring.WriteIndexIsModulo` | src/rtos/queue.c:98-100 | write_index is (read_index + count) modulo capacity |
| `Api.Rtos.constructor` | src/rtos/rtos.c:6 | initialisation reaches an initial state in which all invariants hold |
| `Api.Rtos.Wait` | src/rtos/rtos.c:23-34 | the state change of artos_wait; invariants kept |
| `Api.Rtos.WaitUntil` | src/rtos/rtos.c:38-45 | the state change of artos_wait_until; invariants kept |
| `Api.Rtos.RequiredPriority` | src/rtos/mutex.c:29-45 | the owner's base or the first waiter's effective priority, whichever is higher |
| `Api.Rtos.Lock` | src/rtos/mutex.c:47-83 | the first half of a lock: refusals, acquisition, or joining the wait list and raising the owner; invariants kept |
| `Api.Rtos.ResumeLock` | src/rtos/mutex.c:85-93 | the second half: the answer from the recorded reason, and disinheritance after a timeout |
| `Api.Rtos.Unlock` | src/rtos/mutex.c:96-142 | release or direct handoff with the switch request of the source; the assertion on the count holds |
| `System.BinaryIsCounting` | src/rtos/semaphore.c:25-51 | a binary semaphore starts as a counting one with a maximum of one |
| `Api.Rtos.Take` | src/rtos/semaphore.c:53-75 | takes a token, refuses, or blocks; invariants kept |
| `Api.Rtos.ResumeTake` | src/rtos/semaphore.c:76-78 | the answer from the recorded reason |
| `Api.Rtos.GiveToken` | src/rtos/semaphore.c:122-148 | stores the token or hands it to the first waiter, and the wake flag; shared by both signal variants |
| `Api.Rtos.Signal` | src/rtos/semaphore.c:81-107 | the task variant, with its switch request |
| `Api.Rtos.TakeFromIsr` | src/rtos/semaphore.c:109-120 | takes a token or refuses |
| `Api.Rtos.EnqueueRound` | src/rtos/queue.c:73-110 | one round of the enqueue loop: give up, block, or store and wake a reader |
| `Api.Rtos.DequeueRound` | src/rtos/queue.c:128-164 | one round of the dequeue loop; on success the data is the oldest item |
| `Api.Rtos.Enqueue` | src/rtos/queue.c:59-85 | the call up to its first wait or its return; the validity assertions hold |
| `Api.Rtos.ResumeEnqueue` | src/rtos/queue.c:87-95 | the loop after a wait: false on timeout, otherwise another round |
| `Api.Rtos.Dequeue` | src/rtos/queue.c:114-140 | the call up to its first wait or its return |
| `Api.Rtos.ResumeDequeue` | src/rtos/queue.c:142-150 | the loop after a wait |
| `Api.Rtos.EnqueueFromIsr` | src/rtos/queue.c:168-195 | stores or refuses, wakes the first reader, and sets the wake flag |
| `Api.Rtos.DequeueFromIsr` | src/rtos/queue.c:197-224 | hands out the oldest item or refuses, wakes the first writer, and sets the wake flag |
| `Api.Rtos.CreateTask` | src/rtos/tasks.c:111-141 | task creation as a step of the whole system, with the status and the new task stated outright |
| `Api.Rtos.Start` | src/rtos/rtos.c:8-18 | start as a step of the whole system |
| `Api.Rtos.Switch` | src/rtos/tasks.c:223-234 | the context switch as a step of the whole system |
| `Api.Rtos.Tick` | src/rtos/tasks.c:284-306 | the tick as a step of the whole system |
| `Effects.CallEffect` | src/rtos/semaphore.c:53-107 | every call but the mutex operations comes to a switch request, the caller going to sleep, or waking the first waiter of one list with a request exactly when it outranks the caller |
| `SchedulerSteps.PopChoosesHighest` | src/rtos/tasks.c:58-84 | the task taken is first in the highest non-empty level |
| `SchedulerSteps.SwitchKeeps` | src/rtos/tasks.c:186-217 | a switch keeps all scheduler invariants and consumes the request |
| `SchedulerSteps.StartKeeps` | src/rtos/tasks.c:193-199 | so does the start |
| `SchedulerSteps.CreateKeeps` | src/rtos/tasks.c:125-137 | so does creation |
| `SchedulerSteps.TickKeeps` | src/rtos/tasks.c:284-306 | a tick wakes exactly the tasks whose absolute deadline is the new time, in list order, and keeps all invariants across the wrap |
| `SchedulerSteps.DueIsDeadline` | src/rtos/tasks.c:298-301 | the 32-bit comparison at the head of the list selects exactly the deadlines that are now |
| `SchedulerSteps.NothingToDrain` | src/rtos/tasks.c:290-292 | at the wrap the expiring list is empty |
| `SchedulerSteps.UnblockAllKeeps` | src/rtos/tasks.c:298-301 | the wake-up loop appends the woken tasks to their levels in list order |
| `KernelInvariants.BlockKeeps` | src/rtos/tasks.c:236-260 | blocking keeps placement, timer and wait-list invariants |
| `KernelInvariants.UnblockKeeps` | src/rtos/tasks.c:262-282 | unblocking keeps them |
| `KernelInvariants.SetEffectiveKeeps` | src/rtos/tasks.c:342-377 | changing a priority keeps them, so wait lists stay in order |
| `TaskViews.RequiredCovers` | src/rtos/mutex.c:29-45 | the required priority covers every waiter and is the base or that of some waiter |
| `MutexInvariants.JoinKeeps` | src/rtos/mutex.c:73-80 | a new waiter with a raised owner keeps the ownership and inheritance invariants |
| `MutexInvariants.LowerKeeps` | src/rtos/mutex.c:88-91 | lowering an owner after a timeout keeps every remaining waiter covered |
| `MutexInvariants.ReleaseKeeps` | src/rtos/mutex.c:112-121 | releasing with no waiters keeps them, also when other mutexes are still held |
| `MutexInvariants.HandoffKeeps` | src/rtos/mutex.c:123-133 | direct handoff keeps counts exact and the remaining waiters covered |
| `SystemProof.StepKeeps` | src/rtos/tasks.c:34-401 | every legal step of tasks, interrupts, ticks and switches keeps every invariant of the system |
| `SystemProof.Always` | src/rtos/tasks.c:34-401 | every state of every run has every invariant |
| `Theorems.InheritanceSafety` | src/rtos/mutex.c:79-91 | in every reachable state the owner is at least at the waiter's base priority, and at its effective one if the waiter holds nothing |
| `Theorems.OwnershipAccounting` | src/rtos/tasks.c:333-340 | mutexes_held is the number of mutexes owned, priorities are in range, a task holding nothing is at base |
| `Theorems.UnownedHasNoWaiters` | src/rtos/mutex.c:116-121 | a mutex without owner has no waiters |
| `Theorems.Placement` | src/rtos/tasks.c:34-40 | every task is in exactly one state list or is the running task; wait lists only while blocked |
| `Theorems.BitmapMirrorsLists` | src/rtos/tasks.c:77-81 | a bit is set if and only if its ready list is non-empty; no list holds a task twice |
| `Theorems.WaitListOrder` | src/rtos/tasks.c:256-259 | wait lists are in descending order of current priorities and first-in first-out among equals |
| `Theorems.SemaphoreConservation` | src/rtos/semaphore.c:53-148 | initial tokens and signals equal stored tokens, takes and handoffs under way; count stays within max; stored tokens mean no waiters |
| `Theorems.NoLostWakeups` | src/rtos/queue.c:73-106 | readers wait only while woken readers cover every item, writers only while woken writers cover every free slot |
| `Theorems.QueueIsFifo` | src/rtos/queue.c:97-155 | over any run the items received are a prefix of the items sent, the ring holds the rest, and the write index is the modulo sum |
| `Theorems.CopiesStayInside` | src/rtos/queue.c:97 | every copy stays inside the item area, whose size does not overflow |
| `Theorems.DelayedListsRefineClock` | src/rtos/tasks.c:250-253 | the two delayed lists are one agenda in order of absolute deadline, each ahead and less than 2^32 ticks away |
| `Theorems.WrapDrainsNothing` | src/rtos/tasks.c:289-292 | in every reachable state the drain loop has nothing to remove |
| `Theorems.TickWakesInOrder` | src/rtos/tasks.c:298-301 | at the tick of their common deadline, tasks of one priority are readied in the order of their blocks |
| `WakeOrder.BlockTakesNext` | src/rtos/tasks.c:246-253 | whatever call or resumption makes a task wait for a time, that step gives it the next place in the order of blocks |
| `WakeOrder.LaterBlockComesLater` | src/rtos/list.c:119-124 | of two tasks that block at different steps of a run, the first still waiting, the second has the later place |
| `WakeOrder.SameDeadlineWakeOrder` | src/rtos/tasks.c:287-301 | two tasks that block at steps a < b of a run with the same deadline, are not signalled before it, and have equal priority at its tick, become ready in the order in which they blocked, also across the wrap |
| `Chains.CoveredStepIff` | src/rtos/mutex.c:79-80 | if every owner is at least at the effective priority of each waiter, a step keeps it so if and only if it is not a lock call that waits for an owner which itself waits for a mutex whose owner the caller outranks |
| `Chains.CoveredSince` | src/rtos/mutex.c:79-133 | from any such state on it stays so through disinheritance, release and handoff, until such a lock call |
| `Chains.CoveredIff` | src/rtos/mutex.c:79-133 | it holds in all states of a run if and only if the run has no such lock call |
| `Outrunning.LockOutruns` | src/rtos/mutex.c:79-80 | a legal run of eleven steps that reaches the exception |
| `Lifecycle.WaitStep` | src/rtos/tasks.c:262-282 | each step leaves a wait unchanged, ends it as the tick at its deadline, or ends it by a signal for which it was first in line; never two of these |
| `Lifecycle.BlockStarts` | src/rtos/tasks.c:246-259 | a block records the absolute deadline and the place in the order of blocks |
| `Lifecycle.HandoffNeverRaises` | src/rtos/mutex.c:131-133 | the inheritance call after a handoff never changes anything, because the first waiter is already the highest |
| `Lifecycle.FirstIsHighest` | src/rtos/list.c:137-142 | the first waiter has the highest current priority of its wait list |
| `Timing.TimeoutIsExact` | src/rtos/tasks.c:284-301 | an unsignalled wait ends at the very tick that reaches its absolute deadline, across any number of wraps |
| `Timing.WaitLasts` | src/rtos/rtos.c:23-34 | artos_wait(d) keeps the caller blocked before now + d and readies it at now + d |
| `Timing.WaitStarts` | src/rtos/rtos.c:23-34 | artos_wait(d) blocks with deadline now + d |
| `Timing.WaitUntilStarts` | src/rtos/rtos.c:38-45 | artos_wait_until blocks for a distance of 1..0x7fffffff and otherwise only yields |
| `Timing.TakeStarts` | src/rtos/semaphore.c:68-73 | a take that blocks has deadline now + timeout |
| `Timing.LockStarts` | src/rtos/mutex.c:73-80 | so has a lock, whatever inheritance does to its owner |
| `Timing.StepClock` | src/rtos/tasks.c:286 | only a tick moves time, and by one |
| `Outcomes.ReasonAtResume` | src/rtos/tasks.c:280 | the reason read on resumption is that of the step that ended this wait: timed out if and only if it was a tick |
| `Outcomes.AwakeStep` | src/rtos/tasks.c:236-260 | nothing but a task's own call blocks it or changes its recorded reason while it is awake |
| `Outcomes.LockReturnsOwner` | src/rtos/mutex.c:85-93 | a lock that returns true makes the caller the owner, and one that resumes with false does not |
| `Outcomes.OwnsUntilUnlock` | src/rtos/mutex.c:107-130 | ownership lasts until the owner's own unlock |
| `Answers.AnswersAreExact` | src/rtos/semaphore.c:53-148 | in every run the answer of every call is the one that counts, owners, capacity, arguments and timeouts give before it: taken if a token is stored, signalled if the semaphore is not full, stored if there is room, fetched if there is an item, locked if the mutex is free and the caller holds fewer than 255; otherwise false for no timeout (for queues also for half the tick range and more) and a wait for any other |
| `Answers.SignalIs` | src/rtos/semaphore.c:81-107 | a signal is refused exactly when the semaphore is full; it grants the first waiter, asking for a switch exactly if that waiter outranks the caller, or is stored if nobody waits; nothing else changes |
| `Answers.SignalFromIsrIs` | src/rtos/semaphore.c:122-148 | the interrupt variant differs in its switch request only |
| `Answers.SignalRefusedIffFull` | src/rtos/semaphore.c:86-91 | in every run a signal answers false exactly when the count is at the maximum |
| `Answers.TakeIs` | src/rtos/semaphore.c:53-74 | a stored token is always given and the count drops by one; without one the answer is false for no timeout, and otherwise the caller alone falls asleep on the semaphore, suspended for the infinite timeout and with deadline now + timeout for any other |
| `Answers.TakeFromIsrIs` | src/rtos/semaphore.c:109-120 | true exactly if a token is stored, which is then gone |
| `Answers.SemInitIs` | src/rtos/semaphore.c:25-51 | initialisation succeeds exactly for a positive maximum that covers the initial count, and stores both as given |
| `Answers.EnqueueIs` | src/rtos/queue.c:59-111 | with room the item becomes the newest and the first reader is granted; without, false for a timeout of 0 or of half the range and more with nothing changed, and otherwise the caller falls asleep on the queue |
| `Answers.DequeueIs` | src/rtos/queue.c:114-165 | with an item the oldest comes out and the first writer is granted; without, false or a wait by the same rule |
| `Answers.EnqueueFromIsrIs` | src/rtos/queue.c:168-195 | true exactly if there is room, with the same effect |
| `Answers.DequeueFromIsrIs` | src/rtos/queue.c:197-224 | true exactly if there is an item, with the same effect |
| `Answers.FlagIs` | src/rtos/queue.c:185-193 | the interrupt variants set the wake flag exactly if they grant a first waiter that outranks the running task, idle counting as 0 |
| `Answers.LockIs` | src/rtos/mutex.c:47-83 | true exactly for a free mutex and fewer than 255 held, and then the caller owns one more; a wait exactly if another task owns it and there is a timeout; otherwise false with nothing changed |
| `Answers.UnlockIs` | src/rtos/mutex.c:96-142 | true exactly for the owner; the mutex then goes to the first waiter or is free, and a switch is asked for exactly if the new owner outranks the caller, or, without waiters, if the caller's priority changed |
| `Answers.WaitIs` | src/rtos/rtos.c:23-34 | artos_wait only yields for 0 ticks, and otherwise puts exactly the caller to sleep, suspended for the infinite delay |
| `Answers.WaitUntilIs` | src/rtos/rtos.c:38-45 | artos_wait_until puts exactly the caller to sleep for a tick 1 to 0x7fffffff ahead on the wrapping counter, and otherwise only yields |
| `Answers.YieldIs` | src/rtos/rtos.c:20-21 | both yields ask for a switch and do nothing else |
| `Answers.CreateIs` | src/rtos/tasks.c:111-141 | creation succeeds exactly for good arguments, a priority below the count, at least 64 stack words and a free slot, and then adds one ready task of that priority at the end of its level; otherwise nothing changes |
| `Answers.ResumeAnswers` | src/rtos/queue.c:87-95 | a resumed call answers from the recorded reason; a queue call gives up exactly if it timed out, or can still not proceed with no time left |
| `Answers.ResumeClears` | src/rtos/tasks.c:318-325 | resuming clears the reason, except after a plain wait, which leaves it |
| `Outcomes.SemaphoreAnswers` | src/rtos/semaphore.c:57-107 | a take or signal answers true if and only if the account of the semaphore records it |
| `Outcomes.SemaphoreResumeAnswers` | src/rtos/semaphore.c:76-78 | so does a take that had to wait |
| `Outcomes.QueueAnswers` | src/rtos/queue.c:97-111 | a queue call answers true if and only if exactly its item went in, or exactly the oldest item came out |
| `Outcomes.QueueResumeAnswers` | src/rtos/queue.c:87-111 | so does a queue call that had to wait |
| `Preemption.UnlockSafeIff` | src/rtos/mutex.c:114-138 | an unlock leaves a switch requested or the caller highest, if and only if it does not drop the caller below a ready task while handing over to one that does not outrank it |
| `Preemption.StepSafeIff` | src/rtos/tasks.c:131-135 | if a switch is requested or the running task is at least as high as every ready task, a step keeps that so if and only if it is neither such an unlock nor a flagged interrupt call, with something running and no switch outstanding, whose handler asks for none |
| `Preemption.AlwaysSafe` | src/rtos/tasks.c:131-135 | it is so in every state of every run with no such step since the start or the last tick or switch |
| `Preemption.SafeIff` | src/rtos/mutex.c:114-138 | it is so in all states of a run if and only if the run has no such step |
| `Preemption.TickRepairs` | src/rtos/tasks.c:304-305 | after any tick a switch is requested or the running task is strictly above all ready tasks |
| `Preemption.SwitchCalm` | src/rtos/tasks.c:210-215 | after a switch no ready task outranks the running one |
| `Preemption.IsrSafeIff` | src/rtos/semaphore.c:141-145 | from a calm state, an interrupt call leaves a switch requested or the running task highest, if and only if its handler asks for a switch when flagged |
| `Idling.IdleStepIff` | src/rtos/semaphore.c:141-147 | while idle runs and no ready task waits for it unrequested, the only step that leaves one unnoticed is an interrupt call that wakes one whose handler asks for no switch |
| `Idling.FlagUnderIdle` | src/rtos/semaphore.c:141-145 | under idle an interrupt call raises the wake flag if and only if it wakes a task above level 0 |
| `Idling.FlaggedIdleIff` | src/rtos/semaphore.c:141-147 | a handler that asks for a switch exactly when flagged leaves a ready task to the next tick, under idle, if and only if the call wakes a task of level 0 |
| `Dozing.IdleDozes` | src/rtos/semaphore.c:141-147 | a legal run of five steps that ends with a level-0 task ready, idle running, no flag raised and no switch requested |
| `Idling.IdleAlwaysFair` | src/rtos/tasks.c:210-215 | with no such step since the last tick or switch, idle runs only if nothing is ready or a switch is requested |
| `Preemption.RequestedIffNeeded` | src/rtos/semaphore.c:100-105 | from a state in which no ready task outranks the caller, signals, queue calls that return, and task creation request a switch if and only if some ready task outranks the caller afterwards |
| `Stranding.UnlockStrands` | src/rtos/mutex.c:114-138 | a legal run of fifteen steps that reaches the exception |
| `RoundRobin.PositionStep` | src/rtos/tasks.c:206-215 | while a task stays ready at its level no step moves it back, and a switch within the level moves it up by one |
| `RoundRobin.RoundRobinProgress` | src/rtos/tasks.c:58-84 | over any stretch of a run, switches within the level are bounded by the places gained |
| `RoundRobin.RunsWithin` | src/rtos/tasks.c:206-215 | with k tasks in front and nothing above its level at any switch, a ready task runs within k + 1 switches unless its priority changes |
| `RoundRobin.FrontRunsNext` | src/rtos/tasks.c:69-76 | a ready task with nobody in front and nothing above it is the one the next switch runs |
| `RoundRobin.NothingHigher` | src/rtos/tasks.c:63 | with nothing higher ready, a switch picks from the level |
| `Retry.RetryKeepsDeadline` | src/rtos/queue.c:67-95 | from a state outside the call on, and as long as this task itself never resumes too late, its queue call always waits until exactly its original deadline, however often it was woken and whatever other tasks do |
| `Retry.RetryExact` | src/rtos/queue.c:73-94 | in every run, a resumed call waits again exactly if it was signalled, cannot proceed, and its deadline is ahead or it is too late; the new wait ends at the deadline exactly if it is not too late |
| `Retry.QueueCallOnTime` | src/rtos/queue.c:67-79 | a finite timeout of half the range or more never waits; a shorter one waits until now + timeout |
| `Retry.ExpiredMeans` | src/rtos/queue.c:75-76 | the modular test against the deadline, in unbounded time |
| `Retry.AlwaysNear` | src/rtos/queue.c:75-76 | in every state of every run the deadline of a queue call is less than half the tick range ahead |
| `LateRetry.LateRetryOverruns` | src/rtos/queue.c:75-82 | a legal run at whose end a writer with timeout 5, woken in time and resumed half the tick range later, waits a full turn of the counter past its deadline |
| `ExactInheritance.ExactWithoutNesting` | src/rtos/mutex.c:79-133 | in runs without nested locking and with no timed-out waiter pending, the owner's priority is the maximum of its base and its waiters' bases |
| `Lending.StepMoves` | src/rtos/tasks.c:379-401 | every step, nested or not, moves the effective priority of one task at most: to its base, or level with a task then waiting for one of its mutexes |
| `Lending.PrioritiesAreBases` | src/rtos/tasks.c:379-401 | in every state of every run each effective priority is the base priority of some task |
| `Lending.LentSince` | src/rtos/mutex.c:79-133 | in every run a task above its base was level with a task waiting for one of its mutexes at some state since which it has held a mutex throughout |
| `ExactInheritance.TightStep` | src/rtos/tasks.c:379-401 | every step keeps each raised owner level with some waiter or with one that gave up and has yet to resume |
| `ExactInheritance.DisinheritTight` | src/rtos/mutex.c:88-91 | disinheriting leaves the owner at its base or level with a waiter |

## Left out

- Stack filling, guard words, stack-pointer checks and the initial exception frame: straight-line code on raw memory.
- The processor port (`src/rtos/ports/cortex-m4f/rtos_port.c`) apart from the highest-set-bit function: registers and assembly.
- Failure records, diagnostics, `artos_task_get_info`, `artos_task_count` and `artos_get_tick`: reporting only.
- Boards, demos, the test transports and the static layout assertions.
- Null handles and null data pointers passed to the object calls: each returns false before touching the state.
- Creating mutexes, semaphores and queues in the middle of a run: objects are there from the start, as their init calls leave them.
- The scan of the task pool for a free slot: tasks are never deleted, so the first free slot is the next index of a growing sequence.
- Calls by task code before the scheduler starts or from the idle task: blocking there fails an assertion of the source; calls that happen not to block
  (a signal, a take with a token left, a queue call that can proceed) would be accepted by the source but are not legal steps here. The interrupt
  variants of the same operations are legal steps there.
- The defensive early returns behind the list assertions: they are unreachable once the assertions are proved.
- Api.Rtos.Enqueue: stores the item with `Ring.Put` on the ring as a value; that the byte loop on the array does the same is `QueueStorage.RingBuffer.Put`.
- Api.Rtos.Dequeue: likewise with `Ring.Take` and `QueueStorage.RingBuffer.Take`.
- Scheduling.Scheduler.InsertStateSorted: works on the sequence of a list; that all lists linked together do the same is `TaskLists.Store.InsertByValue`. The scheduler object
  does not itself hold the store: its primitives and those of the store have the same contracts.
- Scheduling.Scheduler.InsertEvent: likewise with `TaskLists.Store.InsertByValue` in the other direction.
- IntrusiveList.InsertEnd: list counts are unbounded, because a list never holds more items than there are tasks.
- Deadlock freedom of application lock orders, transitive inheritance, and freedom from starvation across levels: the kernel does not promise them.
