# Vulcan OS kernel: models and proofs

A Dafny 4.11 project about the kernel of Vulcan OS, a small RTOS for the
Cortex-M7, and its interrupt-driven UART driver. `dafny verify dfyconfig.toml`
checks all of it.

## What is modelled

**Scheduler and mutex** (`kernel/vulcan_sched.c`, `kernel/vulcan_mutex.c`).
`KernelSpec` gives the kernel's data as a value and each critical section as a
function on it. `Machine` makes a machine of it: one event is one stretch of
code that nothing can interrupt. LDREX, STREX, the store to `owner`, every
critical section and the write that pends PendSV are steps of their own, and
SysTick, PendSV and other exceptions come between any two. The local monitor is
a bit that exception entry clears (section A3.4 of the ARMv7-M Architecture
Reference Manual). Reachable states are those of all such runs from power-up.
`Invariant` keeps one invariant through every step; `Properties`, `Calls`,
`Deadline` and `Fairness` draw conclusions from it, for every reachable state or
every run;
`Scenarios` leads runs from power-up to states that show what is not promised.

The same code is written a second time on mutable records: `Tcb`, `Links`,
`Sched`, `MutexOps` and `Stack` have tasks with one real `next` field that the
ready queue, the sleep queue and all wait queues share, and the loops walk and
splice these lists in place. Every method is proved against its function in
`KernelSpec`. `Cpu` runs any events of the machine on the records and ends in
exactly the state the machine says, so what is proved of the machine holds of
the lists.

**Allocators** (`kernel/vulcan_mem.c`). `PoolSpec` says who owns which block,
under any interleaving of allocations, zeroing loops, holders' writes and frees.
`PoolMemory` and `BlockPool` do it on one array of bytes in which free blocks
hold the pointers of the free list. `Bits` and `Arena` do the alignment masks
and the bump allocator in 32-bit arithmetic, on values and on an array.

**UART** (`hal/vulcan_uart.c`). `UartSpec` has the producer in `vk_uart_putc` and
the consumer in `vk_uart_getc` as machines of single memory accesses against
the handler. `Uart` does the same on the ring arrays and builds `vk_uart_printf`
and `vk_uart_readline` on them, with any number of interrupts of any kind before
every access. `Format` has printing and parsing as functions.

## Where the code and its documentation disagree

The model follows the code.

- `kernel/vulcan_sched.c:17` says the running task is at the head of the ready queue. `_vk_schedule` pops it (`kernel/vulcan_sched.c:197-202`): the running task is on no list.
- `include/vulcan_mutex.h:41` says unlock wakes the highest-priority waiter. It wakes the one that has waited longest (`kernel/vulcan_mutex.c:98-104`): `Fairness.UnlockWakesFirst` is the exact condition for the two to agree, `Scenarios.UrgentWaiterPassedOver` a reachable case where they do not. The lock is free before that task runs: by `Scenarios.Barging` any other task that runs first can take it, and `Scenarios.BargingHappens` leads a run there.
- `vk_task_sleep(n)` compares ticks as plain integers. It sleeps `n` ticks iff `n` is at least 1 and the deadline does not wrap before `vk_ticks` does; `Deadline.SleepsAsAsked` is the exact condition, `Scenarios.SleepsFromAnyTick` has a reachable state for every tick and every `n`, and `Deadline.WrappedDeadline` is a case that fails.
- `vk_arena_alloc` adds `padding + bytes` in 32 bits. The test is right unless that sum wraps to something that is left; `Arena.AcceptsExactly` is the exact condition, `Arena.RunInv` the same over runs, `Arena.WrapAccepted` a case that fails.
- `VK_POOL_DECLARE` reserves storage for blocks of the size asked for, `vk_pool_init` rounds the size up. `BlockPool.DeclaredStorageSuffices` says when that is enough.
- `vk_task_create` from a running task pends no switch (`kernel/vulcan_sched.c:266-270`), so a more urgent new task waits until the next switch; `Properties.CreateInverts` says when.
- `main.c:103` logs with `%02X` and the repository's README shows the value printed. `vk_uart_printf` knows no field widths and prints `%02X` as it stands: `Format.WidthIsLiteral`.
- `include/vulcan_uart.h:118` speaks of a 128-byte stack buffer. The code has 32 bytes for the digits of one number; `Uart.Uart.Collect` shows that they suffice.

## What callers must do

Preconditions and enabled events say what the code relies on and does not
check: blocking calls come from tasks with interrupts enabled; only the holder
unlocks; a mutex or record is initialised once; `align` is a power of two;
pool storage is word-aligned and holds the rounded blocks; only live blocks are
freed, once; one task at a time puts bytes into a UART; strings hold no zero
byte, format directives have an argument of their kind, and a format does not
end in a lone percent sign; `vk_uart_readline` is called with `len` at least 1.

## Model

| member | source | states |
|---|---|---|
| Properties.OnePlace | kernel/vulcan_sched.c:51-77 | in every reachable state no task is twice on the lists, on one or on two of them; it is on a list iff its place says so; only `vk_current` is RUNNING, even while it is already queued but not switched out |
| Properties.ListsDisjoint | kernel/vulcan_sched.c:51-77 | ready queue, sleep queue and all wait queues share no node and repeat none |
| Properties.ExecutingIsRunning | kernel/vulcan_sched.c:189-206 | a task about to execute anything but the final `_trigger_pendsv` of a call is RUNNING and on no list |
| Properties.SleepLeavesReadyQueue | kernel/vulcan_sched.c:277-284 | `_ready_remove` inside `vk_task_sleep` changes nothing, in every reachable state |
| Properties.MutualExclusion | kernel/vulcan_mutex.c:38-57 | at most one task is between a successful STREX and its unlock, and `locked` is 1 iff there is one |
| Properties.OwnerIsHolder | kernel/vulcan_mutex.c:54-56 | `owner` is NULL or the holder, and NULL with the lock held only between the holder's STREX and its store |
| Properties.StrexSucceeds | kernel/vulcan_mutex.c:40-52 | whatever run comes between a task's LDREX of a free mutex and its STREX, the STREX takes the lock iff no exception is in that run; another task's LDREX does not help it |
| Properties.MonitorTells | kernel/vulcan_mutex.c:42-52 | a task at its STREX finds the monitor still set iff no exception came since it was set |
| Properties.AcquireOnlyFree | kernel/vulcan_mutex.c:48-52 | a STREX with the monitor set takes a mutex that nobody holds; without it, none |
| Properties.LockedOnReturn | kernel/vulcan_mutex.c:55-62 | when trylock or lock returns VK_OK the caller holds the mutex and is its owner |
| Properties.TryUndisturbed | kernel/vulcan_mutex.c:38-57 | without an exception, three steps take a free mutex, and a held one is left as it is |
| Calls.LockReturns | kernel/vulcan_mutex.c:59-88 | over every run from a call of lock to its return, be the mutex free or held at the call: the caller returns as holder and owner |
| Calls.TryReturns | kernel/vulcan_mutex.c:38-57 | over every run from a call of trylock: it never blocks, and returns as holder and owner or, changing nothing, right after its own LDREX has read the mutex locked; a failed STREX retries |
| Calls.Acquires | kernel/vulcan_mutex.c:40-71 | from anywhere in a call on a free mutex, also with the monitor lost or at the re-check, at most four undisturbed steps acquire it |
| Calls.WaitGivesUp | kernel/vulcan_mutex.c:73-87 | a re-check that finds the mutex held ends in the tail of its wait queue, BLOCKED, with a switch pended and the trylock to be repeated |
| Calls.OnlyOwnSteps | kernel/vulcan_sched.c:189-206 | other tasks and interrupts leave a task's position in its code and its locks alone |
| Properties.WaitersAreAttended | kernel/vulcan_mutex.c:59-88 | no lost wakeup: waiters imply a held lock or an awake task inside the retry loop of that mutex |
| Properties.ScheduleSelects | kernel/vulcan_sched.c:189-206 | `_vk_schedule` picks a task of least `priority`, among equals the one inserted first, and never none |
| Properties.CurrentNeverNull | kernel/vulcan_sched.c:204-205 | over every run from a started state `vk_current` is not NULL |
| Properties.IdleAlwaysAvailable | kernel/vulcan_sched.c:99-110 | the idle task is ready or current in every reachable state, and `vk_start` finds a task |
| Properties.TickEndsInversion | kernel/vulcan_sched.c:125-129 | after every SysTick and the PendSV it pends no ready task outranks the running one |
| Calls.PendedExactly | kernel/vulcan_sched.c:125-129 | a switch is pended by a task's own trigger, or by a SysTick after which a ready task is strictly more urgent than the running one, and by nothing else |
| Calls.InterruptsPend | kernel/vulcan_sched.c:114-130 | over any run of SysTicks and interrupts the running task stays current, and a switch is pending at the end iff it was before or a SysTick came and a more urgent task is ready |
| Calls.CallsGiveUp | kernel/vulcan_sched.c:273-292 | yield, sleep, exit and unlock each pend a switch with their next step and otherwise change nothing more |
| Calls.ExitsForGood | kernel/vulcan_sched.c:286-292 | in every run after an exit the caller is DEAD and on no list, and from the first PendSV on it is never current |
| Calls.DeadForGood | kernel/vulcan_sched.c:191-206 | the same for any dead task and any run |
| Calls.CreateAdds | kernel/vulcan_sched.c:218-270 | a create adds one READY task of the given priority and keeps the others and their order; with 16 tasks it changes nothing |
| Calls.StartSelects | kernel/vulcan_sched.c:317-320 | `vk_start` picks a task of least `priority`, among equals the first created |
| Properties.OnlyCreateInverts | kernel/vulcan_sched.c:266-268 | no step but a create starts a priority inversion that no pending switch ends |
| Properties.RunWithoutInversion | kernel/vulcan_sched.c:114-206 | a run without creates stays free of such inversions |
| Properties.CreateInverts | kernel/vulcan_sched.c:266-270 | a create leaves the running task outranked iff it was so before or the new task is more urgent, and pends nothing |
| Invariant.NextInv | kernel/vulcan_sched.c:114-292 | every step of every task and every interrupt keeps the whole invariant: lists, control, idle task, locks, attended waiters |
| Invariant.ReachableInv | kernel/vulcan_sched.c:99-110 | the state after `vk_sched_init` has the invariant, so every reachable state has it |
| Invariant.NextControl | kernel/vulcan_sched.c:189-206 | a task's place and its position in its code agree after every step |
| Invariant.SchedulePlaces | kernel/vulcan_sched.c:189-206 | as long as one task can run, `_vk_schedule` finds one, and no other task notices |
| Invariant.StoreExGuarded | kernel/vulcan_mutex.c:48-52 | a successful STREX leaves exactly one holder |
| Invariant.SetOwnerGuarded | kernel/vulcan_mutex.c:55 | the store to `owner` makes it agree with the holder |
| Invariant.UnlockGuarded | kernel/vulcan_mutex.c:95-96 | unlock by the holder leaves no holder and no owner |
| Invariant.GoAttended | kernel/vulcan_mutex.c:64-86 | the re-check inside the critical section keeps waiters attended |
| Invariant.UnlockAttended | kernel/vulcan_mutex.c:98-109 | the waiter that unlock wakes is inside the retry loop, so those behind it stay attended |
| Invariant.NextAttended | kernel/vulcan_mutex.c:59-118 | every step keeps the waiters of every mutex attended |
| Deadline.SleepsAsAsked | kernel/vulcan_sched.c:277-284 | in every run the sleep takes exactly the `n` ticks asked for, iff `n` is at least 1 and the deadline does not wrap before `vk_ticks` |
| Deadline.SleepsExactly | kernel/vulcan_sched.c:277-284 | for all tick values: the caller is on the sleep queue throughout a run iff the run has fewer SysTicks than SleepTime, whatever the others do |
| Deadline.SleepTimeExact | kernel/vulcan_sched.c:280 | SleepTime is `n` iff `n` is at least 1 and the sum does not wrap, or the tick is the last one |
| Deadline.SleepTimeOtherwise | kernel/vulcan_sched.c:118-123 | otherwise it is one tick, or a full turn of the counter for a sleep of 0 at the last tick |
| Deadline.WrappedDeadline | kernel/vulcan_sched.c:280 | a deadline that wraps is met too early: three ticks asked for, one slept |
| Scenarios.SleepsFromAnyTick | kernel/vulcan_sched.c:277-284 | for every tick value and every `n` a reachable state calls `vk_task_sleep(n)` at that tick, and sleeps as asked iff the two allow it |
| Deadline.WokenAtDeadline | kernel/vulcan_sched.c:114-123 | a sleeper leaves, and becomes READY, at the SysTick that makes `vk_ticks` its `wake_tick`, and at no other |
| Deadline.WakeExpiredExact | kernel/vulcan_sched.c:118-123 | the SysTick loop takes exactly the sleepers whose deadline has come, though it looks at heads only |
| Deadline.NextAsleep | kernel/vulcan_sched.c:114-123 | no event but a SysTick changes how long a sleeper has left, and a SysTick takes off one |
| Deadline.AsleepExactly | kernel/vulcan_sched.c:114-123 | a sleeper sleeps through a run iff the run has fewer SysTicks than it has left |
| Fairness.BoundedWaiting | kernel/vulcan_sched.c:189-206 | while a task is ready, at most as many switches go to its equals as were ahead of it at the start |
| Fairness.NoOvertaking | kernel/vulcan_sched.c:51-58 | no step adds an equal-priority task ahead of a ready one |
| Fairness.SwitchAdvances | kernel/vulcan_sched.c:189-206 | a switch to an equal uses up one of those ahead |
| Fairness.NextRanks | kernel/vulcan_sched.c:51-58 | tasks that stay ready keep their rank of insertion, newcomers rank behind all |
| Fairness.RoundRobin | kernel/vulcan_sched.c:273-275 | with equal top-priority tasks that only yield, the n-th yield runs the n-th of them, and one round restores the order |
| Fairness.YieldRotates | kernel/vulcan_sched.c:273-275 | call, pend and switch of one yield rotate the peers by one |
| Fairness.SlotBehind | kernel/vulcan_sched.c:51-58 | `_ready_insert` stops behind all tasks that are as urgent |
| Fairness.WokenInOrder | kernel/vulcan_mutex.c:98-109 | a waiter with k others before it stays through exactly k unlocks of its mutex, in every run |
| Fairness.UnlockWakesFirst | include/vulcan_mutex.h:41 | unlock wakes the first waiter alone, hence a most urgent one iff the first is most urgent |
| Fairness.NextWaiter | kernel/vulcan_mutex.c:98-109 | only an unlock moves a waiter, by one; the first becomes READY |
| Scenarios.UrgentWaiterPassedOver | kernel/vulcan_mutex.c:98-108 | a reachable state with two waiters of which unlock wakes the less urgent |
| Scenarios.TakesFree | kernel/vulcan_mutex.c:38-62 | a free mutex is taken by whichever task calls and is left alone for three steps |
| Scenarios.Barging | kernel/vulcan_mutex.c:93-117 | after an unlock with waiters and its switch the mutex is free, any other task that runs its own code can take it, and the woken waiter goes on retrying |
| Scenarios.BargingHappens | kernel/vulcan_mutex.c:93-117 | a run from power-up in which a task that never waited takes the mutex before the woken waiter |
| KernelFacts.ReadyInsertSorted | kernel/vulcan_sched.c:51-58 | `_ready_insert` keeps the queue sorted by priority and FIFO within a priority |
| KernelFacts.InsertKeepsRest | kernel/vulcan_sched.c:51-58 | an insertion leaves all others in their order |
| KernelFacts.ReadyInsertOrderly | kernel/vulcan_sched.c:51-58 | `_ready_insert` of an unlisted task keeps all lists in order |
| KernelFacts.SleepInsertOrderly | kernel/vulcan_sched.c:70-77 | `_sleep_insert` keeps all lists in order, the sleep queue sorted by `wake_tick` |
| KernelFacts.SysTickOrderly | kernel/vulcan_sched.c:114-123 | so does the SysTick loop |
| KernelFacts.ScheduleOrderly | kernel/vulcan_sched.c:189-206 | so does `_vk_schedule`, whether the running task goes back or has queued itself |
| KernelFacts.CreateOrderly | kernel/vulcan_sched.c:255-268 | so does `vk_task_create` |
| KernelFacts.SleepOrderly | kernel/vulcan_sched.c:277-284 | so does `vk_task_sleep` |
| KernelFacts.ExitOrderly | kernel/vulcan_sched.c:286-292 | so does `vk_task_exit` |
| KernelFacts.EnqueueOrderly | kernel/vulcan_mutex.c:74-81 | so does joining a wait queue |
| KernelFacts.UnlockOrderly | kernel/vulcan_mutex.c:93-111 | so does `vk_mutex_unlock` |
| KernelFacts.SleepRemovesNothing | kernel/vulcan_sched.c:61-67 | a RUNNING task is not in the ready queue, so removing it does nothing |
| Links.ReadyInsertSound | kernel/vulcan_sched.c:51-58 | two link writes insert into the ready queue and leave every other list chained |
| Links.SleepInsertSound | kernel/vulcan_sched.c:70-77 | the same for the sleep queue |
| Links.PopSleeperSound | kernel/vulcan_sched.c:119-121 | taking the sleep queue's head off leaves every list chained |
| Links.PopReadySound | kernel/vulcan_sched.c:197-202 | the same for the ready queue |
| Links.PopWaiterSound | kernel/vulcan_mutex.c:100-104 | the same for a wait queue |
| Links.EnqueueSound | kernel/vulcan_mutex.c:74-81 | appending to a wait queue leaves every list chained |
| Links.UnlinkChained | kernel/vulcan_sched.c:61-67 | `_ready_remove` takes out the task if it is there and leaves the rest chained in order |
| Links.UnlinkNothing | kernel/vulcan_sched.c:279 | for a RUNNING task it writes no link that was not NULL |
| Tcb.InsertByPriority | kernel/vulcan_sched.c:51-58 | the in-place loop and splice produce the links of the sorted insertion |
| Tcb.InsertByWake | kernel/vulcan_sched.c:70-77 | the same by `wake_tick` |
| Tcb.RemoveTask | kernel/vulcan_sched.c:61-67 | the in-place removal produces the links of `_ready_remove`, found or not |
| Tcb.AppendWaiter | kernel/vulcan_mutex.c:76-81 | head and tail describe the list with one more at its end |
| Tcb.DetachWaiter | kernel/vulcan_mutex.c:100-104 | head and tail describe the list without its first, both NULL when none is left |
| Tcb.Task.Fill | kernel/vulcan_sched.c:256-264 | the fields of a new record |
| Stack.InitStack | kernel/vulcan_sched.c:224-253 | canaries below; from the stack pointer up zeros for R4-R11, EXC_RETURN, the argument in R0, zeros, the exit function in LR, the entry in PC, the Thumb bit; nothing beyond the stack written |
| Stack.Unused | kernel/vulcan_sched.c:294-299 | the length of the untouched canary prefix, on a stack that is not all canaries |
| Stack.FreshUnused | kernel/vulcan_sched.c:294-299 | for a task that has not run that is all but the frame |
| Sched.Scheduler.constructor | kernel/vulcan_sched.c:99-104 | empty queues stand for no tasks |
| Sched.Scheduler.ReadyInsert | kernel/vulcan_sched.c:51-58 | on the records, the specified insertion, links included |
| Sched.Scheduler.SleepInsert | kernel/vulcan_sched.c:70-77 | on the records, the specified insertion, links included |
| Sched.Scheduler.SysTick | kernel/vulcan_sched.c:114-130 | the handler does to the records what the specified SysTick says, and pends a switch iff the running task is outranked |
| Sched.Scheduler.WakeHead | kernel/vulcan_sched.c:119-122 | one round moves the head of the sleep queue into the ready queue |
| Sched.Scheduler.Schedule | kernel/vulcan_sched.c:189-206 | `_vk_schedule` on the records refines the specified one |
| Sched.Scheduler.Preempt | kernel/vulcan_sched.c:191-194 | the running task goes back to the ready queue |
| Sched.Scheduler.RunNext | kernel/vulcan_sched.c:197-204 | the head of the ready queue becomes current |
| Sched.Scheduler.Sleep | kernel/vulcan_sched.c:278-282 | the critical section of `vk_task_sleep` refines the specified one |
| Sched.Scheduler.UnqueueCurrent | kernel/vulcan_sched.c:279 | `_ready_remove(vk_current)` leaves all records as they are |
| Sched.Scheduler.Exit | kernel/vulcan_sched.c:287-289 | the critical section of `vk_task_exit` refines the specified one |
| Sched.Scheduler.Create | kernel/vulcan_sched.c:210-271 | every status with its condition; on an error nothing of the kernel changes; otherwise one more task, ready, with its stack prepared |
| MutexOps.InitMutex | kernel/vulcan_mutex.c:31-36 | a free mutex with an empty wait queue |
| MutexOps.StoreLocked | kernel/vulcan_mutex.c:48-51 | the store of a successful STREX |
| MutexOps.StoreOwner | kernel/vulcan_mutex.c:55 | the store to `owner` |
| MutexOps.EnqueueOrRetry | kernel/vulcan_mutex.c:65-83 | a free mutex is retried with nothing changed; otherwise the task joins the tail |
| MutexOps.Unlock | kernel/vulcan_mutex.c:93-111 | on the records, the specified unlock: lock and owner cleared, the first waiter ready |
| MutexOps.WakeWaiter | kernel/vulcan_mutex.c:99-109 | the first waiter leaves the wait queue for its slot in the ready queue |
| Cpu.BootScheduler | kernel/vulcan_sched.c:99-110 | `vk_sched_init` leaves the records of the machine's initial state |
| Cpu.Core.Do | kernel/vulcan_sched.c:114-292 | every event of the machine, carried out on the records, gives the machine's next state |
| Cpu.Core.GoRecheck | kernel/vulcan_mutex.c:64-86 | on the records, the step of the machine |
| Cpu.Core.GoStore | kernel/vulcan_mutex.c:48-52 | on the records, the step of the machine |
| Cpu.Core.Step | kernel/vulcan_mutex.c:38-118 | and what it needs is true in every reachable state |
| Cpu.Core.Run | kernel/vulcan_sched.c:114-292 | any run of the machine is carried out on the records, which are in order at its end |
| PoolSpec.RunInv | kernel/vulcan_mem.c:56-95 | under every interleaving free, zeroing and live blocks partition the pool |
| PoolSpec.NextInv | kernel/vulcan_mem.c:56-91 | every single step keeps the partition |
| PoolSpec.EmptyIffAllOut | kernel/vulcan_mem.c:59-62 | an allocation gives NULL iff all blocks are out |
| PoolSpec.FreeThenAlloc | kernel/vulcan_mem.c:84-88 | a freed block is the next one allocated, and the free list is as before the free |
| PoolSpec.AllocGivesZeros | kernel/vulcan_mem.c:64-76 | an allocation takes one free block and ends with nothing but zeros in it |
| PoolSpec.OthersKeepTheirData | kernel/vulcan_mem.c:71-74 | a holder's data stays, whatever the others do, their zeroing loops included |
| PoolMemory.WordRoundTrip | kernel/vulcan_mem.c:85-86 | a pointer stored in a block is loaded back |
| PoolMemory.BlocksApart | kernel/vulcan_mem.c:45-52 | different blocks do not overlap |
| PoolMemory.FreeListSafe | kernel/vulcan_mem.c:71-74 | a write inside a block that is not free leaves every link of the free list |
| PoolMemory.LiveSafe | kernel/vulcan_mem.c:71-74 | it leaves every other live block |
| PoolMemory.PopHeld | kernel/vulcan_mem.c:64-67 | the head's first word is the next head |
| PoolMemory.PushHeld | kernel/vulcan_mem.c:84-88 | a freed block with the old head in its first word is the new head |
| PoolMemory.ReturnHeld | kernel/vulcan_mem.c:71-76 | after its zeroing loop a block holds nothing but zeros, whatever happened meanwhile |
| BlockPool.RoundedIs | kernel/vulcan_mem.c:37-38 | the block size is the least multiple of a word that is at least a word and the size asked for |
| BlockPool.DeclaredStorageSuffices | include/vulcan_mem.h:52-55 | the declared storage holds the rounded blocks iff the size is a word multiple or there are none |
| BlockPool.BlockPool.constructor | kernel/vulcan_mem.c:33-54 | all blocks free, linked in reverse address order through their first words |
| BlockPool.BlockPool.Pop | kernel/vulcan_mem.c:57-69 | takes the head; NULL iff all blocks are out, with nothing changed |
| BlockPool.BlockPool.ZeroByte | kernel/vulcan_mem.c:73-74 | one round, outside the critical section, of any block being zeroed |
| BlockPool.BlockPool.Put | kernel/vulcan_mem.c:71-76 | a holder's write into its own block |
| BlockPool.BlockPool.Free | kernel/vulcan_mem.c:79-91 | the block becomes the head; NULL is ignored |
| BlockPool.BlockPool.Alloc | kernel/vulcan_mem.c:56-77 | left alone: the address of the head, every byte of its block 0, or NULL |
| BlockPool.BlockPool.Perform | kernel/vulcan_mem.c:56-91 | any interleaving of steps on the bytes ends in the specified partition |
| BlockPool.BlockPool.Avail | kernel/vulcan_mem.c:93-95 | the length of the free list |
| Bits.AndClears | kernel/vulcan_mem.c:109 | masking with ones above k zeros clears the low k bits |
| Bits.MaskUpRounds | kernel/vulcan_mem.c:109 | for a power of two the mask form is the least multiple not below its argument, or 0 when that is 2^32 |
| Bits.MaskUpIs | kernel/vulcan_mem.c:109 | the mask form is rounding up, modulo 2^32 |
| Bits.LeastMultipleUnique | kernel/vulcan_mem.c:109 | there is only one least multiple |
| Arena.AcceptsExactly | kernel/vulcan_mem.c:112-113 | the 32-bit test accepts a request iff it fits or its size wraps to something left |
| Arena.WrapAccepted | kernel/vulcan_mem.c:112-113 | a request that wraps is accepted although it does not fit |
| Arena.RunInv | kernel/vulcan_mem.c:106-136 | over any sequence of allocations and resets, in the code's 32-bit arithmetic: regions since the last reset stay aligned, inside and disjoint iff no size wraps, and then `peak` is the most ever used |
| Arena.NextInv | kernel/vulcan_mem.c:106-132 | a single operation keeps that iff it is no allocation whose size wraps |
| Arena.Arena.constructor | kernel/vulcan_mem.c:99-104 | an empty arena |
| Arena.Arena.Take | kernel/vulcan_mem.c:108-119 | for every request, also one that wraps: accepted iff it fits or wraps, at the masked address, with the specified bookkeeping |
| Arena.Arena.Alloc | kernel/vulcan_mem.c:106-127 | NULL iff the aligned request does not fit, with nothing changed; otherwise the aligned address, its bytes zeroed, all other bytes kept |
| Arena.Arena.Perform | kernel/vulcan_mem.c:106-132 | any sequence of allocations and resets on the array, none of which wraps, ends in the specified state |
| Arena.Arena.Reset | kernel/vulcan_mem.c:129-132 | the pointer is back at the base, nothing is in use, the peak and all bytes stay |
| Arena.ResetFreesAll | kernel/vulcan_mem.c:129-132 | after a reset any request up to the whole capacity is served at the start of the buffer |
| Arena.Arena.Used | kernel/vulcan_mem.c:134-136 | the bytes in use, at most the capacity |
| Ring.PushAppends | hal/vulcan_uart.c:116-117 | writing the head slot and moving the head appends, given room |
| Ring.HeadSlotFree | hal/vulcan_uart.c:116 | until the head moves its slot is not part of the contents |
| Ring.PopRemoves | hal/vulcan_uart.c:246-248 | moving the tail takes off the oldest byte |
| UartSpec.TxFifo | hal/vulcan_uart.c:109-130 | after any interleaving, sent followed by buffered bytes are the bytes put, at most 255 buffered |
| UartSpec.TxNextInv | hal/vulcan_uart.c:109-130 | every access and interrupt keeps that, `tx_busy` equal to TXEIE, and `tx_busy` for a non-empty ring except before the kick |
| UartSpec.TxIsrInv | hal/vulcan_uart.c:244-254 | so does the handler |
| UartSpec.Drains | hal/vulcan_uart.c:244-254 | without further puts, n interrupts send the n buffered bytes in order and the next one clears TXEIE |
| UartSpec.FullMeansInterrupt | hal/vulcan_uart.c:110-114 | a producer that finds the ring full has TXEIE set, and after one TXE interrupt it finds room |
| UartSpec.RxFifo | hal/vulcan_uart.c:207-213 | over any interleaving getc returns exactly the bytes that arrived with fewer than 255 unread, in order |
| UartSpec.RxNextInv | hal/vulcan_uart.c:207-242 | every access and interrupt keeps returned plus unread bytes equal to those accepted |
| UartSpec.RxIsrInv | hal/vulcan_uart.c:234-242 | a byte is taken iff fewer than 255 are unread, and no unread slot is overwritten |
| UartSpec.GetWhole | hal/vulcan_uart.c:207-213 | the accesses of an undisturbed getc take the oldest unread byte and no other |
| UartSpec.LineLengthIs | hal/vulcan_uart.c:215-226 | the length of a line is up to the first line end, the room, or the end of the stream |
| UartSpec.LineRead | hal/vulcan_uart.c:215-226 | bytes taken one by one up to there are a line of the accepted stream |
| Uart.Uart.constructor | hal/vulcan_uart.c:43-47 | both rings empty, transmitter idle |
| Uart.Uart.Isr | hal/vulcan_uart.c:230-259 | the whole handler, with either flag, both or none, takes both rings through their specified steps |
| Uart.Uart.IsrTx | hal/vulcan_uart.c:244-254 | on the array, the specified step; the byte written to TDR is the next one put |
| Uart.Uart.IsrRx | hal/vulcan_uart.c:234-242 | on the array, the specified step |
| Uart.Uart.PutPoll | hal/vulcan_uart.c:112-114 | on the array, the specified access |
| Uart.Uart.PutStore | hal/vulcan_uart.c:116 | on the array, the specified access |
| Uart.Uart.PutPublish | hal/vulcan_uart.c:117 | on the array, the specified access |
| Uart.Uart.PutKick | hal/vulcan_uart.c:120-129 | on the array, the specified access |
| Uart.Uart.Putc | hal/vulcan_uart.c:109-130 | with any interrupts before each of its accesses: one more byte put, nothing lost, transmitter busy |
| Uart.Uart.Puts | hal/vulcan_uart.c:132-134 | under the same interrupts, the bytes before the terminator put, in order |
| Uart.Uart.Collect | hal/vulcan_uart.c:183-185 | for every uint32 in either base `tmp` holds the digits, last first, and its 32 bytes are enough |
| Uart.Uart.PutNumber | hal/vulcan_uart.c:169-177 | under the same interrupts, puts the printed number, most significant digit first |
| Uart.Uart.Printf | hal/vulcan_uart.c:142-203 | under the same interrupts, puts what the format and its arguments render to |
| Uart.Uart.GetCheck | hal/vulcan_uart.c:208-209 | on the array, the specified access |
| Uart.Uart.GetLoad | hal/vulcan_uart.c:210 | on the array, the specified access |
| Uart.Uart.GetAdvance | hal/vulcan_uart.c:211 | on the array, the specified access |
| Uart.Uart.Getc | hal/vulcan_uart.c:207-213 | with any interrupts before each of its accesses: -1 iff its check finds nothing unread, otherwise the next byte of the accepted stream |
| Uart.Uart.ReadLine | hal/vulcan_uart.c:215-226 | under any interleaving with the handler: the accepted stream up to the first byte 10 or 13 or `len - 1` bytes, zero-terminated; that byte is consumed iff it stopped on one, and nothing else is lost |
| Format.PrintRoundTrip | hal/vulcan_uart.c:169-189 | parsing what is printed gives the number back, decimal and hexadecimal |
| Format.PrintIntRoundTrip | hal/vulcan_uart.c:156-168 | the same for signed numbers |
| Format.NoLeadingZero | hal/vulcan_uart.c:172 | only 0 starts with a zero |
| Format.PrintDigits | hal/vulcan_uart.c:181-185 | all bytes are digits of the base |
| Format.PrintLength | hal/vulcan_uart.c:173 | a number below b^k has at most k digits |
| Format.Print32 | hal/vulcan_uart.c:146 | a uint32 has at most 10 decimal and 8 hexadecimal digits |
| Format.LastDigit | hal/vulcan_uart.c:185 | one round of the digit loop takes off the last digit |
| Format.RenderParts | hal/vulcan_uart.c:147-201 | a whole format, without zero bytes, prints the concatenation of what its parts print, each directive with its own argument |
| Format.PrintsDecimal | hal/vulcan_uart.c:169-177 | `%u` prints decimal digits that parse back to its argument, at most 10, no leading zero |
| Format.PrintsHex | hal/vulcan_uart.c:179-189 | `%x` and `%X` print hexadecimal digits, in their case, that parse back to the argument, at most 8, no leading zero |
| Format.PrintsSigned | hal/vulcan_uart.c:156-168 | `%d` and `%i` print a minus sign iff the argument is negative and the decimal numeral of its magnitude |
| Format.PrintsText | hal/vulcan_uart.c:151-155 | `%s` prints its text, or `(null)`; `%c` its byte; `%%` one percent sign |
| Format.PrintsUnknown | hal/vulcan_uart.c:196-199 | any other directive comes out as it stands and takes no argument |
| Format.PrintsPlain | hal/vulcan_uart.c:148 | text without percent signs comes out as it stands |
| Format.DigitTable | hal/vulcan_uart.c:181-182 | the sixteen digits are those of the two tables |
| Format.WidthIsLiteral | hal/vulcan_uart.c:196-199 | `%02X` comes out as it stands and takes no argument |

## Left out

- Registers and stacks at a switch: `PendSV_Handler` and the assembly of `vk_start` are not part of this model; a switch is `_vk_schedule`, and `vk_start` is its queue part.
- FPU lazy stacking, WFI, barriers, the vector table, start-up code, linker script and build files.
- `hal/vulcan_dma.c`, `hal/vulcan_adc.c`, `hal/vulcan_spi.c`, `hal/vulcan_gpio.c`, `hal/vulcan_clock.c` and the demo tasks of `main.c`: register plumbing and sample code.
- The hardware part of `vk_uart_init`, the choice of UART, overrun flags and `vk_uart_write`, which is `vk_uart_puts` with a length.
- Termination of the LDREX/STREX loop and of `vk_mutex_lock`: both can be disturbed for ever, and the wake order does not decide who gets the lock.
- Properties.WaitersAreAttended: says that somebody will retry, not that a given waiter gets the lock, because a third task can take it first.
- Uart.Uart.AwaitRoom: the TXE interrupt that is due comes after any finite number of looks; that it never comes is left out, because the code then waits for ever.
- Uart.Uart.ReadLine: a wait for ever appears as a call that is left while it still waits, after any finite number of yields.
- Uart.Uart.Printf: `%d` of INT_MIN, whose negation is undefined in C, is excluded.
- Several producers on one UART (`tx_mutex` is initialised and never taken), and several tasks on one arena, which has no critical section.
- Misuse that the code does not check: double free, foreign pointers, unlock by another task. A task that locks twice waits for itself, and one that exits with a mutex leaves it locked; the model lets both happen.
- Cpu.Core.CreateTask: `vk_task_create` is one step, although `task_count` is read and bumped outside its critical section; each created task has a new record and a stack of 64 words.
- Arena.Arena.Alloc: a size that wraps is excluded, because the zeroing loop then writes outside the buffer, which C leaves undefined; what the code does up to that loop is in `Arena.Arena.Take`.
- Arena.Arena.constructor: the buffer ends before the last address, so that the pointer past it is not 0.
- The `name` field of a task and the `rx_cb` callback, which nothing here reads.
