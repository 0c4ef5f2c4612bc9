/** kernel/vulcan_sched.c on real task records: every function refines its counterpart in KernelSpec. */
module Sched {
  import opened Basics
  import opened KernelSpec
  import opened KernelFacts
  import opened Links
  import opened Tcb
  import opened Words
  import Stack

  const VK_OK := 0
  const VK_ERR_FULL := -1
  const VK_ERR_PARAM := -4

  /** `_ready_insert` sets the state itself: marking the task beforehand makes no difference. */
  lemma MarkedInsert(k: Kernel, c: nat)
    requires k.Shaped() && c < k.N()
    ensures KernelSpec.ReadyInsert(k.(place := k.place[c := InReady]), c) == KernelSpec.ReadyInsert(k, c)
  {
  }

  /**
   The scheduler's globals.  `v` is the value that they and all the records
   stand for: the kernel's data, and the ids behind the `next` pointers.
   */
  class Scheduler {
    var current: Task?
    var ticks: int
    var readyQueue: Task?
    var sleepQueue: Task?
    var taskCount: int

    ghost var tcbs: seq<Task>
    ghost var mutexes: seq<Mutex>
    ghost var repr: set<object>
    ghost var v: Image

    ghost predicate Valid()
      reads this, tcbs, mutexes
    {
      Sound(v) && Holds(v.k, v.link)
    }

    /** The records and globals hold the data of `k` and `link`. */
    ghost predicate Holds(k: Kernel, link: Link)
      reads this, tcbs, mutexes
    {
      && this in repr && (forall x :: 0 <= x < |tcbs| ==> tcbs[x] in repr)
      && (forall m :: 0 <= m < |mutexes| ==> mutexes[m] in repr)
      && AllDifferent(mutexes) && taskCount == |tcbs| == |k.prio|
      && Linked(tcbs, link) && Named(tcbs) && Prios(tcbs, k.prio) && Wakes(tcbs, k.wake) && States(tcbs, k.place)
      && Guards(mutexes, tcbs, k.locked, k.owner, k.waits)
      && current == Ptr(tcbs, k.current) && ticks == k.ticks
      && readyQueue == Ptr(tcbs, Nth(k.ready, 0)) && sleepQueue == Ptr(tcbs, Nth(k.sleepers, 0))
    }

    /** `vk_sched_init`, up to the creation of the idle task. */
    constructor ()
      ensures Valid() && tcbs == [] && mutexes == [] && repr == {this}
      ensures v == Image(Blank(), [])
    {
      current, ticks, readyQueue, sleepQueue, taskCount := null, 0, null, null, 0;
      tcbs, mutexes, repr := [], [], {this};
      v := Image(Blank(), []);
      BlankSound();
    }

    /** `t` is one of the created tasks. */
    ghost predicate Created(t: Task)
      reads this, t
    {
      0 <= t.id < |tcbs| && tcbs[t.id] == t
    }

    /** `_ready_insert` of a task that is on no list. */
    method ReadyInsert(t: Task)
      requires Valid() && Created(t) && v.k.Unlisted(t.id)
      modifies this`readyQueue, this`v, tcbs`next, t`state
      ensures Holds(v.k, v.link) && v == Links.ReadyInsert(old(v), old(t.id))
    {
      hide Guards, Prios, Wakes, AllDifferent;
      ghost var x := t.id;
      readyQueue := InsertByPriority(readyQueue, t, tcbs, v.link, v.k.ready, v.k.prio, x);
      v := Links.ReadyInsert(v, x);
    }

    /** `_sleep_insert` of a task that is on no list. */
    method SleepInsert(t: Task)
      requires Valid() && Created(t) && v.k.Unlisted(t.id)
      modifies this`sleepQueue, this`v, tcbs`next, t`state
      ensures Holds(v.k, v.link) && v == Links.SleepInsert(old(v), old(t.id))
    {
      hide Guards, Prios, Wakes, AllDifferent;
      ghost var x := t.id;
      sleepQueue := InsertByWake(sleepQueue, t, tcbs, v.link, v.k.sleepers, v.k.wake, x);
      v := Links.SleepInsert(v, x);
    }

    // ---- SysTick_Handler

    /** The first three statements of the SysTick loop: take the head off the sleep queue. */
    method TakeSleeper() returns (t: Task)
      requires Valid() && sleepQueue != null
      modifies this`sleepQueue, this`v, tcbs`next
      ensures v.k.sleepers == old(v.k.sleepers)[1..] && t == tcbs[old(v.k.sleepers)[0]]
      ensures Holds(v.k, v.link) && v == Links.PopSleeper(old(v))
    {
      hide Prios, Wakes, States, Guards, AllDifferent;
      PopSleeperSound(v);
      t := sleepQueue;
      sleepQueue := t.next;
      t.next := null;
      v := Links.PopSleeper(v);
    }

    /** One round of the SysTick loop. */
    method WakeHead()
      requires Valid() && sleepQueue != null
      modifies this`readyQueue, this`sleepQueue, this`v, tcbs`next, tcbs`state
      ensures Valid()
      ensures v.k == KernelSpec.ReadyInsert(old(v.k).(sleepers := old(v.k.sleepers)[1..]), old(v.k.sleepers)[0])
    {
      hide Linked, Prios, Wakes, States, Guards, AllDifferent, Threaded, Kernel.Listed;
      ghost var x := v.k.sleepers[0];
      PopSleeperSound(v);
      var t := TakeSleeper();
      ReadyInsertSound(v, x);
      ReadyInsert(t);
    }

    /** `vk_ticks++`. */
    method Advance()
      requires Valid()
      modifies this`ticks, this`v
      ensures Valid() && v == old(v).(k := old(v.k).(ticks := Add32(old(v.k.ticks), 1)))
    {
      SetTicksSound(v, Add32(v.k.ticks, 1));
      ticks := (ticks + 1) % 0x1_0000_0000;
      v := v.(k := v.k.(ticks := Add32(v.k.ticks, 1)));
    }

    /** The condition of the SysTick loop. */
    function HeadExpired(): (b: bool)
      requires Valid()
      reads this, tcbs, mutexes
      ensures b == (v.k.sleepers != [] && v.k.wake[v.k.sleepers[0]] <= v.k.ticks)
      ensures b ==> sleepQueue != null
    {
      sleepQueue != null && sleepQueue.wakeTick <= ticks
    }

    /** `SysTick_Handler`; `pend` is whether it pends a switch. */
    method SysTick() returns (pend: bool)
      requires Valid()
      modifies this`ticks, this`readyQueue, this`sleepQueue, this`v, tcbs`next, tcbs`state
      ensures Valid() && v.k == KernelSpec.SysTick(old(v.k))
      ensures pend == Outranked(v.k)
    {
      hide Linked, Prios, Wakes, States, Guards, AllDifferent, Threaded, Kernel.Listed;
      ghost var goal := KernelSpec.SysTick(v.k);
      Advance();
      while HeadExpired()
        invariant Valid() && WakeExpired(v.k) == goal
        decreases |v.k.sleepers|
      {
        WakeHead();
      }
      pend := HeadOutranks();
    }

    method HeadOutranks() returns (pend: bool)
      requires Valid()
      ensures pend == Outranked(v.k)
    {
      pend := readyQueue != null && current != null && readyQueue.priority < current.priority;
    }

    // ---- _vk_schedule and vk_start

    /** Pop the head of the ready queue, if any, and make it current. */
    method RunNext()
      requires Valid()
      modifies this`current, this`readyQueue, this`v, tcbs`next, tcbs`state
      ensures Valid() && v.k == KernelSpec.PopReady(old(v.k))
    {
      hide Threaded, Kernel.Listed, Named, Prios, Wakes, States, Guards;
      ghost var v0 := v;
      PopReadySound(v);
      var next := readyQueue;
      if next != null {
        TakeHead();
      }
      current := next;
      v := Links.PopReady(v0);
    }

    /** Its inner block: the head comes off and is RUNNING. */
    method TakeHead()
      requires Valid() && readyQueue != null
      modifies this`readyQueue, this`v, tcbs`next, tcbs`state
      ensures Holds(v.k, v.link)
      ensures v == var r := Links.PopReady(old(v)); r.(k := r.k.(current := old(v.k.current)))
    {
      hide Threaded, Kernel.Listed;
      var next := readyQueue;
      TakeReady();
      SetRunning(next);
    }

    /** `next->state = VK_TASK_RUNNING`. */
    method SetRunning(t: Task)
      requires v.k.Shaped() && Holds(v.k, v.link) && Created(t)
      modifies this`v, t`state
      ensures Holds(v.k, v.link) && v == old(v).(k := old(v.k).(place := old(v.k.place)[old(t.id) := OnCpu]))
    {
      t.state := Running;
      v := v.(k := v.k.(place := v.k.place[t.id := OnCpu]));
    }

    /** Take the head off the ready queue. */
    method TakeReady()
      requires Valid() && readyQueue != null
      modifies this`readyQueue, this`v, tcbs`next
      ensures Holds(v.k, v.link)
      ensures v == Image(old(v.k).(ready := old(v.k.ready)[1..]), old(v.link)[old(v.k.ready)[0] := None])
    {
      hide Prios, Wakes, States, Guards, AllDifferent;
      PopReadySound(v);
      var next := readyQueue;
      readyQueue := next.next;
      next.next := null;
      v := Image(v.k.(ready := v.k.ready[1..]), v.link[v.k.ready[0] := None]);
    }

    /** `_vk_schedule`. */
    method Schedule()
      requires Valid()
      modifies this`current, this`readyQueue, this`v, tcbs`next, tcbs`state
      ensures Valid() && v.k == KernelSpec.Schedule(old(v.k))
    {
      hide Linked, Prios, Wakes, Guards, AllDifferent, Threaded, Kernel.Listed;
      if current != null && current.state == Running {
        Preempt();
      }
      RunNext();
    }

    /** Move the running task back to the ready queue. */
    method Preempt()
      requires Valid() && v.k.current.Some? && v.k.place[v.k.current.value] == OnCpu
      modifies this`readyQueue, this`v, tcbs`next, tcbs`state
      ensures Valid() && v.k == KernelSpec.ReadyInsert(old(v.k), old(v.k.current.value))
    {
      ghost var c := v.k.current.value;
      MarkedInsert(v.k, c);
      SetPlaceSound(v, c, InReady);
      MarkReady();
      ReadyInsertSound(v, c);
      hide KernelSpec.ReadyInsert, Splice, Threaded;
      ReadyInsert(current);
    }

    /** `vk_current->state = VK_TASK_READY`. */
    method MarkReady()
      requires Valid() && v.k.current.Some? && v.k.place[v.k.current.value] == OnCpu
      modifies this`v, current`state
      ensures Valid() && v == old(v).(k := old(v.k).(place := old(v.k.place)[old(v.k.current.value) := InReady]))
    {
      hide Prios, Wakes, Guards, AllDifferent, Threaded, Kernel.Listed;
      SetPlaceSound(v, v.k.current.value, InReady);
      current.state := Ready;
      v := v.(k := v.k.(place := v.k.place[v.k.current.value := InReady]));
    }

    // ---- vk_task_sleep and vk_task_exit

    /** The critical section of `vk_task_sleep`. */
    method Sleep(n: KernelSpec.Tick)
      requires Valid() && v.k.current.Some? && v.k.place[v.k.current.value] == OnCpu
      modifies this`readyQueue, this`sleepQueue, this`v, tcbs`next, tcbs`state, tcbs`wakeTick
      ensures Valid() && v.k == KernelSpec.Sleep(old(v.k), n)
    {
      hide Linked, Prios, Wakes, States, Guards, AllDifferent, Threaded, Kernel.Listed;
      ghost var c := v.k.current.value;
      UnlinkNothing(v, c);
      UnqueueCurrent();
      SetWake(n);
      SleepInsertSound(v, c);
      SleepInsert(current);
    }

    /** `_ready_remove(vk_current)`: nothing changes. */
    method UnqueueCurrent()
      requires Valid() && v.k.current.Some? && v.k.place[v.k.current.value] == OnCpu
      modifies this`readyQueue, tcbs`next
      ensures Valid() && v == old(v)
    {
      UnlinkNothing(v, v.k.current.value);
      hide Unlink, HeadAfter, Without;
      readyQueue := RemoveTask(readyQueue, current, tcbs, v.link, v.k.ready, v.k.current.value);
    }

    /** `vk_current->wake_tick = vk_ticks + ticks`. */
    method SetWake(n: KernelSpec.Tick)
      requires Valid() && v.k.current.Some?
      modifies this`v, current`wakeTick
      ensures Valid()
      ensures v == old(v).(k := old(v.k).(wake := old(v.k.wake)[old(v.k.current.value) := Add32(old(v.k.ticks), n)]))
    {
      hide Threaded, Kernel.Listed;
      SetWakeSound(v, v.k.current.value, Add32(v.k.ticks, n));
      current.wakeTick := (ticks + n) % 0x1_0000_0000;
      v := v.(k := v.k.(wake := v.k.wake[v.k.current.value := Add32(v.k.ticks, n)]));
    }

    /** The critical section of `vk_task_exit`. */
    method Exit()
      requires Valid() && v.k.current.Some? && v.k.place[v.k.current.value] == OnCpu
      modifies this`v, current`state
      ensures Valid() && v.k == KernelSpec.Exit(old(v.k))
    {
      hide Prios, Wakes, Guards, AllDifferent, Threaded, Kernel.Listed;
      SetPlaceSound(v, v.k.current.value, Exited);
      current.state := Dead;
      v := v.(k := KernelSpec.Exit(v.k));
    }

    // ---- vk_task_create

    /** `vk_task_create` for a record not in use; `exit` is the address of `vk_task_exit`. */
    method Create(tcb: Task?, fn: int, arg: int, stack: array?<int>, words: int, priority: Prio, exit: int)
      returns (status: int)
      requires Valid() && (tcb != null ==> tcb !in tcbs)
      requires stack != null ==> words <= stack.Length
      modifies this`taskCount, this`readyQueue, this`tcbs, this`repr, this`v, tcbs`next, tcb, stack
      ensures Valid() && mutexes == old(mutexes)
      ensures status == if tcb == null || fn == 0 || stack == null || words < 32 then VK_ERR_PARAM
                        else if old(taskCount) >= MAX_TASKS then VK_ERR_FULL else VK_OK
      ensures status != VK_OK ==> v == old(v) && tcbs == old(tcbs) && repr == old(repr)
      ensures status == VK_OK ==>
        v.k == KernelSpec.Create(old(v.k), priority) && tcbs == old(tcbs) + [tcb] && repr == old(repr) + {tcb}
      ensures status == VK_OK ==> tcb.sp == words - Stack.FRAME_WORDS && Stack.Prepared(stack, words, fn, arg, exit)
    {
      hide Linked, Prios, Wakes, States, Guards, AllDifferent, Threaded, Kernel.Listed;
      if tcb == null || fn == 0 || stack == null || words < 32 {
        return VK_ERR_PARAM;
      }
      if taskCount >= MAX_TASKS {
        return VK_ERR_FULL;
      }
      var sp := Stack.InitStack(stack, words, fn, arg, exit);
      tcb.Fill(sp, priority, taskCount, stack, words);
      Admit(tcb);
      status := VK_OK;
    }

    /** Put a task whose record is filled in on the ready queue. */
    method Admit(tcb: Task)
      requires Valid() && tcb !in tcbs && taskCount < MAX_TASKS
      requires tcb.state == Dead && tcb.id == taskCount && 0 <= tcb.priority < 256 && tcb.wakeTick == 0 && tcb.next == null
      modifies this`taskCount, this`readyQueue, this`tcbs, this`repr, this`v, tcbs`next, tcb`next, tcb`state
      ensures Valid() && v.k == KernelSpec.Create(old(v.k), tcb.priority) && tcbs == old(tcbs) + [tcb] && repr == old(repr) + {tcb}
    {
      hide Linked, Prios, Wakes, States, Guards, AllDifferent, Threaded, Kernel.Listed;
      RegisterSound(v, tcb.priority);
      Register(tcb);
      ReadyInsertSound(v, tcb.id);
      ReadyInsert(tcb);
    }

    /** Count the new task, whose record is filled in. */
    method Register(tcb: Task)
      requires Valid() && tcb !in tcbs && taskCount < MAX_TASKS
      requires tcb.state == Dead && tcb.id == taskCount && 0 <= tcb.priority < 256 && tcb.wakeTick == 0 && tcb.next == null
      modifies this`taskCount, this`tcbs, this`repr, this`v
      ensures Holds(v.k, v.link) && v == Links.Register(old(v), tcb.priority)
      ensures tcbs == old(tcbs) + [tcb] && repr == old(repr) + {tcb}
    {
      LinkedMore(tcbs, v.link, tcb);
      FieldsMore(tcbs, v.k, tcb);
      GuardsMore(mutexes, tcbs, v.k, tcb);
      hide Linked, Named, Prios, Wakes, States, Guards, AllDifferent;
      taskCount := taskCount + 1;
      tcbs, repr := tcbs + [tcb], repr + {tcb};
      v := Links.Register(v, tcb.priority);
    }
  }
}
