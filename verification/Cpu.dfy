/**
 The machine on the real records: every event runs the code of
 kernel/vulcan_sched.c and kernel/vulcan_mutex.c that it stands for, and what
 it does to the records is what Machine says.
 */
module Cpu {
  import opened Basics
  import opened KernelSpec
  import opened Tcb
  import opened Sched
  import opened Machine
  import Invariant
  import Links
  import MutexOps

  /** Addresses of a task's entry point and of `vk_task_exit`: any non-zero values do. */
  const ENTRY := 1
  const EXIT := 2

  class Core {
    const sched: Scheduler
    var mutexes: seq<Mutex>
    var pc: seq<Pc>
    var pendsv: bool
    var monitor: bool
    ghost var held: seq<set<nat>>

    /** The machine state that the records stand for. */
    ghost function View(): State
      reads this, sched
    {
      State(sched.v.k, pc, held, pendsv, monitor)
    }

    /** The records are in order and stand for a shaped state. */
    ghost predicate Intact()
      reads this, sched, sched.tcbs, sched.mutexes
    {
      sched.Valid() && mutexes == sched.mutexes && Shaped(View())
    }

    ghost predicate Valid()
      reads this, sched, sched.tcbs, sched.mutexes
    {
      Intact() && Reachable(View())
    }

    /** `vk_sched_init`. */
    constructor ()
      ensures Valid() && View() == Init() && fresh(Objects())
    {
      hide Boot, Links.Sound, Shaped;
      var s := BootScheduler();
      sched := s;
      mutexes, pc, held, pendsv, monitor := [], [User], [{}], false, false;
      new;
      assert View() == Init();
      InitReachable();
      hide Init, Reachable;
      assert Objects() == {this} + s.repr;
    }

    /** Everything reachable from the core. */
    ghost function Objects(): set<object>
      reads sched`repr
    {
      {this} + sched.repr
    }

    method Tick()
      requires Intact()
      modifies this`pendsv, this`monitor, sched`ticks, sched`readyQueue, sched`sleepQueue, sched`v
      modifies sched.tcbs`next, sched.tcbs`state
      ensures View() == TickStep(old(View())) && Intact()
    {
      hide Linked, Named, Prios, Wakes, States, Guards, AllDifferent, Links.Threaded, Kernel.Listed;
      var pend := sched.SysTick();
      pendsv := pendsv || pend;
      monitor := false;
    }

    /** Any exception clears the local monitor. */
    method Interrupt()
      requires Intact()
      modifies this`monitor
      ensures View() == Next(old(View()), Irq) && Intact()
    {
      monitor := false;
    }

    method Switch()
      requires Intact() && pendsv
      modifies this`pendsv, this`monitor, sched`current, sched`readyQueue, sched`v
      modifies sched.tcbs`next, sched.tcbs`state
      ensures View() == Next(old(View()), PendSV) && Intact()
    {
      sched.Schedule();
      pendsv := false;
      monitor := false;
    }

    /** The queue part of `vk_start`. */
    method Launch()
      requires Intact() && sched.v.k.current.None?
      modifies sched`current, sched`readyQueue, sched`v, sched.tcbs`next, sched.tcbs`state
      ensures View() == Next(old(View()), Start) && Intact()
    {
      sched.RunNext();
    }

    /** `vk_task_create` with a new record and a new stack. */
    method CreateTask(p: Prio)
      requires Intact()
      modifies this`pc, this`held, sched`taskCount, sched`readyQueue, sched`tcbs, sched`repr, sched`v, sched.tcbs`next
      ensures View() == Machine.CreateTask(old(View()), p) && Intact()
      ensures sched.mutexes == old(sched.mutexes) && fresh(sched.repr - old(sched.repr))
    {
      hide Links.Sound, Scheduler.Holds;
      var ok := NewTask(sched, p);
      if ok {
        pc := pc + [User];
        held := held + [{}];
      }
    }

    method AddMutex()
      requires Intact()
      modifies this`mutexes, sched`mutexes, sched`repr, sched`v
      ensures View() == Machine.AddMutex(old(View())) && Intact()
      ensures sched.tcbs == old(sched.tcbs) && fresh(sched.repr - old(sched.repr))
    {
      var m := MutexOps.InitMutex(sched);
      mutexes := mutexes + [m];
    }

    /** The id of the running task. */
    function Me(): (c: nat)
      requires Intact() && sched.v.k.current.Some?
      reads this, sched, sched.tcbs, sched.mutexes
      ensures c == sched.v.k.current.value
    {
      sched.current.id
    }

    /** The running task moves on to `p`. */
    method Goto(p: Pc)
      requires Intact() && sched.v.k.current.Some? && PcInRange(p, sched.v.k.M())
      modifies this`pc
      ensures View() == At(old(View()), old(sched.v.k), p) && Intact()
    {
      pc := pc[Me() := p];
    }

    /** The same, now holding the mutexes `h`. */
    method GotoHolding(p: Pc, ghost h: set<nat>)
      requires Intact() && sched.v.k.current.Some? && PcInRange(p, sched.v.k.M())
      modifies this`pc, this`held
      ensures Intact()
      ensures View() == At(old(View()), old(sched.v.k), p).(held := old(held)[old(sched.v.k.current.value) := h])
    {
      held := held[Me() := h];
      pc := pc[Me() := p];
    }

    // ---- API calls

    method CallSleep(n: KernelSpec.Tick)
      requires Intact() && OnCpuNow(View())
      modifies this`pc, sched`readyQueue, sched`sleepQueue, sched`v
      modifies sched.tcbs`next, sched.tcbs`state, sched.tcbs`wakeTick
      ensures View() == At(old(View()), KernelSpec.Sleep(old(sched.v.k), n), Trigger(ToUser)) && Intact()
    {
      sched.Sleep(n);
      Goto(Trigger(ToUser));
    }

    method CallExit()
      requires Intact() && OnCpuNow(View())
      modifies this`pc, sched`v, sched.tcbs`state
      ensures View() == At(old(View()), KernelSpec.Exit(old(sched.v.k)), Trigger(ToGone)) && Intact()
    {
      sched.Exit();
      Goto(Trigger(ToGone));
    }

    method CallUnlock(m: nat)
      requires Intact() && OnCpuNow(View()) && m < sched.v.k.M()
      modifies this`pc, this`held, sched`readyQueue, sched`v, sched.tcbs`next, sched.tcbs`state, sched.mutexes
      ensures Intact()
      ensures var s, c := old(View()), old(sched.v.k.current.value);
        View() == At(s, KernelSpec.Unlock(s.k, m), Trigger(ToUser)).(held := s.held[c := s.held[c] - {m}])
    {
      hide Linked, Named, Prios, Wakes, States, Links.Threaded, Kernel.Listed;
      MutexOps.Unlock(sched, mutexes[m], m);
      GotoHolding(Trigger(ToUser), held[Me()] - {m});
    }

    /** The first step of an API call. */
    method DoCall(a: Api)
      requires Intact() && InUserCode(View()) && Allowed(View(), a) && OnCpuNow(View())
      modifies this`pc, this`held, sched`readyQueue, sched`sleepQueue, sched`v
      modifies sched.tcbs`next, sched.tcbs`state, sched.tcbs`wakeTick, sched.mutexes
      ensures View() == CallStep(old(View()), a) && Intact()
    {
      match a
      case Yield => Goto(Trigger(ToUser));
      case Sleep(n) => CallSleep(n);
      case Exit => CallExit();
      case Lock(m) => Goto(LoadEx(m, true));
      case TryLock(m) => Goto(LoadEx(m, false));
      case Unlock(m) => CallUnlock(m);
    }

    // ---- Steps inside an API call

    method GoTrigger(k: Cont)
      requires Intact() && Enabled(View(), Go) && pc[sched.v.k.current.value] == Trigger(k)
      modifies this`pc, this`pendsv
      ensures View() == GoStep(old(View())) && Intact()
    {
      Goto(After(k));
      pendsv := true;
    }

    method GoLoad(m: nat, b: bool)
      requires Intact() && Enabled(View(), Go) && pc[sched.v.k.current.value] == LoadEx(m, b)
      modifies this`pc, this`monitor
      ensures View() == GoStep(old(View())) && Intact()
    {
      var was := mutexes[m].locked;
      monitor := was == 0;
      Goto(if was == 0 then StoreEx(m, b) else if b then Recheck(m) else User);
    }

    method GoStore(m: nat, b: bool)
      requires Intact() && Enabled(View(), Go) && pc[sched.v.k.current.value] == StoreEx(m, b)
      modifies this`pc, this`held, this`monitor, sched`v, sched.mutexes
      ensures View() == GoStep(old(View())) && Intact()
    {
      if monitor {
        StoreSucceeds(m, b);
      } else {
        Goto(LoadEx(m, b));
      }
    }

    method StoreSucceeds(m: nat, b: bool)
      requires Intact() && sched.v.k.current.Some? && m < sched.v.k.M()
      modifies this`pc, this`held, this`monitor, sched`v, sched.mutexes
      ensures Intact()
      ensures var s, c := old(View()), old(sched.v.k.current.value);
        View() == At(s, Locked(s.k, m, true), SetOwner(m, b)).(held := s.held[c := s.held[c] + {m}], monitor := false)
    {
      hide Linked, Named, Prios, Wakes, States, Links.Threaded, Kernel.Listed;
      MutexOps.StoreLocked(sched, mutexes[m], m, true);
      monitor := false;
      GotoHolding(SetOwner(m, b), held[Me()] + {m});
    }

    method GoOwner(m: nat)
      requires Intact() && Enabled(View(), Go)
      requires pc[sched.v.k.current.value].SetOwner? && pc[sched.v.k.current.value].m == m
      modifies this`pc, sched`v, sched.mutexes
      ensures View() == GoStep(old(View())) && Intact()
    {
      hide Linked, Prios, Wakes, States, Links.Threaded, Kernel.Listed;
      MutexOps.StoreOwner(sched, mutexes[m], m, sched.current, sched.v.k.current);
      Goto(User);
    }

    method GoRecheck(m: nat)
      requires Intact() && Enabled(View(), Go) && pc[sched.v.k.current.value] == Recheck(m) && OnCpuNow(View())
      modifies this`pc, sched`v, sched.tcbs`next, sched.tcbs`state, sched.mutexes
      ensures View() == GoStep(old(View())) && Intact()
    {
      var retry := MutexOps.EnqueueOrRetry(sched, mutexes[m], m);
      Goto(if retry then LoadEx(m, true) else Trigger(ToRetry(m)));
    }

    /** The next step inside an API call. */
    method DoGo()
      requires Intact() && Enabled(View(), Go) && (pc[sched.v.k.current.value].Recheck? ==> OnCpuNow(View()))
      modifies this`pc, this`held, this`pendsv, this`monitor, sched`v
      modifies sched.tcbs`next, sched.tcbs`state, sched.mutexes
      ensures View() == GoStep(old(View())) && Intact()
    {
      match pc[Me()]
      case User => assert false;
      case Gone => assert false;
      case Trigger(k) => GoTrigger(k);
      case LoadEx(m, b) => GoLoad(m, b);
      case StoreEx(m, b) => GoStore(m, b);
      case SetOwner(m, _) => GoOwner(m);
      case Recheck(m) => GoRecheck(m);
    }

    // ---- Events and runs

    /** One event, on the records. */
    method Do(e: Event)
      requires Intact() && Enabled(View(), e) && (NeedsCpu(View(), e) ==> OnCpuNow(View()))
      modifies Objects()
      ensures View() == Next(old(View()), e) && Intact()
      ensures fresh(Objects() - old(Objects()))
    {
      hide Linked, Named, Prios, Wakes, States, Guards, AllDifferent, Links.Threaded, Kernel.Listed;
      match e
      case Tick => Tick();
      case Irq => Interrupt();
      case PendSV => Switch();
      case Start => Launch();
      case Create(p) => CreateTask(p);
      case InitMutex => AddMutex();
      case Call(a) => DoCall(a);
      case Go => DoGo();
    }

    method Step(e: Event)
      requires Valid() && Enabled(View(), e)
      modifies Objects()
      ensures Valid() && View() == Next(old(View()), e)
      ensures fresh(Objects() - old(Objects()))
    {
      NextReachable(View(), e);
      CpuWhenNeeded(View(), e);
      Do(e);
    }

    /** Any run of the machine from here: the records follow it event by event and are in order at its end. */
    method Run(es: seq<Event>)
      requires Valid() && CanRun(View(), es)
      modifies Objects()
      ensures Valid() && View() == Machine.Run(old(View()), es)
      ensures fresh(Objects() - old(Objects()))
      decreases |es|
    {
      hide Links.Sound, Scheduler.Holds;
      if es != [] {
        Step(es[0]);
        Run(es[1..]);
      }
    }
  }

  /** The current task is marked RUNNING. */
  ghost predicate OnCpuNow(s: State)
    requires Shaped(s)
  {
    s.k.current.Some? && s.k.place[s.k.current.value] == OnCpu
  }

  /** Events that read or move the running task's own record. */
  ghost predicate NeedsCpu(s: State, e: Event)
    requires Shaped(s)
  {
    e.Call? || (e.Go? && s.k.current.Some? && s.pc[s.k.current.value].Recheck?)
  }

  lemma CpuWhenNeeded(s: State, e: Event)
    requires Reachable(s) && Enabled(s, e)
    ensures NeedsCpu(s, e) ==> OnCpuNow(s)
  {
    Invariant.ReachableInv(s);
  }

  /** `vk_task_create` with a new record and a new stack; it fails only when there are too many tasks. */
  method NewTask(s: Scheduler, p: Prio) returns (ok: bool)
    requires s.Valid()
    modifies s`taskCount, s`readyQueue, s`tcbs, s`repr, s`v, s.tcbs`next
    ensures s.Valid() && s.v.k == KernelSpec.Create(old(s.v.k), p) && s.mutexes == old(s.mutexes)
    ensures ok == (old(s.v.k).N() < MAX_TASKS)
    ensures fresh(s.repr - old(s.repr))
  {
    hide Linked, Named, Prios, Wakes, States, Guards, AllDifferent, Links.Threaded, Kernel.Listed;
    var t := new Task();
    var stack := new int[64];
    var status := s.Create(t, ENTRY, 0, stack, 64, p, EXIT);
    ok := status == VK_OK;
  }

  /** `vk_sched_init`: no tasks, then the idle task. */
  method BootScheduler() returns (s: Scheduler)
    ensures s.Valid() && s.v.k == Boot() && s.mutexes == [] && fresh(s.repr)
  {
    hide Links.Sound, Scheduler.Holds;
    s := new Scheduler();
    ghost var r := s.repr;
    var ok := NewTask(s, IDLE_PRIO);
    assert s.repr <= r + (s.repr - r);
  }
}
