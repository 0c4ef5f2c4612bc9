/** The invariant of the machine, kept by every step and so true in every reachable state. */
module Invariant {
  import opened Basics
  import opened KernelSpec
  import opened KernelFacts
  import opened Machine
  import opened Words

  /** Where a task in place `p` can be in its code. */
  ghost predicate Fits(p: Place, pc: Pc) {
    match p
    case Exited => pc in {Trigger(ToGone), Gone}
    case Sleeping => pc in {Trigger(ToUser), User}
    case Waiting(m) => pc in {Trigger(ToRetry(m)), LoadEx(m, true)}
    case InReady => pc !in {Trigger(ToGone), Gone}
    case OnCpu => pc !in {Trigger(ToGone), Gone}
  }

  /** A task that executes anything but `_trigger_pendsv` is RUNNING and on no list. */
  ghost predicate Control(s: State)
    requires Shaped(s)
  {
    && (s.k.current.None? ==> !s.pendsv && !s.monitor)
    && (Executing(s) && !s.pc[s.k.current.value].Trigger? ==> s.k.place[s.k.current.value] == OnCpu)
    && (forall x :: 0 <= x < s.k.N() ==> Fits(s.k.place[x], s.pc[x]))
  }

  /** The idle task is ready or running and calls nothing. */
  ghost predicate IdleReady(s: State)
    requires Shaped(s)
  {
    && s.k.N() > 0 && s.k.prio[IDLE] == IDLE_PRIO
    && s.pc[IDLE] == User && s.k.place[IDLE] in {InReady, OnCpu}
  }

  ghost predicate SetsOwner(s: State, x: nat, m: nat)
    requires Shaped(s) && x < s.k.N()
  {
    s.pc[x].SetOwner? && s.pc[x].m == m
  }

  /** `x` has completed the STREX on `m` and not unlocked it since. */
  ghost predicate Holds(s: State, x: nat, m: nat)
    requires Shaped(s) && x < s.k.N()
  {
    m in s.held[x]
  }

  ghost predicate HeldBySomeone(s: State, m: nat)
    requires Shaped(s)
  {
    exists x: nat :: x < s.k.N() && Holds(s, x, m)
  }

  /** Lock words, owners and the history of who holds what agree. */
  ghost predicate Guarded(s: State)
    requires Shaped(s)
  {
    && (forall x: nat, m: nat :: x < s.k.N() && Holds(s, x, m) ==> m < s.k.M() && s.k.locked[m])
    && (forall x: nat, y: nat, m: nat :: x < s.k.N() && y < s.k.N() && Holds(s, x, m) && Holds(s, y, m) ==> x == y)
    && (forall m: nat :: m < s.k.M() && s.k.locked[m] ==> HeldBySomeone(s, m))
    && (forall m: nat :: m < s.k.M() && s.k.owner[m].Some? ==>
          s.k.owner[m].value < s.k.N() && Holds(s, s.k.owner[m].value, m))
    && (forall x: nat, m: nat :: x < s.k.N() && Holds(s, x, m) ==>
          m < s.k.M() && s.k.owner[m] == if SetsOwner(s, x, m) then None else Some(x))
    && (forall x: nat :: x < s.k.N() && s.pc[x].SetOwner? ==> Holds(s, x, s.pc[x].m))
    && (s.monitor && s.k.current.Some? && s.pc[s.k.current.value].StoreEx? ==>
          !s.k.locked[s.pc[s.k.current.value].m])
  }

  /** `x` is awake inside `vk_mutex_lock(m)` and will try the lock again. */
  ghost predicate Retrying(s: State, x: nat, m: nat)
    requires Shaped(s) && x < s.k.N()
  {
    && s.k.place[x] in {InReady, OnCpu}
    && s.pc[x] in {Trigger(ToRetry(m)), LoadEx(m, true), StoreEx(m, true), Recheck(m)}
  }

  /** Somebody will look after the waiters of `m`. */
  ghost predicate Attended(s: State, m: nat)
    requires Shaped(s) && m < s.k.M()
  {
    s.k.waits[m] == [] || s.k.locked[m] || exists x :: 0 <= x < s.k.N() && Retrying(s, x, m)
  }

  ghost predicate NoLostWakeup(s: State)
    requires Shaped(s)
  {
    forall m :: 0 <= m < s.k.M() ==> Attended(s, m)
  }

  ghost predicate Inv(s: State) {
    Shaped(s) && Orderly(s.k) && Control(s) && IdleReady(s) && Guarded(s) && NoLostWakeup(s)
  }

  // ---- The lists

  lemma NextOrderly(s: State, e: Event)
    requires Shaped(s) && Enabled(s, e) && Orderly(s.k) && Control(s)
    ensures Orderly(Next(s, e).k)
  {
    match e
    case Tick => SysTickOrderly(s.k);
    case Irq =>
    case PendSV => ScheduleOrderly(s.k);
    case Start => StartOrderly(s.k);
    case Create(p) => CreateOrderly(s.k, p);
    case InitMutex => NewMutexOrderly(s.k);
    case Call(a) => CallOrderly(s, a);
    case Go => GoOrderly(s);
  }

  lemma StartOrderly(k: Kernel)
    requires Orderly(k) && k.current.None?
    ensures Orderly(PopReady(k))
  {
    forall y | 0 <= y < k.N()
      ensures k.place[y] != OnCpu
    {
      assert LocatedAt(k, y);
    }
    PopReadyOrderly(k);
  }

  lemma CallOrderly(s: State, a: Api)
    requires Shaped(s) && InUserCode(s) && Allowed(s, a) && Orderly(s.k) && Control(s)
    ensures Orderly(CallStep(s, a).k)
  {
    match a
    case Yield =>
    case Sleep(n) => SleepOrderly(s.k, n);
    case Exit => ExitOrderly(s.k);
    case Lock(_) =>
    case TryLock(_) =>
    case Unlock(m) => UnlockOrderly(s.k, m);
  }

  lemma GoOrderly(s: State)
    requires Shaped(s) && Enabled(s, Go) && Orderly(s.k) && Control(s)
    ensures Orderly(GoStep(s).k)
  {
    match s.pc[s.k.current.value]
    case User =>
    case Trigger(_) =>
    case LoadEx(_, _) =>
    case StoreEx(m, _) => LockWordsOrderly(s.k, Locked(s.k, m, true));
    case SetOwner(m, _) => LockWordsOrderly(s.k, Owned(s.k, m, s.k.current));
    case Recheck(m) => EnqueueOrderly(s.k, m);
    case Gone =>
  }

  // ---- Effects of the kernel operations on places

  /** From `k` to `r` no task changes its place, but sleepers may become ready. */
  ghost predicate OnlyWoken(k: Kernel, r: Kernel)
    requires k.Shaped() && r.Shaped() && r.N() == k.N()
  {
    forall y :: 0 <= y < k.N() ==>
      r.place[y] == k.place[y] || (k.place[y] == Sleeping && r.place[y] == InReady)
  }

  lemma {:induction false} WakeExpiredPlaces(k: Kernel)
    requires Orderly(k)
    ensures OnlyWoken(k, WakeExpired(k))
    decreases |k.sleepers|
  {
    if k.sleepers != [] && k.wake[k.sleepers[0]] <= k.ticks {
      var k1 := k.(sleepers := k.sleepers[1..]);
      PopSleeper(k);
      ReadyInsertOrderly(k1, k.sleepers[0]);
      WakeExpiredPlaces(ReadyInsert(k1, k.sleepers[0]));
    }
  }

  lemma SysTickPlaces(k: Kernel)
    requires Orderly(k)
    ensures OnlyWoken(k, SysTick(k))
  {
    var k1 := k.(ticks := Add32(k.ticks, 1));
    SameLists(k, k1);
    WakeExpiredPlaces(k1);
  }

  /** Tasks that can run stay able to run; nobody else notices `_vk_schedule`. */
  ghost predicate OnlySwitched(k: Kernel, r: Kernel)
    requires k.Shaped() && r.Shaped() && r.N() == k.N()
  {
    forall y :: 0 <= y < k.N() ==>
      r.place[y] == k.place[y] || (k.place[y] in {InReady, OnCpu} && r.place[y] in {InReady, OnCpu})
  }

  ghost predicate CurrentRuns(k: Kernel)
    requires k.Shaped()
  {
    k.current.Some? && k.place[k.current.value] == OnCpu
  }

  lemma PopReadyPlaces(k: Kernel)
    requires k.Shaped() && k.Listed() && k.ready != []
    ensures CurrentRuns(PopReady(k)) && OnlySwitched(k, PopReady(k))
  {
    assert k.place[k.ready[0]] == InReady;
  }

  /** As long as some task `x` can run, `_vk_schedule` finds a task. */
  lemma SchedulePlaces(k: Kernel, x: nat)
    requires Orderly(k) && x < k.N() && k.place[x] in {InReady, OnCpu}
    ensures CurrentRuns(Schedule(k)) && OnlySwitched(k, Schedule(k))
  {
    assert LocatedAt(k, x);
    if CurrentRuns(k) {
      PreemptOrderly(k);
      PopReadyPlaces(ReadyInsert(k, k.current.value));
    } else {
      PopReadyPlaces(k);
    }
  }

  // ---- Control and the idle task

  lemma NextControl(s: State, e: Event)
    requires Shaped(s) && Enabled(s, e) && Orderly(s.k) && Control(s) && IdleReady(s)
    ensures Control(Next(s, e)) && IdleReady(Next(s, e))
  {
    hide Orderly;
    match e
    case Tick => TickControl(s);
    case Irq =>
    case PendSV => SchedulePlaces(s.k, IDLE);
    case Start => StartControl(s);
    case Create(p) => CreateControl(s, p);
    case InitMutex =>
    case Call(a) => CallControl(s, a);
    case Go => GoControl(s);
  }

  lemma TickControl(s: State)
    requires Shaped(s) && Orderly(s.k) && Control(s) && IdleReady(s)
    ensures Control(TickStep(s)) && IdleReady(TickStep(s))
  {
    SysTickPlaces(s.k);
  }

  lemma CreateControl(s: State, p: Prio)
    requires Shaped(s) && Control(s) && IdleReady(s)
    ensures Control(CreateTask(s, p)) && IdleReady(CreateTask(s, p))
  {
  }

  lemma StartControl(s: State)
    requires Shaped(s) && s.k.current.None? && Orderly(s.k) && Control(s) && IdleReady(s)
    ensures Control(Next(s, Start)) && IdleReady(Next(s, Start))
  {
    assert LocatedAt(s.k, IDLE);
    PopReadyPlaces(s.k);
  }

  /** The running task moves on; the others at most become ready. */
  lemma AtControl(s: State, k: Kernel, p: Pc)
    requires Shaped(s) && s.k.current.Some? && s.k.current.value != IDLE && Control(s) && IdleReady(s)
    requires k.Shaped() && k.N() == s.k.N() && k.M() == s.k.M() && PcInRange(p, k.M())
    requires k.current == s.k.current && k.prio == s.k.prio
    requires var c := s.k.current.value;
      && Fits(k.place[c], p) && (p.Trigger? || k.place[c] == OnCpu)
      && (forall y :: 0 <= y < k.N() && y != c ==>
            k.place[y] == s.k.place[y] || (s.k.place[y].Waiting? && k.place[y] == InReady))
    ensures Control(At(s, k, p)) && IdleReady(At(s, k, p))
  {
  }

  lemma CallControl(s: State, a: Api)
    requires Shaped(s) && InUserCode(s) && Allowed(s, a) && Orderly(s.k) && Control(s) && IdleReady(s)
    ensures Control(CallStep(s, a)) && IdleReady(CallStep(s, a))
  {
    match a
    case Yield => AtControl(s, s.k, Trigger(ToUser));
    case Sleep(n) => AtControl(s, KernelSpec.Sleep(s.k, n), Trigger(ToUser));
    case Exit => AtControl(s, KernelSpec.Exit(s.k), Trigger(ToGone));
    case Lock(m) => AtControl(s, s.k, LoadEx(m, true));
    case TryLock(m) => AtControl(s, s.k, LoadEx(m, false));
    case Unlock(m) => UnlockControl(s, m);
  }

  lemma UnlockControl(s: State, m: nat)
    requires Shaped(s) && InUserCode(s) && Allowed(s, Unlock(m)) && Orderly(s.k) && Control(s) && IdleReady(s)
    ensures Control(CallStep(s, Unlock(m))) && IdleReady(CallStep(s, Unlock(m)))
  {
    assert s.k.waits[m] != [] ==> s.k.place[s.k.waits[m][0]] == Waiting(m);
    AtControl(s, KernelSpec.Unlock(s.k, m), Trigger(ToUser));
  }

  lemma GoControl(s: State)
    requires Shaped(s) && Enabled(s, Go) && Orderly(s.k) && Control(s) && IdleReady(s)
    ensures Control(GoStep(s)) && IdleReady(GoStep(s))
  {
    var c := s.k.current.value;
    match s.pc[c]
    case User =>
    case Trigger(k) => TriggerControl(s);
    case LoadEx(m, b) =>
      AtControl(s, s.k, if !s.k.locked[m] then StoreEx(m, b) else if b then Recheck(m) else User);
    case StoreEx(m, b) =>
      AtControl(s, s.k, LoadEx(m, b));
      AtControl(s, Locked(s.k, m, true), SetOwner(m, b));
    case SetOwner(m, _) => AtControl(s, Owned(s.k, m, Some(c)), User);
    case Recheck(m) =>
      AtControl(s, s.k, LoadEx(m, true));
      AtControl(s, Enqueue(s.k, m), Trigger(ToRetry(m)));
    case Gone =>
  }

  lemma TriggerControl(s: State)
    requires Shaped(s) && Enabled(s, Go) && s.pc[s.k.current.value].Trigger? && Control(s) && IdleReady(s)
    ensures Control(GoStep(s)) && IdleReady(GoStep(s))
  {
    var c := s.k.current.value;
    assert Fits(s.k.place[c], s.pc[c]);
  }

  // ---- Locks and owners

  /** Steps that touch no lock word. */
  lemma SameLocks(s: State, r: State)
    requires Shaped(s) && Shaped(r) && Guarded(s)
    requires r.held == s.held && r.k.locked == s.k.locked && r.k.owner == s.k.owner
    requires forall x :: 0 <= x < s.k.N() ==> r.pc[x] == s.pc[x] || !(r.pc[x].SetOwner? || s.pc[x].SetOwner?)
    requires r.monitor && r.k.current.Some? && r.pc[r.k.current.value].StoreEx? ==>
      !r.k.locked[r.pc[r.k.current.value].m]
    ensures Guarded(r)
  {
    forall x: nat, m: nat | x < s.k.N()
      ensures Holds(r, x, m) == Holds(s, x, m) && SetsOwner(r, x, m) == SetsOwner(s, x, m)
    {
    }
    StillHeld(s, r);
  }

  lemma StillHeld(s: State, r: State)
    requires Shaped(s) && Shaped(r) && s.k.N() <= r.k.N()
    requires forall m: nat :: m < r.k.M() && r.k.locked[m] ==> m < s.k.M() && HeldBySomeone(s, m)
    requires forall x: nat, m: nat :: x < s.k.N() && m < r.k.M() && r.k.locked[m] && Holds(s, x, m) ==> Holds(r, x, m)
    ensures forall m: nat :: m < r.k.M() && r.k.locked[m] ==> HeldBySomeone(r, m)
  {
  }

  lemma NextGuarded(s: State, e: Event)
    requires Shaped(s) && Enabled(s, e) && Control(s) && Guarded(s)
    ensures Guarded(Next(s, e))
  {
    match e
    case Tick => SameLocks(s, TickStep(s));
    case Irq => SameLocks(s, Next(s, Irq));
    case PendSV => SameLocks(s, Next(s, PendSV));
    case Start => SameLocks(s, Next(s, Start));
    case Create(p) => CreateGuarded(s, p);
    case InitMutex => NewMutexGuarded(s);
    case Call(a) =>
      if a.Unlock? {
        UnlockGuarded(s, a.m);
      } else {
        SameLocks(s, CallStep(s, a));
      }
    case Go => GoGuarded(s);
  }

  lemma CreateGuarded(s: State, p: Prio)
    requires Shaped(s) && Guarded(s) && Enabled(s, Create(p))
    ensures Guarded(CreateTask(s, p))
  {
    var r := CreateTask(s, p);
    forall x: nat, m: nat | x < r.k.N()
      ensures Holds(r, x, m) == (x < s.k.N() && Holds(s, x, m))
      ensures SetsOwner(r, x, m) == (x < s.k.N() && SetsOwner(s, x, m))
    {
    }
    StillHeld(s, r);
  }

  lemma NewMutexGuarded(s: State)
    requires Shaped(s) && Guarded(s) && Enabled(s, InitMutex)
    ensures Guarded(AddMutex(s))
  {
    var r := AddMutex(s);
    forall x: nat, m: nat | x < r.k.N()
      ensures Holds(r, x, m) == Holds(s, x, m) && SetsOwner(r, x, m) == SetsOwner(s, x, m)
    {
    }
    StillHeld(s, r);
  }

  lemma UnlockGuarded(s: State, m: nat)
    requires Shaped(s) && InUserCode(s) && Allowed(s, Unlock(m)) && Guarded(s)
    ensures Guarded(CallStep(s, Unlock(m)))
  {
    var r := CallStep(s, Unlock(m));
    assert Holds(s, s.k.current.value, m);
    forall x: nat, n: nat | x < r.k.N()
      ensures Holds(r, x, n) == (Holds(s, x, n) && n != m) && SetsOwner(r, x, n) == SetsOwner(s, x, n)
    {
      assert Holds(s, x, m) ==> x == s.k.current.value;
    }
    StillHeld(s, r);
  }

  lemma GoGuarded(s: State)
    requires Shaped(s) && Enabled(s, Go) && Guarded(s)
    ensures Guarded(GoStep(s))
  {
    match s.pc[s.k.current.value]
    case User =>
    case Trigger(_) => SameLocks(s, GoStep(s));
    case LoadEx(_, _) => SameLocks(s, GoStep(s));
    case StoreEx(_, _) => if s.monitor { StoreExGuarded(s); } else { SameLocks(s, GoStep(s)); }
    case SetOwner(_, _) => SetOwnerGuarded(s);
    case Recheck(_) => SameLocks(s, GoStep(s));
    case Gone =>
  }

  /** The STREX succeeds only if nobody holds the mutex. */
  lemma StoreExGuarded(s: State)
    requires Shaped(s) && Enabled(s, Go) && s.pc[s.k.current.value].StoreEx? && s.monitor && Guarded(s)
    ensures Guarded(GoStep(s))
  {
    var c, r := s.k.current.value, GoStep(s);
    var m := s.pc[c].m;
    forall x: nat, n: nat | x < r.k.N()
      ensures Holds(r, x, n) == (Holds(s, x, n) || (x == c && n == m))
      ensures SetsOwner(r, x, n) == (SetsOwner(s, x, n) || (x == c && n == m))
    {
    }
    assert Holds(r, c, m);
  }

  lemma SetOwnerGuarded(s: State)
    requires Shaped(s) && Enabled(s, Go) && s.pc[s.k.current.value].SetOwner? && Guarded(s)
    ensures Guarded(GoStep(s))
  {
    var c, r := s.k.current.value, GoStep(s);
    var m := s.pc[c].m;
    assert Holds(s, c, m);
    forall x: nat, n: nat | x < r.k.N()
      ensures Holds(r, x, n) == Holds(s, x, n) && SetsOwner(r, x, n) == (SetsOwner(s, x, n) && x != c)
    {
    }
    StillHeld(s, r);
  }

  // ---- No lost wakeup

  /** The waiters of `m` stay, the lock is not freed, and whoever retries keeps retrying. */
  lemma StaysAttended(s: State, r: State, m: nat)
    requires Shaped(s) && Shaped(r) && m < s.k.M() && m < r.k.M() && Attended(s, m)
    requires r.k.waits[m] == s.k.waits[m] && (s.k.locked[m] ==> r.k.locked[m]) && s.k.N() <= r.k.N()
    requires r.k.locked[m] || forall x :: 0 <= x < s.k.N() && Retrying(s, x, m) ==> Retrying(r, x, m)
    ensures Attended(r, m)
  {
  }

  lemma NextAttended(s: State, e: Event, m: nat)
    requires Shaped(s) && Enabled(s, e) && Orderly(s.k) && Control(s) && IdleReady(s)
    requires NoLostWakeup(s) && m < Next(s, e).k.M()
    ensures Attended(Next(s, e), m)
  {
    match e
    case Tick => TickAttended(s, m);
    case Irq => StaysAttended(s, Next(s, Irq), m);
    case PendSV => SwitchAttended(s, m);
    case Start => StartControl(s); StaysAttended(s, Next(s, Start), m);
    case Create(p) => StaysAttended(s, CreateTask(s, p), m);
    case InitMutex => NewMutexAttended(s, m);
    case Call(a) => CallAttended(s, a, m);
    case Go => GoAttended(s, m);
  }

  lemma TickAttended(s: State, m: nat)
    requires Shaped(s) && Orderly(s.k) && NoLostWakeup(s) && m < s.k.M()
    ensures Attended(TickStep(s), m)
  {
    SysTickPlaces(s.k);
    StaysAttended(s, TickStep(s), m);
  }

  lemma SwitchAttended(s: State, m: nat)
    requires Shaped(s) && s.pendsv && Orderly(s.k) && IdleReady(s) && NoLostWakeup(s) && m < s.k.M()
    ensures Attended(Next(s, PendSV), m)
  {
    SchedulePlaces(s.k, IDLE);
    StaysAttended(s, Next(s, PendSV), m);
  }

  lemma NewMutexAttended(s: State, m: nat)
    requires Shaped(s) && NoLostWakeup(s) && m <= s.k.M()
    ensures Attended(AddMutex(s), m)
  {
    if m < s.k.M() {
      StaysAttended(s, AddMutex(s), m);
    }
  }

  lemma CallAttended(s: State, a: Api, m: nat)
    requires Shaped(s) && InUserCode(s) && Allowed(s, a) && Orderly(s.k) && Control(s)
    requires NoLostWakeup(s) && m < s.k.M()
    ensures Attended(CallStep(s, a), m)
  {
    if a.Unlock? {
      UnlockAttended(s, a.m, m);
    } else {
      StaysAttended(s, CallStep(s, a), m);
    }
  }

  /** The waiter that `vk_mutex_unlock` wakes is inside the retry loop. */
  lemma UnlockAttended(s: State, n: nat, m: nat)
    requires Shaped(s) && InUserCode(s) && Allowed(s, Unlock(n)) && Orderly(s.k) && Control(s)
    requires NoLostWakeup(s) && m < s.k.M()
    ensures Attended(CallStep(s, Unlock(n)), m)
  {
    var r := CallStep(s, Unlock(n));
    if n != m {
      StaysAttended(s, r, m);
    } else if s.k.waits[m] != [] {
      var w := s.k.waits[m][0];
      assert s.k.place[w] == Waiting(m) && Fits(s.k.place[w], s.pc[w]);
      assert Retrying(r, w, m);
    }
  }

  lemma GoAttended(s: State, m: nat)
    requires Shaped(s) && Enabled(s, Go) && Control(s) && NoLostWakeup(s) && m < s.k.M()
    ensures Attended(GoStep(s), m)
  {
    var c, r := s.k.current.value, GoStep(s);
    assert s.pc[c].Trigger? ==> Fits(s.k.place[c], s.pc[c]);
    if s.pc[c] == Recheck(m) && s.k.locked[m] {
    } else {
      StaysAttended(s, r, m);
    }
  }

  // ---- The invariant

  lemma FirstReady(k: Kernel, x: nat)
    requires k.Shaped() && x < k.N() && k.ready == []
    ensures var r := ReadyInsert(k, x);
      && r.ready == [x] && r.place == k.place[x := InReady] && r.arrival[x] < r.arrivals
      && r.prio == k.prio && r.sleepers == k.sleepers && r.current == k.current && r.M() == k.M() && r.ticks == k.ticks
  {
  }

  lemma BootValue()
    ensures var k := Boot();
      && k.prio == [IDLE_PRIO] && k.place == [InReady] && k.arrival[IDLE] < k.arrivals
      && k.ready == [IDLE] && k.sleepers == [] && k.current == None && k.M() == 0 && k.ticks == 0
  {
    hide ReadyInsert;
    var b := Blank();
    var k := b.(prio := b.prio + [IDLE_PRIO], place := b.place + [Exited], wake := b.wake + [0], arrival := b.arrival + [0]);
    FirstReady(k, IDLE);
    assert k.prio == [IDLE_PRIO] && k.place == [Exited];
  }

  /** One ready task and nothing else. */
  lemma SoleTask(s: State)
    requires Shaped(s) && s.k.N() == 1 && s.k.M() == 0 && s.k.prio[IDLE] == IDLE_PRIO
    requires s.k.place[IDLE] == InReady && s.k.ready == [IDLE] && s.k.sleepers == [] && s.k.current.None?
    requires s.k.arrival[IDLE] < s.k.arrivals
    requires s.pc[IDLE] == User && s.held[IDLE] == {} && !s.pendsv && !s.monitor
    ensures Inv(s)
  {
    assert s.k.ready[0] == IDLE;
    assert LocatedAt(s.k, IDLE);
    assert forall m: nat :: !Holds(s, IDLE, m);
  }

  lemma InitInv()
    ensures Inv(Init())
  {
    BootValue();
    SoleTask(Init());
  }

  /** Every step of every task and every interrupt keeps the invariant. */
  lemma NextInv(s: State, e: Event)
    requires Inv(s) && Enabled(s, e)
    ensures Inv(Next(s, e))
  {
    NextOrderly(s, e);
    NextControl(s, e);
    NextGuarded(s, e);
    forall m | 0 <= m < Next(s, e).k.M()
      ensures Attended(Next(s, e), m)
    {
      NextAttended(s, e, m);
    }
  }

  /** So every run keeps it. */
  lemma {:induction false} RunInv(s: State, es: seq<Event>)
    requires Inv(s) && CanRun(s, es)
    ensures Inv(Run(s, es))
    decreases |es|
  {
    hide Orderly, Control, IdleReady, Guarded, NoLostWakeup, Next;
    if es != [] {
      NextInv(s, es[0]);
      RunInv(Next(s, es[0]), es[1..]);
    }
  }

  lemma {:induction false} TraceInv(tr: seq<State>, es: seq<Event>, i: nat)
    requires Trace(tr, es) && Inv(tr[0]) && i <= |es|
    ensures Inv(tr[i])
    decreases i
  {
    hide Inv;
    if i > 0 {
      TraceInv(tr, es, i - 1);
      assert Steps(tr[i - 1], es[i - 1], tr[i]);
      NextInv(tr[i - 1], es[i - 1]);
    }
  }

  /** What holds in every reachable state. */
  lemma ReachableInv(s: State)
    requires Reachable(s)
    ensures Inv(s)
  {
    hide Inv, Init;
    var tr, es :| Trace(tr, es) && tr[0] == Init() && tr[|es|] == s;
    InitInv();
    TraceInv(tr, es, |es|);
  }
}
