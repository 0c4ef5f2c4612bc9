/** Runs from power-up, and what they show: each claim is about a reachable state. */
module Scenarios {
  import opened Basics
  import opened KernelSpec
  import opened KernelFacts
  import opened Machine
  import opened Invariant
  import opened Words
  import Deadline
  import Fairness
  import Properties

  // ---- Calls left undisturbed

  /** The calls and steps that take a free mutex. */
  function Acquire(m: nat, blocking: bool): seq<Event> {
    [Call(if blocking then Lock(m) else TryLock(m)), Go, Go, Go]
  }

  /** A free mutex is taken by whichever task calls and is left alone for three steps. */
  lemma TakesFree(s: State, m: nat, blocking: bool) returns (r: State)
    requires Shaped(s) && InUserCode(s) && m < s.k.M() && !s.k.locked[m]
    ensures Shaped(r) && Leads(s, Acquire(m, blocking), r)
    ensures r == State(Owned(Locked(s.k, m, true), m, s.k.current), s.pc,
                       s.held[s.k.current.value := s.held[s.k.current.value] + {m}], false, false)
  {
    hide Next, Leads;
    var s1, s2, s3;
    s1, s2, s3, r := TakingSteps(s, m, blocking);
    FourSteps(s, Call(if blocking then Lock(m) else TryLock(m)), s1, Go, s2, Go, s3, Go, r);
  }

  lemma TakingSteps(s: State, m: nat, blocking: bool) returns (s1: State, s2: State, s3: State, r: State)
    requires Shaped(s) && InUserCode(s) && m < s.k.M() && !s.k.locked[m]
    ensures Steps(s, Call(if blocking then Lock(m) else TryLock(m)), s1) && Steps(s1, Go, s2) && Steps(s2, Go, s3)
    ensures Steps(s3, Go, r) && Shaped(r)
    ensures r == State(Owned(Locked(s.k, m, true), m, s.k.current), s.pc,
                       s.held[s.k.current.value := s.held[s.k.current.value] + {m}], false, false)
  {
    hide Next;
    s1, s2 := LdrexSteps(s, m, blocking);
    s3, r := StrexSteps(s2, m, blocking);
    assert r.pc == s.pc;
  }

  lemma LdrexSteps(s: State, m: nat, blocking: bool) returns (s1: State, s2: State)
    requires Shaped(s) && InUserCode(s) && m < s.k.M() && !s.k.locked[m]
    ensures Steps(s, Call(if blocking then Lock(m) else TryLock(m)), s1) && Steps(s1, Go, s2) && Shaped(s2)
    ensures s2 == s.(pc := s.pc[s.k.current.value := StoreEx(m, blocking)], monitor := true)
  {
    s1 := Next(s, Call(if blocking then Lock(m) else TryLock(m)));
    s2 := Next(s1, Go);
  }

  lemma StrexSteps(s: State, m: nat, blocking: bool) returns (s1: State, r: State)
    requires Shaped(s) && Executing(s) && s.pc[s.k.current.value] == StoreEx(m, blocking) && s.monitor
    ensures Steps(s, Go, s1) && Steps(s1, Go, r) && Shaped(r)
    ensures r == State(Owned(Locked(s.k, m, true), m, s.k.current), s.pc[s.k.current.value := User],
                       s.held[s.k.current.value := s.held[s.k.current.value] + {m}], false, false)
  {
    s1 := Next(s, Go);
    r := Next(s1, Go);
  }

  lemma FourSteps(s: State, e: Event, s1: State, e1: Event, s2: State, e2: Event, s3: State, e3: Event, r: State)
    requires Steps(s, e, s1) && Steps(s1, e1, s2) && Steps(s2, e2, s3) && Steps(s3, e3, r) && Shaped(r)
    ensures Leads(s, [e, e1, e2, e3], r)
  {
    hide Next, Enabled;
    ThreeSteps(s1, e1, s2, e2, s3, e3, r);
    LeadsFirst(s, e, [e1, e2, e3], r);
    assert [e] + [e1, e2, e3] == [e, e1, e2, e3];
  }

  lemma ThreeSteps(s: State, e: Event, s1: State, e1: Event, s2: State, e2: Event, r: State)
    requires Steps(s, e, s1) && Steps(s1, e1, s2) && Steps(s2, e2, r) && Shaped(r)
    ensures Leads(s, [e, e1, e2], r)
  {
    hide Next, Enabled;
    LeadsFirst(s2, e2, [], r);
    LeadsFirst(s1, e1, [e2], r);
    LeadsFirst(s, e, [e1] + [e2], r);
    assert [e] + ([e1] + [e2]) == [e, e1, e2];
  }

  // ---- Barging

  /** `m` is free, and `w`, awake in its retry loop, does not hold it. */
  ghost predicate Freed(t: State, m: nat, w: nat) {
    && Shaped(t) && m < t.k.M() && w < t.k.N()
    && !t.k.locked[m] && m !in t.held[w] && Retrying(t, w, m)
  }

  lemma UnlockFrees(s: State, m: nat)
    requires Inv(s) && Enabled(s, Call(Unlock(m))) && s.k.waits[m] != []
    ensures Freed(Next(s, Call(Unlock(m))), m, s.k.waits[m][0])
    ensures Enabled(Next(s, Call(Unlock(m))), Go)
    ensures Freed(Next(Next(s, Call(Unlock(m))), Go), m, s.k.waits[m][0])
    ensures Next(Next(s, Call(Unlock(m))), Go).pendsv
  {
    var w, c := s.k.waits[m][0], s.k.current.value;
    assert s.k.place[w] == Waiting(m) && Fits(s.k.place[w], s.pc[w]);
    assert Holds(s, c, m) && (Holds(s, w, m) ==> w == c);
  }

  lemma SwitchKeepsFreed(s: State, m: nat, w: nat)
    requires Inv(s) && s.pendsv && Freed(s, m, w)
    ensures Freed(Next(s, PendSV), m, w)
  {
    SchedulePlaces(s.k, w);
  }

  /**
   An unlock with waiters leaves the mutex free.  If after the switch that it
   pends a task in its own code runs, that task takes the mutex with one
   undisturbed call, and the waiter, though woken, still has to try again.
   */
  lemma Barging(s: State, m: nat) returns (t: State, r: State)
    requires Reachable(s) && Enabled(s, Call(Unlock(m))) && s.k.waits[m] != []
    ensures Leads(s, [Call(Unlock(m)), Go, PendSV], t) && Freed(t, m, s.k.waits[m][0])
    ensures InUserCode(t) ==> Leads(t, Acquire(m, false), r) && Barged(r, m, t.k.current.value, s.k.waits[m][0])
  {
    ReachableInv(s);
    hide Reachable, Freed, Barged, Leads, Inv;
    UnlockFrees(s, m);
    t := Unlocked(s, m);
    r := t;
    if InUserCode(t) {
      r := TakesFree(t, m, false);
      FreedBarged(t, m, s.k.waits[m][0], r);
    }
  }

  lemma Unlocked(s: State, m: nat) returns (t: State)
    requires Inv(s) && Enabled(s, Call(Unlock(m))) && s.k.waits[m] != []
    ensures Leads(s, [Call(Unlock(m)), Go, PendSV], t) && Freed(t, m, s.k.waits[m][0])
  {
    UnlockFrees(s, m);
    var w, s1 := s.k.waits[m][0], Next(s, Call(Unlock(m)));
    NextInv(s, Call(Unlock(m)));
    NextInv(s1, Go);
    hide Next, Inv, Freed, Leads;
    var s2 := Next(s1, Go);
    SwitchKeepsFreed(s2, m, w);
    t := Next(s2, PendSV);
    ThreeSteps(s, Call(Unlock(m)), s1, Go, s2, PendSV, t);
  }

  /** `x` has taken `m` past the waiter `w`, which goes on retrying. */
  ghost predicate Barged(r: State, m: nat, x: nat, w: nat) {
    && Shaped(r) && m < r.k.M() && x < r.k.N() && w < r.k.N() && w != x
    && r.k.owner[m] == Some(x) && m in r.held[x] && m !in r.held[w] && Retrying(r, w, m)
  }

  lemma FreedBarged(t: State, m: nat, w: nat, r: State)
    requires Freed(t, m, w) && InUserCode(t) && Shaped(r)
    requires r == State(Owned(Locked(t.k, m, true), m, t.k.current), t.pc,
                        t.held[t.k.current.value := t.held[t.k.current.value] + {m}], false, false)
    ensures Barged(r, m, t.k.current.value, w)
  {
  }

  // ---- Ticks

  /** With nobody asleep and nobody outranked, `n` SysTicks only count. */
  lemma {:induction false} TicksPass(s: State, n: nat) returns (r: State)
    requires Reachable(s) && Executing(s) && s.k.sleepers == [] && !Outranked(s.k) && s.k.ticks + n < WORD
    ensures Reachable(r) && r == s.(k := s.k.(ticks := s.k.ticks + n), monitor := r.monitor)
    decreases n
  {
    if n == 0 {
      r := s;
    } else {
      var s1 := Next(s, Tick);
      NextReachable(s, Tick);
      assert s1 == s.(k := s.k.(ticks := s.k.ticks + 1), monitor := false);
      hide Next, Reachable;
      r := TicksPass(s1, n - 1);
    }
  }

  /** Power-up, a task of priority `p`, a mutex, and the start. */
  lemma Started(p: Prio) returns (r: State)
    requires p < IDLE_PRIO
    ensures Reachable(r) && First(r, p)
  {
    InitReachable();
    BootValue();
    var s0 := Init();
    var s1, s2;
    s1, s2, r := FirstThree(s0, p);
    hide Init, Next, Reachable;
    NextReachable(s0, Create(p));
    NextReachable(s1, InitMutex);
    NextReachable(s2, Start);
  }

  lemma FirstThree(s: State, p: Prio) returns (s1: State, s2: State, r: State)
    requires Shaped(s) && !s.pendsv && !s.monitor && s.k.prio == [IDLE_PRIO] && s.k.place == [InReady] && s.k.ready == [IDLE]
    requires s.k.sleepers == [] && s.k.current == None && s.k.M() == 0 && s.k.ticks == 0 && p < IDLE_PRIO
    requires s.pc == [User] && s.held == [{}]
    ensures Steps(s, Create(p), s1) && Steps(s1, InitMutex, s2) && Steps(s2, Start, r) && First(r, p)
  {
    TwoReady(s.k, p);
    hide KernelSpec.Create;
    s1 := Next(s, Create(p));
    s2 := Next(s1, InitMutex);
    r := Next(s2, Start);
  }

  /** Task 1 runs its own code; the idle task is ready; there is one free mutex. */
  ghost predicate First(r: State, p: Prio) {
    && Shaped(r) && InUserCode(r) && !r.monitor && r.k.current == Some(1) && r.k.ticks == 0
    && r.k.prio == [IDLE_PRIO, p] && r.k.place == [InReady, OnCpu] && r.k.ready == [IDLE] && r.k.sleepers == []
    && r.k.locked == [false] && r.k.waits == [[]] && r.pc == [User, User] && r.held == [{}, {}]
  }

  lemma TwoReady(k: Kernel, p: Prio)
    requires k.Shaped() && k.prio == [IDLE_PRIO] && k.place == [InReady] && k.ready == [IDLE] && p < IDLE_PRIO
    ensures var r := KernelSpec.Create(k, p);
      r.prio == [IDLE_PRIO, p] && r.place == [InReady, InReady] && r.ready == [1, IDLE]
  {
    assert Insert([IDLE], [IDLE_PRIO, p], 1) == [1, IDLE];
  }

  /**
   A task can call `vk_task_sleep(n)` at any tick `t` and with any `n`: for each
   pair there is a reachable state, and it sleeps as asked iff the pair allows it.
   */
  lemma SleepsFromAnyTick(t: KernelSpec.Tick, n: KernelSpec.Tick) returns (s: State)
    ensures Reachable(s) && s.k.ticks == t && Enabled(s, Call(Sleep(n)))
    ensures Deadline.AlwaysSleeps(Next(s, Call(Sleep(n))), s.k.current.value, n) <==>
      n >= 1 && (t + n < WORD || t == WORD - 1)
  {
    var r := Started(1);
    s := TicksPass(r, t);
    Deadline.SleepsAsAsked(s, n);
  }

  // ---- Two waiters

  /** What matters of a state in which a task runs its own code and nobody sleeps. */
  datatype Scene = Scene(prio: seq<int>, place: seq<Place>, ready: seq<nat>, current: nat,
                         locked: seq<bool>, waits: seq<seq<nat>>, pc: seq<Pc>, held: seq<set<nat>>)

  ghost predicate Shows(s: State, c: Scene) {
    && Shaped(s) && InUserCode(s) && s.k.sleepers == []
    && s.k.current == Some(c.current) && s.k.place[c.current] == OnCpu
    && s.k.prio == c.prio && s.k.place == c.place && s.k.ready == c.ready
    && s.k.locked == c.locked && s.k.waits == c.waits && s.pc == c.pc && s.held == c.held
  }

  lemma InsertFirst(q: seq<nat>, keys: seq<int>, x: nat)
    requires Bounded(q, |keys|) && x < |keys| && q != [] && keys[q[0]] > keys[x]
    ensures Insert(q, keys, x) == [x] + q
  {
  }

  lemma InsertSecond(q: seq<nat>, keys: seq<int>, x: nat)
    requires Bounded(q, |keys|) && x < |keys| && |q| == 2 && keys[q[0]] <= keys[x] < keys[q[1]]
    ensures Insert(q, keys, x) == [q[0], x, q[1]]
  {
    assert Slot(q[1..], keys, keys[x]) == 0;
  }

  /** A new task, more urgent than all that are ready. */
  lemma Creates(s: State, c: Scene, p: Prio) returns (r: State)
    requires Shows(s, c) && |c.prio| < MAX_TASKS && c.ready != [] && p < c.prio[c.ready[0]]
    ensures Steps(s, Create(p), r)
    ensures Shows(r, c.(prio := c.prio + [p], place := c.place + [InReady], ready := [|c.prio|] + c.ready,
                        pc := c.pc + [User], held := c.held + [{}]))
  {
    r := Next(s, Create(p));
    InsertFirst(c.ready, c.prio + [p], |c.prio|);
    assert (c.place + [Exited])[|c.place| := InReady] == c.place + [InReady];
  }

  /** A yield to the head of the ready queue, `h`; behind it is only the idle task, `z`. */
  lemma Yields(s: State, c: Scene, h: nat, z: nat) returns (s1: State, s2: State, r: State)
    requires Shows(s, c) && c.ready == [h, z] && h < |c.pc| && z < |c.prio|
    requires c.prio[h] <= c.prio[c.current] < c.prio[z] && h != IDLE && c.pc[h] == User
    ensures Steps(s, Call(Yield), s1) && Steps(s1, Go, s2) && Steps(s2, PendSV, r)
    ensures Shows(r, c.(place := c.place[c.current := InReady][h := OnCpu], ready := [c.current, z], current := h))
  {
    s1 := Next(s, Call(Yield));
    s2 := Next(s1, Go);
    assert s2.k == s.k && s2.pc == s.pc && s2.pendsv;
    InsertSecond(c.ready, c.prio, c.current);
    r := Next(s2, PendSV);
  }

  /** A `vk_mutex_lock` that finds the mutex held; the head of the ready queue, `h`, runs next. */
  lemma Waits(s: State, c: Scene, m: nat, h: nat, z: nat) returns (s1: State, s2: State, s3: State, s4: State, r: State)
    requires Shows(s, c) && m < |c.locked| == |c.waits| && c.locked[m] && c.ready == [h, z]
    requires h < |c.pc| && h != IDLE && c.pc[h] == User && h != c.current
    ensures Steps(s, Call(Lock(m)), s1) && Steps(s1, Go, s2) && Steps(s2, Go, s3) && Steps(s3, Go, s4) && Steps(s4, PendSV, r)
    ensures Shows(r, c.(place := c.place[c.current := Waiting(m)][h := OnCpu], ready := [z], current := h,
                        waits := c.waits[m := c.waits[m] + [c.current]], pc := c.pc[c.current := LoadEx(m, true)]))
  {
    s1, s2 := FindsHeld(s, m);
    hide Next;
    s3, s4, r := WaitsOn(s2, c, m, h, z);
    assert r.pc == c.pc[c.current := LoadEx(m, true)];
  }

  lemma FindsHeld(s: State, m: nat) returns (s1: State, s2: State)
    requires Shaped(s) && InUserCode(s) && m < s.k.M() && s.k.locked[m]
    ensures Steps(s, Call(Lock(m)), s1) && Steps(s1, Go, s2) && Shaped(s2)
    ensures s2 == s.(pc := s.pc[s.k.current.value := Recheck(m)], monitor := false)
  {
    s1 := Next(s, Call(Lock(m)));
    s2 := Next(s1, Go);
  }

  lemma WaitsOn(s: State, c: Scene, m: nat, h: nat, z: nat) returns (s1: State, s2: State, r: State)
    requires Shaped(s) && Executing(s) && m < |c.locked| == |c.waits| && c.ready == [h, z]
    requires s.k.current == Some(c.current) && s.pc[c.current] == Recheck(m) && s.k.locked[m] && s.k.ready == c.ready
    requires s.k.locked == c.locked && s.k.waits == c.waits && s.k.place == c.place
    requires h < s.k.N() && s.pc[h] == User
    ensures Steps(s, Go, s1) && Steps(s1, Go, s2) && Steps(s2, PendSV, r) && Shaped(r)
    ensures r.k == s.k.(place := c.place[c.current := Waiting(m)][h := OnCpu], ready := [z], current := Some(h),
                        waits := c.waits[m := c.waits[m] + [c.current]])
    ensures r.pc == s.pc[c.current := LoadEx(m, true)] && r.held == s.held && !r.pendsv
  {
    s1 := Next(s, Go);
    s2 := Next(s1, Go);
    r := Next(s2, PendSV);
  }

  /** Task 1 holds mutex 0 and runs, only the idle task is ready. */
  ghost predicate Holding(c: Scene) {
    && |c.place| == |c.pc| == |c.held| == |c.prio| < MAX_TASKS && |c.prio| > 1 && |c.locked| == |c.waits| == 1
    && c.current == 1 && c.ready == [IDLE] && c.locked[0] && c.prio[IDLE] == IDLE_PRIO && c.prio[1] < IDLE_PRIO
    && c.place[1] == OnCpu && c.pc[1] == User
  }

  /** A more urgent task is created, gets the processor at the next yield, and joins the waiters. */
  function Joined(c: Scene, p: Prio): Scene
    requires |c.waits| > 0
  {
    c.(prio := c.prio + [p], place := c.place + [Waiting(0)], waits := [c.waits[0] + [|c.prio|]],
       pc := c.pc + [LoadEx(0, true)], held := c.held + [{}])
  }

  lemma Joins(s: State, c: Scene, p: Prio) returns (r: State)
    requires Reachable(s) && Shows(s, c) && Holding(c) && p <= c.prio[1]
    ensures Reachable(r) && Shows(r, Joined(c, p))
  {
    hide Next, Reachable;
    var n := |c.prio|;
    var a := Creates(s, c, p);
    ghost var ca := c.(prio := c.prio + [p], place := c.place + [InReady], ready := [n] + c.ready,
                       pc := c.pc + [User], held := c.held + [{}]);
    NextReachable(s, Create(p));
    var b1, b2, b := Yields(a, ca, n, IDLE);
    var cb := ca.(place := ca.place[1 := InReady][n := OnCpu], ready := [1, IDLE], current := n);
    NextReachable(a, Call(Yield));
    NextReachable(b1, Go);
    NextReachable(b2, PendSV);
    var d1, d2, d3, d4;
    d1, d2, d3, d4, r := Waits(b, cb, 0, 1, IDLE);
    NextReachable(b, Call(Lock(0)));
    NextReachable(d1, Go);
    NextReachable(d2, Go);
    NextReachable(d3, Go);
    NextReachable(d4, PendSV);
    assert cb.place[n := Waiting(0)][1 := OnCpu] == Joined(c, p).place;
    assert cb.pc[n := LoadEx(0, true)] == Joined(c, p).pc;
  }

  lemma Onward(s: State, es: seq<Event>, r: State)
    requires Reachable(s) && Leads(s, es, r)
    ensures Reachable(r)
  {
    hide Reachable, Next;
    RunReachable(s, es);
  }

  /** Task 1, of priority 10, holds the mutex. */
  const HOLDER := Scene([IDLE_PRIO, 10], [InReady, OnCpu], [IDLE], 1, [true], [[]], [User, User], [{}, {0}])

  lemma FirstHolds(s: State, r: State)
    requires First(s, 10) && Shaped(r)
    requires r == State(Owned(Locked(s.k, 0, true), 0, s.k.current), s.pc,
                        s.held[s.k.current.value := s.held[s.k.current.value] + {0}], false, false)
    ensures Shows(r, HOLDER)
  {
    assert s.held[1] + {0} == {0};
    assert s.held[1 := {0}] == [{}, {0}];
  }

  /** And task 2, of priority 9, waits for it. */
  const WAITER := Scene([IDLE_PRIO, 10, 9], [InReady, OnCpu, Waiting(0)], [IDLE], 1, [true], [[2]],
                        [User, User, LoadEx(0, true)], [{}, {0}, {}])

  lemma OneWaiter() returns (s: State)
    ensures Reachable(s) && Shows(s, WAITER)
  {
    hide Reachable, Shows, Leads, Acquire, Next;
    var r := Started(10);
    var h := TakesFree(r, 0, true);
    Onward(r, Acquire(0, true), h);
    FirstHolds(r, h);
    s := Joins(h, HOLDER, 9);
    assert HOLDER.waits[0] + [2] == [2];
    assert Joined(HOLDER, 9) == WAITER;
  }

  /** A reachable state in which unlock wakes task 2 although task 3, which waits behind it, is more urgent. */
  lemma UrgentWaiterPassedOver() returns (s: State)
    ensures Reachable(s) && Enabled(s, Call(Unlock(0)))
    ensures s.k.prio == [IDLE_PRIO, 10, 9, 5] && s.k.waits == [[2, 3]]
    ensures Fairness.Wakes(s.k, 0, 2) && !Fairness.Wakes(s.k, 0, 3)
  {
    hide Reachable, Shows, Fairness.Wakes, Orderly, Enabled, Inv;
    var r := OneWaiter();
    s := Joins(r, WAITER, 5);
    ShowsTwo(s);
    ReachableInv(s);
    TwoWait(s);
  }

  lemma ShowsTwo(s: State)
    requires Shows(s, Joined(WAITER, 5))
    ensures Enabled(s, Call(Unlock(0))) && s.k.prio == [IDLE_PRIO, 10, 9, 5] && s.k.waits == [[2, 3]]
  {
    assert WAITER.waits[0] + [3] == [2, 3];
    assert s.held[1] == {0};
  }

  lemma TwoWait(s: State)
    requires Inv(s) && s.k.prio == [IDLE_PRIO, 10, 9, 5] && s.k.waits == [[2, 3]]
    ensures Fairness.Wakes(s.k, 0, 2) && !Fairness.Wakes(s.k, 0, 3)
  {
    assert s.k.waits[0] == [2, 3] && s.k.waits[0][0] == 2;
    hide Fairness.Wakes, Fairness.MostUrgent, Control, IdleReady, Guarded, NoLostWakeup, Located, Sorted;
    Fairness.UnlockWakesFirst(s.k, 0, 2);
    Fairness.UnlockWakesFirst(s.k, 0, 3);
  }

  /** The switch goes to the most urgent task. */
  lemma UrgentRuns(k: Kernel, x: nat)
    requires Orderly(k) && x < k.N() && k.place[x] in {InReady, OnCpu}
    requires forall y :: 0 <= y < k.N() && y != x ==> k.prio[x] < k.prio[y]
    ensures Schedule(k).current == Some(x)
  {
    SchedulePlaces(k, x);
    ScheduleOrderly(k);
    Properties.ScheduleFirst(k);
    var r := Schedule(k);
    assert r.prio == k.prio && (r.place[x] == InReady || r.place[x] == OnCpu);
    hide Schedule, Sorted, Kernel.Listed;
    assert LocatedAt(r, x);
  }

  /** An unlock up to the switch that it pends. */
  lemma Unlocks(s: State, m: nat) returns (s1: State, s2: State)
    requires Shaped(s) && Enabled(s, Call(Unlock(m)))
    ensures Steps(s, Call(Unlock(m)), s1) && Steps(s1, Go, s2) && Shaped(s2)
    ensures s2.k == KernelSpec.Unlock(s.k, m) && s2.pc == s.pc && s2.pendsv
  {
    s1 := Next(s, Call(Unlock(m)));
    s2 := Next(s1, Go);
  }

  lemma LedTo(s: State, e: Event, s1: State, e1: Event, s2: State, e2: Event, t: State)
    requires Steps(s, e, s1) && Steps(s1, e1, s2) && Leads(s, [e, e1, e2], t)
    ensures Steps(s2, e2, t)
  {
    hide Next, Enabled;
    assert [e, e1, e2][1..] == [e1, e2] && [e1, e2][1..] == [e2] && [e2][1..] == [];
    assert CanRun(s1, [e1, e2]) && Run(s1, [e1, e2]) == t;
    assert CanRun(s2, [e2]) && Run(s2, [e2]) == t;
    assert Run(Next(s2, e2), []) == t;
  }

  lemma RunsThird(s: State, t: State)
    requires Inv(s) && Enabled(s, Call(Unlock(0))) && s.k.waits == [[2]]
    requires s.k.prio == [IDLE_PRIO, 10, 9, 5] && s.k.place[3] == InReady && s.pc[3] == User
    requires Leads(s, [Call(Unlock(0)), Go, PendSV], t)
    ensures InUserCode(t) && t.k.current == Some(3)
  {
    hide Leads, Enabled;
    var s1, s2 := Unlocks(s, 0);
    hide Next;
    LedTo(s, Call(Unlock(0)), s1, Go, s2, PendSV, t);
    UnlockOrderly(s.k, 0);
    UnlockBystander(s.k, 3);
    hide KernelSpec.Unlock;
    RunsUrgent(s2, t);
  }

  lemma UnlockBystander(k: Kernel, x: nat)
    requires k.Shaped() && k.waits == [[2]] && x < k.N() && x != 2
    ensures KernelSpec.Unlock(k, 0).place[x] == k.place[x] && KernelSpec.Unlock(k, 0).prio == k.prio
  {
  }

  lemma RunsUrgent(s: State, t: State)
    requires Steps(s, PendSV, t) && Orderly(s.k)
    requires s.k.prio == [IDLE_PRIO, 10, 9, 5] && s.k.place[3] == InReady && s.pc[3] == User
    ensures InUserCode(t) && t.k.current == Some(3)
  {
    hide Orderly, Schedule;
    UrgentRuns(s.k, 3);
    assert t.k == Schedule(s.k) && t.pc == s.pc && !t.pendsv;
  }

  /** Task 1 is about to unlock, task 2 waits, task 3, the most urgent, is new. */
  lemma ThreeReady() returns (s: State)
    ensures Reachable(s) && Enabled(s, Call(Unlock(0))) && s.k.waits == [[2]]
    ensures s.k.prio == [IDLE_PRIO, 10, 9, 5] && s.k.place[3] == InReady && s.pc[3] == User
  {
    hide Reachable, Next;
    var q := OneWaiter();
    s := Creates(q, WAITER, 5);
    NextReachable(q, Create(5));
    assert s.held[1] == {0};
  }

  /** Barging happens: a task that never waited takes the mutex before the waiter that the unlock has woken. */
  lemma BargingHappens() returns (s: State, t: State, r: State)
    ensures Reachable(s) && Enabled(s, Call(Unlock(0))) && s.k.waits == [[2]]
    ensures Leads(s, [Call(Unlock(0)), Go, PendSV], t) && Leads(t, Acquire(0, false), r) && Barged(r, 0, 3, 2)
  {
    hide Reachable, Leads, Inv, Freed, Barged, Acquire, InUserCode, Enabled;
    s := ThreeReady();
    ReachableInv(s);
    t, r := Barging(s, 0);
    RunsThird(s, t);
  }
}
