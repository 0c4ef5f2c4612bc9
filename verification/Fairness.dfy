/** Order over runs: no overtaking in the ready queue, round robin, first come first woken. */
module Fairness {
  import opened Basics
  import opened KernelSpec
  import opened KernelFacts
  import opened Machine
  import opened Invariant
  import opened Words

  // ---- No overtaking

  /** The ready tasks of the priority of `x` that were inserted before it. */
  ghost function Ahead(k: Kernel, x: nat): (r: set<nat>)
    requires k.Shaped()
  {
    set y | y in k.ready && x < k.N() && y < k.N() && k.prio[y] == k.prio[x] && k.arrival[y] < k.arrival[x]
  }

  /** From `k` to `r`, tasks that stay ready keep their rank and newcomers rank last. */
  ghost predicate RanksKept(k: Kernel, r: Kernel)
    requires k.Shaped() && r.Shaped() && k.N() <= r.N()
  {
    && k.prio <= r.prio && k.arrivals <= r.arrivals
    && (forall i :: 0 <= i < |r.ready| ==>
          if r.ready[i] in k.ready then r.arrival[r.ready[i]] == k.arrival[r.ready[i]]
          else r.arrival[r.ready[i]] >= k.arrivals)
  }

  lemma InsertRanks(k: Kernel, x: nat)
    requires k.Shaped() && x < k.N() && Absent(k.ready, x)
    ensures RanksKept(k, ReadyInsert(k, x))
    ensures forall y :: y in k.ready ==> y in ReadyInsert(k, x).ready
  {
    InsertAtKeeps(k.ready, Slot(k.ready, k.prio, k.prio[x]), x);
  }

  lemma {:induction false} WakeExpiredRanks(k: Kernel)
    requires Orderly(k)
    ensures RanksKept(k, WakeExpired(k))
    ensures forall y :: y in k.ready ==> y in WakeExpired(k).ready
    decreases |k.sleepers|
  {
    if k.sleepers != [] && k.wake[k.sleepers[0]] <= k.ticks {
      var k1 := k.(sleepers := k.sleepers[1..]);
      PopSleeper(k);
      InsertRanks(k1, k.sleepers[0]);
      ReadyInsertOrderly(k1, k.sleepers[0]);
      WakeExpiredRanks(ReadyInsert(k1, k.sleepers[0]));
    }
  }

  lemma PopRanks(k: Kernel)
    requires k.Shaped()
    ensures RanksKept(k, PopReady(k))
  {
    if k.ready != [] {
      assert forall i :: 0 <= i < |PopReady(k).ready| ==> PopReady(k).ready[i] == k.ready[i + 1];
    }
  }

  lemma ScheduleRanks(k: Kernel)
    requires Orderly(k)
    ensures RanksKept(k, Schedule(k))
  {
    if CurrentRuns(k) {
      OffLists(k, k.current.value);
      InsertRanks(k, k.current.value);
      PopRanks(ReadyInsert(k, k.current.value));
    } else {
      PopRanks(k);
    }
  }

  lemma NextRanks(s: State, e: Event)
    requires Inv(s) && Enabled(s, e)
    ensures RanksKept(s.k, Next(s, e).k)
  {
    hide Guarded, NoLostWakeup, Kernel.Listed, Sorted, Located;
    match e
    case Tick => TickRanks(s.k);
    case Irq =>
    case PendSV => ScheduleRanks(s.k);
    case Start => PopRanks(s.k);
    case Create(p) => CreateRanks(s.k, p);
    case InitMutex =>
    case Call(a) => CallRanks(s, a);
    case Go =>
  }

  lemma TickRanks(k: Kernel)
    requires Orderly(k)
    ensures RanksKept(k, SysTick(k))
  {
    var k1 := k.(ticks := Add32(k.ticks, 1));
    SameLists(k, k1);
    WakeExpiredRanks(k1);
  }

  lemma CreateRanks(k: Kernel, p: Prio)
    requires k.Shaped()
    ensures RanksKept(k, KernelSpec.Create(k, p))
  {
    if k.N() < MAX_TASKS {
      InsertRanks(k.(prio := k.prio + [p], place := k.place + [Exited],
                     wake := k.wake + [0], arrival := k.arrival + [0]), k.N());
    }
  }

  lemma CallRanks(s: State, a: Api)
    requires Inv(s) && InUserCode(s) && Allowed(s, a)
    ensures RanksKept(s.k, CallStep(s, a).k)
  {
    if a.Sleep? {
      SleepRemovesNothing(s.k);
    } else if a.Unlock? {
      UnlockRanks(s.k, a.m);
    }
  }

  lemma UnlockRanks(k: Kernel, m: nat)
    requires k.Shaped() && k.Listed() && m < k.M()
    ensures RanksKept(k, KernelSpec.Unlock(k, m))
  {
    if k.waits[m] != [] {
      assert k.place[k.waits[m][0]] == Waiting(m);
      InsertRanks(k.(locked := k.locked[m := false], owner := k.owner[m := None],
                     waits := k.waits[m := k.waits[m][1..]]), k.waits[m][0]);
    }
  }

  lemma AheadShrinks(k: Kernel, r: Kernel, x: nat)
    requires Orderly(k) && r.Shaped() && k.N() <= r.N() && RanksKept(k, r) && x in k.ready && x in r.ready
    ensures Ahead(r, x) <= Ahead(k, x)
  {
    hide Located, Kernel.Listed;
  }

  /** While `x` stays ready, nobody of its priority gets in front of it. */
  lemma NoOvertaking(s: State, e: Event, x: nat)
    requires Inv(s) && Enabled(s, e) && x in s.k.ready && x in Next(s, e).k.ready
    ensures Ahead(Next(s, e).k, x) <= Ahead(s.k, x)
  {
    hide Ahead, Next;
    NextRanks(s, e);
    AheadShrinks(s.k, Next(s, e).k, x);
  }

  /** A switch to a task of the priority of `x` uses up one of those ahead of it. */
  lemma SwitchAdvances(s: State, x: nat)
    requires Inv(s) && s.pendsv && x in s.k.ready && x in Next(s, PendSV).k.ready
    requires s.k.prio[Next(s, PendSV).k.current.value] == s.k.prio[x]
    ensures Ahead(Next(s, PendSV).k, x) < Ahead(s.k, x)
  {
    var r := Next(s, PendSV).k;
    var c := r.current.value;
    NoOvertaking(s, PendSV, x);
    NextOrderly(s, PendSV);
    SwitchFromAhead(s.k, x);
    assert c !in Ahead(r, x);
  }

  lemma SwitchFromAhead(k: Kernel, x: nat)
    requires Orderly(k) && x in k.ready && x in Schedule(k).ready && Schedule(k).current.Some?
    requires k.prio[Schedule(k).current.value] == k.prio[x]
    ensures Schedule(k).current.value in Ahead(k, x)
    ensures Schedule(k).current.value !in Schedule(k).ready
  {
    if CurrentRuns(k) {
      var k1 := ReadyInsert(k, k.current.value);
      PreemptOrderly(k);
      OffLists(k, k.current.value);
      InsertRanks(k, k.current.value);
      HeadAhead(k1, x);
      AheadShrinks(k, k1, x);
    } else {
      HeadAhead(k, x);
    }
  }

  lemma HeadAhead(k: Kernel, x: nat)
    requires Orderly(k) && k.ready != [] && x in k.ready[1..] && k.prio[k.ready[0]] == k.prio[x]
    ensures k.ready[0] in Ahead(k, x) && k.ready[0] !in k.ready[1..]
  {
    var i :| 0 <= i < |k.ready[1..]| && k.ready[1..][i] == x;
    assert k.ready[i + 1] == x;
  }

  /** `x` is on the ready queue in `s` and after every event of the run. */
  ghost predicate ReadyThroughout(s: State, es: seq<Event>, x: nat)
    requires Shaped(s) && CanRun(s, es)
    decreases |es|
  {
    x in s.k.ready && (es == [] || ReadyThroughout(Next(s, es[0]), es[1..], x))
  }

  /** How many switches of the run go to a task of priority `p`. */
  ghost function Switches(s: State, es: seq<Event>, p: int): (n: nat)
    requires Shaped(s) && CanRun(s, es)
    decreases |es|
  {
    if es == [] then 0
    else
      var s1 := Next(s, es[0]);
      (if es[0].PendSV? && s1.k.current.Some? && s1.k.prio[s1.k.current.value] == p then 1 else 0)
      + Switches(s1, es[1..], p)
  }

  /**
   Bounded waiting: while `x` is ready, at most as many switches go to tasks of
   its priority as there were such tasks ahead of it, and that number never grows.
   */
  lemma {:induction false} BoundedWaiting(s: State, es: seq<Event>, x: nat)
    requires Inv(s) && CanRun(s, es) && ReadyThroughout(s, es, x)
    ensures Ahead(Run(s, es).k, x) <= Ahead(s.k, x)
    ensures Switches(s, es, s.k.prio[x]) + |Ahead(Run(s, es).k, x)| <= |Ahead(s.k, x)|
    decreases |es|
  {
    if es != [] {
      var s1 := Next(s, es[0]);
      NextInv(s, es[0]);
      NextRanks(s, es[0]);
      NoOvertaking(s, es[0], x);
      Smaller(Ahead(s1.k, x), Ahead(s.k, x));
      if es[0].PendSV? && s1.k.current.Some? && s1.k.prio[s1.k.current.value] == s.k.prio[x] {
        SwitchAdvances(s, x);
      }
      BoundedWaiting(s1, es[1..], x);
    }
  }

  lemma Smaller(a: set<nat>, b: set<nat>)
    requires a <= b
    ensures |a| <= |b| && (a < b ==> |a| < |b|)
  {
    assert b == a + (b - a);
  }

  // ---- Round robin

  /**
   `q` lists the running task and the equally urgent head of the ready queue,
   all in their own code; `rest` is the remaining, less urgent, ready queue.
   */
  ghost predicate Peers(s: State, q: seq<nat>, rest: seq<nat>) {
    && Shaped(s) && !s.pendsv && q != []
    && CurrentRuns(s.k) && q[0] == s.k.current.value
    && s.k.ready == q[1..] + rest && Bounded(q, s.k.N())
    && (forall i :: 0 <= i < |q| ==>
          q[i] != IDLE && s.pc[q[i]] == User && s.k.prio[q[i]] == s.k.prio[q[0]])
    && (forall i :: 0 <= i < |rest| ==> rest[i] < s.k.N() && s.k.prio[rest[i]] > s.k.prio[q[0]])
  }

  function Rotate(q: seq<nat>): (r: seq<nat>)
    requires q != []
  {
    q[1..] + [q[0]]
  }

  function RotateBy(q: seq<nat>, n: nat): (r: seq<nat>)
    requires q != []
    ensures |r| == |q|
    decreases n
  {
    if n == 0 then q else RotateBy(Rotate(q), n - 1)
  }

  lemma {:induction false} RotateByIs(q: seq<nat>, n: nat)
    requires q != [] && n <= |q|
    ensures RotateBy(q, n) == q[n..] + q[..n]
    decreases n
  {
    if n > 0 {
      RotateByIs(Rotate(q), n - 1);
      assert Rotate(q)[n - 1..] + Rotate(q)[..n - 1] == q[n..] + q[..n];
    }
  }

  /** A yield: call, trigger, switch. */
  const YIELD: seq<Event> := [Call(Yield), Go, PendSV]

  function Yields(n: nat): (es: seq<Event>) {
    if n == 0 then [] else YIELD + Yields(n - 1)
  }

  lemma {:induction false} SlotBehind(a: seq<nat>, rest: seq<nat>, keys: seq<int>, p: int)
    requires Bounded(a + rest, |keys|)
    requires forall i :: 0 <= i < |a| ==> a[i] < |keys| && keys[a[i]] <= p
    requires forall i :: 0 <= i < |rest| ==> rest[i] < |keys| && keys[rest[i]] > p
    ensures Slot(a + rest, keys, p) == |a|
  {
    if a == [] {
      assert a + rest == rest;
    } else {
      assert (a + rest)[1..] == a[1..] + rest;
      SlotBehind(a[1..], rest, keys, p);
    }
  }

  /** `_vk_schedule` puts the running task behind its peers and takes the next of them. */
  lemma RotateSchedule(k: Kernel, q: seq<nat>, rest: seq<nat>)
    requires k.Shaped() && CurrentRuns(k) && q != [] && q[0] == k.current.value
    requires k.ready == q[1..] + rest && Slot(k.ready, k.prio, k.prio[q[0]]) == |q| - 1
    ensures CurrentRuns(Schedule(k)) && Schedule(k).current.value == Rotate(q)[0]
    ensures Schedule(k).ready == Rotate(q)[1..] + rest
    ensures Schedule(k).prio == k.prio
  {
    assert ReadyInsert(k, q[0]).ready == Rotate(q) + rest;
  }

  lemma YieldRotates(s: State, q: seq<nat>, rest: seq<nat>)
    requires Peers(s, q, rest)
    ensures var s1 := Next(s, Call(Yield));
      && Enabled(s1, Go)
      && var s2 := Next(s1, Go);
      && Enabled(s2, PendSV)
      && Peers(Next(s2, PendSV), Rotate(q), rest)
  {
    var s2 := Next(Next(s, Call(Yield)), Go);
    assert s2.k == s.k && s2.pc == s.pc && s2.pendsv;
    SlotBehind(q[1..], rest, s.k.prio, s.k.prio[q[0]]);
    RotateSchedule(s.k, q, rest);
    RotatePeers(s, q, rest, Next(s2, PendSV));
  }

  lemma RotatePeers(s: State, q: seq<nat>, rest: seq<nat>, r: State)
    requires Peers(s, q, rest) && Shaped(r) && !r.pendsv && r.pc == s.pc && r.k.prio == s.k.prio
    requires CurrentRuns(r.k) && r.k.current.value == Rotate(q)[0]
    requires r.k.ready == Rotate(q)[1..] + rest
    ensures Peers(r, Rotate(q), rest)
  {
    var p := Rotate(q);
    assert forall i :: 0 <= i < |p| ==> p[i] == if i < |q| - 1 then q[i + 1] else q[0];
  }

  lemma YieldFirst(s: State, s1: State, s2: State, t: State, es: seq<Event>, r: State)
    requires Shaped(s) && Enabled(s, Call(Yield)) && s1 == Next(s, Call(Yield))
    requires Enabled(s1, Go) && s2 == Next(s1, Go) && Enabled(s2, PendSV) && t == Next(s2, PendSV)
    requires Leads(t, es, r)
    ensures Leads(s, YIELD + es, r)
  {
    hide Leads, Next, Enabled;
    LeadsFirst(s2, PendSV, es, r);
    LeadsFirst(s1, Go, [PendSV] + es, r);
    LeadsFirst(s, Call(Yield), [Go] + ([PendSV] + es), r);
    assert YIELD + es == [Call(Yield)] + ([Go] + ([PendSV] + es));
  }

  /** One yield rotates the peers; a run from there is a run from here. */
  lemma YieldStep(s: State, q: seq<nat>, rest: seq<nat>) returns (t: State)
    requires Peers(s, q, rest)
    ensures Peers(t, Rotate(q), rest)
    ensures forall es, r :: Leads(t, es, r) ==> Leads(s, YIELD + es, r)
  {
    YieldRotates(s, q, rest);
    hide Next, Leads;
    var s1 := Next(s, Call(Yield));
    var s2 := Next(s1, Go);
    t := Next(s2, PendSV);
    forall es, r | Leads(t, es, r)
      ensures Leads(s, YIELD + es, r)
    {
      YieldFirst(s, s1, s2, t, es, r);
    }
  }

  lemma {:induction false} RunYields(s: State, q: seq<nat>, rest: seq<nat>, n: nat) returns (r: State)
    requires Peers(s, q, rest)
    ensures Leads(s, Yields(n), r) && Peers(r, RotateBy(q, n), rest)
    decreases n
  {
    if n == 0 {
      r := s;
    } else {
      hide Leads, Peers;
      var t := YieldStep(s, q, rest);
      r := RunYields(t, Rotate(q), rest, n - 1);
      assert Leads(s, YIELD + Yields(n - 1), r);
      assert Yields(n) == YIELD + Yields(n - 1);
    }
  }

  /**
   Round robin: the n-th of |q| yields puts q[n] on the processor, and after
   |q| of them the running task and the ready queue are what they were.
   */
  lemma RoundRobin(s: State, q: seq<nat>, rest: seq<nat>, n: nat)
    requires Peers(s, q, rest) && n <= |q|
    ensures CanRun(s, Yields(n))
    ensures Run(s, Yields(n)).k.current == Some(if n < |q| then q[n] else q[0])
    ensures n == |q| ==> Run(s, Yields(n)).k.ready == s.k.ready
  {
    hide CanRun, Run;
    var r := RunYields(s, q, rest, n);
    RotateByIs(q, n);
  }

  // ---- First come, first woken

  /** How many unlocks of `m` a run has. */
  function Unlocks(es: seq<Event>, m: nat): (n: nat) {
    if es == [] then 0 else (if es[0] == Call(Unlock(m)) then 1 else 0) + Unlocks(es[1..], m)
  }

  /** `x` is on the wait queue of `m` in `s` and after every event of the run. */
  ghost predicate WaitsThroughout(s: State, es: seq<Event>, x: nat, m: nat)
    requires Shaped(s) && CanRun(s, es) && m < s.k.M()
    decreases |es|
  {
    x in s.k.waits[m] && (es == [] || WaitsThroughout(Next(s, es[0]), es[1..], x, m))
  }

  /** An unlock takes the first waiter and makes it ready; nothing else moves a waiter forward or back. */
  lemma NextWaiter(s: State, e: Event, m: nat, i: nat)
    requires Inv(s) && Enabled(s, e) && m < s.k.M() && i < |s.k.waits[m]|
    ensures m < Next(s, e).k.M()
    ensures var x, r := s.k.waits[m][i], Next(s, e).k;
      if e != Call(Unlock(m)) then i < |r.waits[m]| && r.waits[m][i] == x
      else if i > 0 then i <= |r.waits[m]| && r.waits[m][i - 1] == x
      else x !in r.waits[m] && StatusOf(r.place[x]) == Ready
  {
    hide Guarded, NoLostWakeup, Sorted, Located;
    match e
    case Tick =>
    case Irq =>
    case PendSV =>
    case Start =>
    case Create(p) =>
    case InitMutex =>
    case Call(a) => if a.Unlock? { UnlockWaiter(s.k, a.m, m, i); }
    case Go => GoWaiter(s, m, i);
  }

  lemma UnlockWaiter(k: Kernel, n: nat, m: nat, i: nat)
    requires k.Shaped() && k.Listed() && n < k.M() && m < k.M() && i < |k.waits[m]|
    ensures var x, r := k.waits[m][i], KernelSpec.Unlock(k, n);
      if n != m then r.waits[m] == k.waits[m]
      else if i > 0 then i <= |r.waits[m]| && r.waits[m][i - 1] == x
      else x !in r.waits[m] && r.place[x] == InReady
  {
  }

  lemma GoWaiter(s: State, m: nat, i: nat)
    requires Shaped(s) && Enabled(s, Go) && m < s.k.M() && i < |s.k.waits[m]|
    ensures var r := GoStep(s).k; i < |r.waits[m]| && r.waits[m][i] == s.k.waits[m][i]
  {
  }

  /** The unlock makes waiter `w` of `m` ready. */
  predicate Wakes(k: Kernel, m: nat, w: nat)
    requires k.Shaped() && m < k.M() && w < k.N()
  {
    k.place[w] == Waiting(m) && KernelSpec.Unlock(k, m).place[w] == InReady
  }

  /** `w` is the most urgent waiter of `m`, or one of them. */
  ghost predicate MostUrgent(k: Kernel, m: nat, w: nat)
    requires k.Shaped() && m < k.M() && w < k.N()
  {
    forall i :: 0 <= i < |k.waits[m]| ==> k.prio[w] <= k.prio[k.waits[m][i]]
  }

  /**
   An unlock wakes the first waiter and no other, so it wakes a most urgent one,
   as its documentation has it, iff the one that has waited longest is that urgent.
   */
  lemma UnlockWakesFirst(k: Kernel, m: nat, w: nat)
    requires Orderly(k) && m < k.M() && w < k.N() && k.waits[m] != []
    ensures Wakes(k, m, w) <==> w == k.waits[m][0]
    ensures (forall x :: 0 <= x < k.N() && Wakes(k, m, x) ==> MostUrgent(k, m, x)) <==> MostUrgent(k, m, k.waits[m][0])
  {
    forall x: nat | x < k.N()
      ensures Wakes(k, m, x) <==> x == k.waits[m][0]
    {
      assert k.place[k.waits[m][0]] == Waiting(m);
    }
  }

  /** A waiter with `i` others before it stays through exactly `i` unlocks: the next one makes it ready. */
  lemma {:induction false} WokenInOrder(s: State, es: seq<Event>, m: nat, i: nat)
    requires Inv(s) && CanRun(s, es) && m < s.k.M() && i < |s.k.waits[m]|
    ensures WaitsThroughout(s, es, s.k.waits[m][i], m) <==> Unlocks(es, m) <= i
    decreases |es|
  {
    hide Next, Orderly, Control, IdleReady, Guarded, NoLostWakeup;
    if es != [] {
      var s1 := Next(s, es[0]);
      NextWaiter(s, es[0], m, i);
      NextInv(s, es[0]);
      if es[0] != Call(Unlock(m)) {
        WokenInOrder(s1, es[1..], m, i);
      } else if i > 0 {
        WokenInOrder(s1, es[1..], m, i - 1);
      }
    }
  }
}
