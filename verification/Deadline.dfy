/** How long `vk_task_sleep` sleeps, to the tick, over every run. */
module Deadline {
  import opened Basics
  import opened KernelSpec
  import opened KernelFacts
  import opened Machine
  import opened Invariant
  import opened Words

  /**
   The number of SysTicks after which a task whose `wake_tick` is `w` leaves
   the sleep queue, counted from a moment when `vk_ticks` is `t`.  The two are
   compared as plain integers, so a deadline that is not ahead of `t` is met at
   the next tick unless that tick wraps to 0.
   */
  function TicksToWake(t: KernelSpec.Tick, w: KernelSpec.Tick): (n: nat) {
    if w > t then w - t
    else if t + 1 < WORD then 1
    else w + 1
  }

  /** How long a task that calls `vk_task_sleep(n)` at tick `t` is kept asleep. */
  function SleepTime(t: KernelSpec.Tick, n: KernelSpec.Tick): nat {
    TicksToWake(t, Add32(t, n))
  }

  /** The sleep is exact unless it is of no ticks at all or its deadline wraps while `vk_ticks` does not. */
  lemma SleepTimeExact(t: KernelSpec.Tick, n: KernelSpec.Tick)
    ensures SleepTime(t, n) == n <==> n >= 1 && (t + n < WORD || t == WORD - 1)
  {
  }

  /** What happens otherwise: one tick, or at the very last tick value a full turn of the counter. */
  lemma SleepTimeOtherwise(t: KernelSpec.Tick, n: KernelSpec.Tick)
    requires n == 0 || (t + n >= WORD && t != WORD - 1)
    ensures SleepTime(t, n) == if n == 0 && t == WORD - 1 then WORD else 1
  {
  }

  /** A deadline that wraps: three ticks asked for at tick 2^32 - 2, one tick slept. */
  lemma WrappedDeadline()
    ensures SleepTime(0xFFFF_FFFE, 3) == 1
  {
  }

  function Ticks(es: seq<Event>): (n: nat) {
    if es == [] then 0 else (if es[0].Tick? then 1 else 0) + Ticks(es[1..])
  }

  /** Task `x` is on the sleep queue in `s` and after every event of the run `es`. */
  ghost predicate AsleepThroughout(s: State, es: seq<Event>, x: nat)
    requires Shaped(s) && CanRun(s, es)
    decreases |es|
  {
    x in s.k.sleepers && (es == [] || AsleepThroughout(Next(s, es[0]), es[1..], x))
  }

  // ---- One tick

  /** The SysTick loop takes exactly the sleepers whose deadline has come. */
  lemma {:induction false} WakeExpiredExact(k: Kernel, x: nat)
    requires Orderly(k) && x in k.sleepers
    ensures x in WakeExpired(k).sleepers <==> k.wake[x] > k.ticks
    decreases |k.sleepers|
  {
    if k.sleepers != [] && k.wake[k.sleepers[0]] <= k.ticks {
      var h := k.sleepers[0];
      var k1 := k.(sleepers := k.sleepers[1..]);
      PopSleeper(k);
      ReadyInsertOrderly(k1, h);
      if x == h {
        WakeExpiredKeepsOut(ReadyInsert(k1, h), x);
      } else {
        assert k.sleepers == [h] + k.sleepers[1..];
        WakeExpiredExact(ReadyInsert(k1, h), x);
      }
    }
  }

  lemma {:induction false} WakeExpiredKeepsOut(k: Kernel, x: nat)
    requires k.Shaped() && x !in k.sleepers
    ensures x !in WakeExpired(k).sleepers
    decreases |k.sleepers|
  {
    if k.sleepers != [] && k.wake[k.sleepers[0]] <= k.ticks {
      WakeExpiredKeepsOut(ReadyInsert(k.(sleepers := k.sleepers[1..]), k.sleepers[0]), x);
    }
  }

  lemma TickAsleep(k: Kernel, x: nat)
    requires Orderly(k) && x in k.sleepers
    ensures var d, r := TicksToWake(k.ticks, k.wake[x]), SysTick(k);
      if d == 1 then x !in r.sleepers else x in r.sleepers && TicksToWake(r.ticks, r.wake[x]) == d - 1
  {
    var k1 := k.(ticks := Add32(k.ticks, 1));
    SameLists(k, k1);
    WakeExpiredExact(k1, x);
  }

  /** One event brings a sleeper one tick closer, or none; it leaves at the tick that makes the distance zero. */
  lemma NextAsleep(s: State, e: Event, x: nat)
    requires Inv(s) && Enabled(s, e) && x in s.k.sleepers
    ensures var d, r := TicksToWake(s.k.ticks, s.k.wake[x]), Next(s, e).k;
      if !e.Tick? then x in r.sleepers && TicksToWake(r.ticks, r.wake[x]) == d
      else if d == 1 then x !in r.sleepers
      else x in r.sleepers && TicksToWake(r.ticks, r.wake[x]) == d - 1
  {
    match e
    case Tick => TickAsleep(s.k, x);
    case Irq =>
    case PendSV =>
    case Start =>
    case Create(p) =>
    case InitMutex =>
    case Call(a) => CallAsleep(s, a, x);
    case Go =>
  }

  lemma CallAsleep(s: State, a: Api, x: nat)
    requires Inv(s) && InUserCode(s) && Allowed(s, a) && x in s.k.sleepers
    ensures var r := CallStep(s, a).k; x in r.sleepers && r.ticks == s.k.ticks && r.wake[x] == s.k.wake[x]
  {
    if a.Sleep? {
      var c, w := s.k.current.value, Add32(s.k.ticks, a.n);
      assert s.k.place[x] == Sleeping;
      InsertAtKeeps(s.k.sleepers, Slot(s.k.sleepers, s.k.wake[c := w], w), c);
    }
  }

  // ---- Runs

  /** A sleeper sleeps through a run exactly when the run has fewer SysTicks than it has left. */
  lemma {:induction false} AsleepExactly(s: State, es: seq<Event>, x: nat)
    requires Inv(s) && CanRun(s, es) && x in s.k.sleepers
    ensures AsleepThroughout(s, es, x) <==> Ticks(es) < TicksToWake(s.k.ticks, s.k.wake[x])
    decreases |es|
  {
    if es != [] {
      var s1 := Next(s, es[0]);
      NextAsleep(s, es[0], x);
      NextInv(s, es[0]);
      if x in s1.k.sleepers {
        AsleepExactly(s1, es[1..], x);
      }
    }
  }

  lemma FallsAsleep(k: Kernel, n: KernelSpec.Tick)
    requires k.Shaped() && k.current.Some?
    ensures var r := KernelSpec.Sleep(k, n);
      r.current == k.current && k.current.value in r.sleepers && r.ticks == k.ticks &&
      r.wake[k.current.value] == Add32(k.ticks, n)
  {
    var c, w := k.current.value, Add32(k.ticks, n);
    InsertAtKeeps(k.sleepers, Slot(k.sleepers, k.wake[c := w], w), c);
  }

  /**
   Exact sleep: after `vk_task_sleep(n)` at tick `t` the caller is on the sleep
   queue throughout a run iff the run has fewer than SleepTime(t, n) SysTicks,
   whatever the other tasks and interrupts do meanwhile.
   */
  lemma SleepsExactly(s: State, n: KernelSpec.Tick, es: seq<Event>)
    requires Reachable(s) && Enabled(s, Call(Sleep(n)))
    requires CanRun(Next(s, Call(Sleep(n))), es)
    ensures AsleepThroughout(Next(s, Call(Sleep(n))), es, s.k.current.value) <==>
      Ticks(es) < SleepTime(s.k.ticks, n)
  {
    ReachableInv(s);
    NextInv(s, Call(Sleep(n)));
    FallsAsleep(s.k, n);
    AsleepExactly(Next(s, Call(Sleep(n))), es, s.k.current.value);
  }

  /** Nothing but `n` SysTicks. */
  function OnlyTicks(n: nat): (es: seq<Event>)
    ensures Ticks(es) == n
  {
    if n == 0 then [] else [Tick] + OnlyTicks(n - 1)
  }

  lemma {:induction false} OnlyTicksRun(s: State, n: nat)
    requires Shaped(s)
    ensures CanRun(s, OnlyTicks(n))
    decreases n
  {
    if n > 0 {
      OnlyTicksRun(Next(s, Tick), n - 1);
      assert OnlyTicks(n)[1..] == OnlyTicks(n - 1);
    }
  }

  /** Every run of `t` keeps `x` asleep for exactly `n` SysTicks. */
  ghost predicate AlwaysSleeps(t: State, x: nat, n: nat)
    requires Shaped(t)
  {
    forall es :: CanRun(t, es) ==> (AsleepThroughout(t, es, x) <==> Ticks(es) < n)
  }

  /**
   `vk_task_sleep(n)` sleeps exactly the ticks it is asked for, in every run,
   iff `n` is at least 1 and the deadline does not wrap before `vk_ticks` does.
   */
  lemma SleepsAsAsked(s: State, n: KernelSpec.Tick)
    requires Reachable(s) && Enabled(s, Call(Sleep(n)))
    ensures AlwaysSleeps(Next(s, Call(Sleep(n))), s.k.current.value, n) <==>
      n >= 1 && (s.k.ticks + n < WORD || s.k.ticks == WORD - 1)
  {
    var t, x, m := Next(s, Call(Sleep(n))), s.k.current.value, SleepTime(s.k.ticks, n);
    SleepTimeExact(s.k.ticks, n);
    hide Reachable, Next;
    forall es | CanRun(t, es)
      ensures AsleepThroughout(t, es, x) <==> Ticks(es) < m
    {
      SleepsExactly(s, n, es);
    }
    var least := if m < n then m else n;
    OnlyTicksRun(t, least);
    assert AsleepThroughout(t, OnlyTicks(least), x) <==> least < m;
  }

  /**
   The deadline as its documentation has it: the SysTick at which the sleeper
   leaves is the one that makes `vk_ticks` equal t + n.
   */
  lemma WokenAtDeadline(s: State, x: nat)
    requires Inv(s) && x in s.k.sleepers && s.k.wake[x] > s.k.ticks
    ensures x !in Next(s, Tick).k.sleepers <==> Next(s, Tick).k.ticks == s.k.wake[x]
    ensures x !in Next(s, Tick).k.sleepers ==> StatusOf(Next(s, Tick).k.place[x]) == Ready
  {
    NextAsleep(s, Tick, x);
    NextInv(s, Tick);
    SysTickPlaces(s.k);
    var k := Next(s, Tick).k;
    assert s.k.place[x] == Sleeping;
    assert LocatedAt(k, x);
  }
}
