/** What the calls of the API do for, and to, the task that makes them. */
module Calls {
  import opened Basics
  import opened KernelSpec
  import opened KernelFacts
  import opened Machine
  import opened Invariant
  import Deadline
  import Fairness
  import Properties

  // ---- Returning from the mutex calls

  /** Inside `vk_mutex_trylock(m)`. */
  ghost predicate InTry(p: Pc, m: nat) {
    p in {LoadEx(m, false), StoreEx(m, false), SetOwner(m, false)}
  }

  /** Inside `vk_mutex_lock(m)`. */
  ghost predicate InLock(p: Pc, m: nat) {
    p in {LoadEx(m, true), StoreEx(m, true), SetOwner(m, true), Recheck(m), Trigger(ToRetry(m))}
  }

  /** Task `c` has not returned in `s` nor after any event of the run. */
  ghost predicate NotBack(s: State, es: seq<Event>, c: nat)
    requires Shaped(s) && CanRun(s, es)
    decreases |es|
  {
    c < s.k.N() && s.pc[c] != User && (es == [] || NotBack(Next(s, es[0]), es[1..], c))
  }

  /** Task `c` goes on only by its own steps: other tasks and interrupts leave its code and its locks alone. */
  lemma OnlyOwnSteps(s: State, e: Event, c: nat)
    requires Shaped(s) && Enabled(s, e) && c < s.k.N() && !(s.k.current == Some(c) && (e.Call? || e.Go?))
    ensures Next(s, e).pc[c] == s.pc[c] && Next(s, e).held[c] == s.held[c]
  {
  }

  /** `c` holds `m` and is its owner. */
  ghost predicate Acquired(s: State, c: nat, m: nat) {
    Shaped(s) && m < s.k.M() && c < s.k.N() && m in s.held[c] && s.k.owner[m] == Some(c)
  }

  /** An own step in `vk_mutex_trylock` stays inside, acquires, or gives up on reading the lock word set, changing nothing. */
  lemma TryGo(s: State, m: nat)
    requires Inv(s) && Enabled(s, Go) && InTry(s.pc[s.k.current.value], m)
    ensures var c, r := s.k.current.value, GoStep(s);
      || InTry(r.pc[c], m)
      || (r.pc[c] == User && s.pc[c] == SetOwner(m, false) && Acquired(r, c, m))
      || (r.pc[c] == User && s.pc[c] == LoadEx(m, false) && s.k.locked[m] && r.k == s.k && r.held == s.held)
  {
    hide Orderly, Control, IdleReady, NoLostWakeup;
    var c := s.k.current.value;
    assert s.pc[c] == SetOwner(m, false) ==> Holds(s, c, m);
  }

  /** An own step in `vk_mutex_lock` stays inside or acquires. */
  lemma LockGo(s: State, m: nat)
    requires Inv(s) && Enabled(s, Go) && InLock(s.pc[s.k.current.value], m)
    ensures var c, r := s.k.current.value, GoStep(s);
      InLock(r.pc[c], m) || (r.pc[c] == User && s.pc[c] == SetOwner(m, true) && Acquired(r, c, m))
  {
    hide Orderly, Control, IdleReady, NoLostWakeup;
    var c := s.k.current.value;
    assert s.pc[c] == SetOwner(m, true) ==> Holds(s, c, m);
  }

  lemma {:induction false} StaysInTry(s: State, es: seq<Event>, c: nat, m: nat)
    requires Inv(s) && CanRun(s, es) && NotBack(s, es, c) && InTry(s.pc[c], m)
    ensures var t := Run(s, es); Inv(t) && c < t.k.N() && InTry(t.pc[c], m)
    decreases |es|
  {
    hide Orderly, Control, IdleReady, Guarded, NoLostWakeup, Next;
    if es != [] {
      NextInv(s, es[0]);
      NextInTry(s, es[0], c, m);
      StaysInTry(Next(s, es[0]), es[1..], c, m);
    }
  }

  lemma NextInTry(s: State, e: Event, c: nat, m: nat)
    requires Inv(s) && Enabled(s, e) && c < s.k.N() && InTry(s.pc[c], m) && Next(s, e).pc[c] != User
    ensures InTry(Next(s, e).pc[c], m)
  {
    if s.k.current == Some(c) && (e.Call? || e.Go?) {
      TryGo(s, m);
    } else {
      OnlyOwnSteps(s, e, c);
    }
  }

  lemma {:induction false} StaysInLock(s: State, es: seq<Event>, c: nat, m: nat)
    requires Inv(s) && CanRun(s, es) && NotBack(s, es, c) && InLock(s.pc[c], m)
    ensures var t := Run(s, es); Inv(t) && c < t.k.N() && InLock(t.pc[c], m)
    decreases |es|
  {
    hide Orderly, Control, IdleReady, Guarded, NoLostWakeup, Next;
    if es != [] {
      NextInv(s, es[0]);
      NextInLock(s, es[0], c, m);
      StaysInLock(Next(s, es[0]), es[1..], c, m);
    }
  }

  lemma NextInLock(s: State, e: Event, c: nat, m: nat)
    requires Inv(s) && Enabled(s, e) && c < s.k.N() && InLock(s.pc[c], m) && Next(s, e).pc[c] != User
    ensures InLock(Next(s, e).pc[c], m)
  {
    if s.k.current == Some(c) && (e.Call? || e.Go?) {
      LockGo(s, m);
    } else {
      OnlyOwnSteps(s, e, c);
    }
  }

  /**
   Whatever happens between a call of `vk_mutex_lock` and its return, be the
   mutex free or held at the call: the caller returns as holder and owner.
   */
  lemma LockReturns(s: State, c: nat, m: nat, s1: State, es: seq<Event>, t: State, e: Event)
    requires Inv(s) && s.k.current == Some(c) && Enabled(s, Call(Lock(m))) && s1 == Next(s, Call(Lock(m)))
    requires CanRun(s1, es) && NotBack(s1, es, c) && t == Run(s1, es)
    requires Enabled(t, e) && c < t.k.N() && Next(t, e).pc[c] == User
    ensures Acquired(Next(t, e), c, m)
  {
    NextInv(s, Call(Lock(m)));
    assert s1.pc[c] == LoadEx(m, true);
    hide Orderly, Control, IdleReady, Guarded, NoLostWakeup, Next, CanRun, Run;
    StaysInLock(s1, es, c, m);
    LockEnds(t, e, c, m);
  }

  lemma LockEnds(t: State, e: Event, c: nat, m: nat)
    requires Inv(t) && Enabled(t, e) && c < t.k.N() && InLock(t.pc[c], m) && Next(t, e).pc[c] == User
    ensures Acquired(Next(t, e), c, m)
  {
    if t.k.current == Some(c) && (e.Call? || e.Go?) {
      LockGo(t, m);
    } else {
      OnlyOwnSteps(t, e, c);
    }
  }

  /**
   `vk_mutex_trylock` never blocks its caller, and returns either as holder and
   owner, or by a step that changes nothing, having read the mutex locked.
   */
  lemma TryReturns(s: State, c: nat, m: nat, s1: State, es: seq<Event>, t: State, e: Event)
    requires Inv(s) && s.k.current == Some(c) && Enabled(s, Call(TryLock(m))) && s1 == Next(s, Call(TryLock(m)))
    requires CanRun(s1, es) && NotBack(s1, es, c) && t == Run(s1, es)
    requires Enabled(t, e) && c < t.k.N()
    ensures t.k.place[c] in {InReady, OnCpu}
    ensures var r := Next(t, e);
      r.pc[c] == User ==>
        || (t.pc[c] == SetOwner(m, false) && Acquired(r, c, m))
        || (t.pc[c] == LoadEx(m, false) && t.k.locked[m] && r.k == t.k && r.held == t.held)
  {
    NextInv(s, Call(TryLock(m)));
    assert s1.pc[c] == LoadEx(m, false);
    hide Orderly, Control, IdleReady, Guarded, NoLostWakeup, Next, CanRun, Run;
    StaysInTry(s1, es, c, m);
    TryEnds(t, e, c, m);
  }

  lemma TryEnds(t: State, e: Event, c: nat, m: nat)
    requires Inv(t) && Enabled(t, e) && c < t.k.N() && InTry(t.pc[c], m)
    ensures t.k.place[c] in {InReady, OnCpu}
    ensures var r := Next(t, e);
      r.pc[c] == User ==>
        || (t.pc[c] == SetOwner(m, false) && Acquired(r, c, m))
        || (t.pc[c] == LoadEx(m, false) && t.k.locked[m] && r.k == t.k && r.held == t.held)
  {
    hide Orderly, IdleReady, Guarded, NoLostWakeup;
    assert Fits(t.k.place[c], t.pc[c]);
    if t.k.current == Some(c) && (e.Call? || e.Go?) {
      TryGo(t, m);
    } else {
      OnlyOwnSteps(t, e, c);
    }
  }

  // ---- Getting on

  /** The own steps that a task inside a mutex call on a free mutex still has to take, left alone. */
  function StepsLeft(p: Pc, monitor: bool): nat {
    match p
    case SetOwner(_, _) => 1
    case StoreEx(_, _) => if monitor then 2 else 4
    case LoadEx(_, _) => 3
    case Recheck(_) => 4
    case Trigger(_) => 0
    case User => 0
    case Gone => 0
  }

  function Gos(n: nat): (es: seq<Event>)
    ensures |es| == n
  {
    if n == 0 then [] else [Go] + Gos(n - 1)
  }

  /** At the mutex `m`, which is free or just taken by the running task. */
  ghost predicate Trying(s: State, m: nat) {
    && Inv(s) && Executing(s) && m < s.k.M()
    && var p := s.pc[s.k.current.value];
    && p in {LoadEx(m, true), LoadEx(m, false), StoreEx(m, true), StoreEx(m, false),
             SetOwner(m, true), SetOwner(m, false), Recheck(m)}
    && (p.SetOwner? || !s.k.locked[m])
  }

  lemma GetsOn(s: State, m: nat)
    requires Trying(s, m)
    ensures var c, r := s.k.current.value, GoStep(s);
      && Enabled(s, Go) && r.k.current == Some(c)
      && if s.pc[c].SetOwner? then r.pc[c] == User && Acquired(r, c, m)
         else Trying(r, m) && StepsLeft(r.pc[c], r.monitor) == StepsLeft(s.pc[c], s.monitor) - 1
  {
    var c, r := s.k.current.value, GoStep(s);
    NextInv(s, Go);
    hide Orderly, Control, IdleReady, NoLostWakeup;
    assert s.pc[c].SetOwner? ==> Holds(s, c, m);
  }

  /**
   Progress: from anywhere in a mutex call on a free mutex, also with the
   monitor lost or at the re-check, at most four undisturbed steps acquire it.
   */
  lemma {:induction false} Acquires(s: State, m: nat) returns (r: State)
    requires Trying(s, m)
    ensures var c := s.k.current.value; var n := StepsLeft(s.pc[c], s.monitor);
      n <= 4 && Leads(s, Gos(n), r) && c < r.k.N() && r.pc[c] == User && Acquired(r, c, m)
    decreases StepsLeft(s.pc[s.k.current.value], s.monitor)
  {
    var c := s.k.current.value;
    GetsOn(s, m);
    hide Trying, Next, GoStep;
    var s1 := Next(s, Go);
    if s.pc[c].SetOwner? {
      r := s1;
      LeadsFirst(s, Go, [], r);
      assert Gos(1) == [Go] + [];
    } else {
      r := Acquires(s1, m);
      LeadsFirst(s, Go, Gos(StepsLeft(s1.pc[c], s1.monitor)), r);
    }
  }

  // ---- Giving up the processor

  /**
   PendSV becomes pending by a task's `_trigger_pendsv`, or by a SysTick that
   leaves it outranked, and in no other way; only PendSV itself ends that.
   */
  lemma PendedExactly(s: State, e: Event)
    requires Inv(s) && Enabled(s, e)
    ensures Next(s, e).pendsv <==>
      || (s.pendsv && !e.PendSV?)
      || (e.Go? && s.pc[s.k.current.value].Trigger?)
      || (e.Tick? && Urgent(Next(s, e).k))
  {
    if e.Tick? {
      assert Orderly(Next(s, e).k) by { NextOrderly(s, e); }
      UrgentHead(Next(s, e).k);
    }
  }

  /** Some ready task has a higher priority than the running one. */
  ghost predicate Urgent(k: Kernel)
    requires k.Shaped()
  {
    k.current.Some? && exists i :: 0 <= i < |k.ready| && k.prio[k.ready[i]] < k.prio[k.current.value]
  }

  lemma UrgentHead(k: Kernel)
    requires Orderly(k)
    ensures Urgent(k) <==> Outranked(k)
  {
    if Outranked(k) {
      assert k.prio[k.ready[0]] < k.prio[k.current.value];
    }
  }

  /** SysTicks and other interrupts. */
  ghost predicate OnlyInterrupts(es: seq<Event>) {
    forall i :: 0 <= i < |es| ==> es[i].Tick? || es[i].Irq?
  }

  lemma InterruptStep(s: State, e: Event)
    requires Inv(s) && (e.Tick? || e.Irq?)
    ensures var r := Next(s, e);
      && r.k.current == s.k.current && r.pc == s.pc && r.held == s.held
      && (Urgent(s.k) ==> Urgent(r.k)) && (e.Irq? ==> r.k == s.k)
  {
    if e.Tick? {
      var k1 := s.k.(ticks := Next(s, e).k.ticks);
      SameLists(s.k, k1);
      Fairness.WakeExpiredRanks(k1);
      if Urgent(s.k) {
        var i :| 0 <= i < |s.k.ready| && s.k.prio[s.k.ready[i]] < s.k.prio[s.k.current.value];
        assert s.k.ready[i] in Next(s, e).k.ready;
      }
    }
  }

  /**
   Interrupts take the processor from the running task exactly if need be:
   after any number of them a switch is pending iff it was before, or a SysTick
   was among them and a ready task is more urgent.  Otherwise the task goes on.
   */
  lemma {:induction false} InterruptsPend(s: State, es: seq<Event>)
    requires Inv(s) && CanRun(s, es) && OnlyInterrupts(es)
    ensures var r := Run(s, es);
      && r.k.current == s.k.current && r.pc == s.pc && r.held == s.held
      && (r.pendsv <==> s.pendsv || (Deadline.Ticks(es) > 0 && Urgent(r.k)))
      && (Urgent(s.k) ==> Urgent(r.k))
    decreases |es|
  {
    if es != [] {
      var s1 := Next(s, es[0]);
      NextInv(s, es[0]);
      InterruptStep(s, es[0]);
      PendedExactly(s, es[0]);
      hide Next, Inv, Urgent;
      InterruptsPend(s1, es[1..]);
      NoTicksNoWake(s1, es[1..]);
    }
  }

  /** Without a SysTick interrupts change nothing of the kernel. */
  lemma {:induction false} NoTicksNoWake(s: State, es: seq<Event>)
    requires Shaped(s) && CanRun(s, es) && OnlyInterrupts(es)
    ensures Deadline.Ticks(es) == 0 ==> Run(s, es).k == s.k
    decreases |es|
  {
    if es != [] {
      NoTicksNoWake(Next(s, es[0]), es[1..]);
    }
  }

  /** The calls that end in a switch: the caller's only further step pends it, and on its return it is back in its own code. */
  lemma CallsGiveUp(s: State, a: Api)
    requires Inv(s) && Enabled(s, Call(a)) && (a.Yield? || a.Sleep? || a.Exit? || a.Unlock?)
    ensures var c, s1 := s.k.current.value, Next(s, Call(a));
      && Enabled(s1, Go) && s1.k.current == Some(c) && !s1.pendsv
      && var s2 := Next(s1, Go);
      s2.pendsv && s2.k == s1.k && s2.pc == s.pc[c := if a.Exit? then Gone else User]
  {
  }

  /** A task that re-checks a held mutex joins its waiters, gives up the processor, and will start over. */
  lemma WaitGivesUp(s: State, m: nat)
    requires Inv(s) && Enabled(s, Go) && s.pc[s.k.current.value] == Recheck(m) && s.k.locked[m]
    ensures var c, s1 := s.k.current.value, Next(s, Go);
      && s1.k.waits[m] == s.k.waits[m] + [c] && StatusOf(s1.k.place[c]) == Blocked
      && Enabled(s1, Go) && s1.k.current == Some(c) && !s1.pendsv
      && var s2 := Next(s1, Go);
      s2.pendsv && s2.k == s1.k && s2.pc == s.pc[c := LoadEx(m, true)]
  {
  }

  // ---- Exit

  /** `c` has exited. */
  ghost predicate Dead(s: State, c: nat)
    requires Shaped(s)
  {
    c < s.k.N() && StatusOf(s.k.place[c]) == Status.Dead && s.pc[c] in {Trigger(ToGone), Gone}
  }

  lemma ExitKills(s: State)
    requires Inv(s) && Enabled(s, Call(Exit))
    ensures Dead(Next(s, Call(Exit)), s.k.current.value)
  {
  }

  lemma StaysDead(s: State, e: Event, c: nat)
    requires Inv(s) && Enabled(s, e) && Dead(s, c)
    ensures Dead(Next(s, e), c)
    ensures s.k.current != Some(c) || e.PendSV? ==> Next(s, e).k.current != Some(c)
  {
    match e
    case Tick => SysTickPlaces(s.k);
    case Irq =>
    case PendSV => SchedulePlaces(s.k, IDLE);
    case Start => DeadAtStart(s, c);
    case Create(p) =>
    case InitMutex =>
    case Call(a) => DeadAtCall(s, a, c);
    case Go => DeadAtGo(s, c);
  }

  lemma DeadAtStart(s: State, c: nat)
    requires Inv(s) && Enabled(s, Start) && Dead(s, c)
    ensures Dead(Next(s, Start), c) && Next(s, Start).k.current != Some(c)
  {
    assert LocatedAt(s.k, IDLE);
    assert s.k.place[s.k.ready[0]] == InReady;
  }

  lemma DeadAtCall(s: State, a: Api, c: nat)
    requires Inv(s) && Enabled(s, Call(a)) && Dead(s, c)
    ensures Dead(Next(s, Call(a)), c) && Next(s, Call(a)).k.current != Some(c)
  {
    if a.Unlock? && s.k.waits[a.m] != [] {
      assert s.k.place[s.k.waits[a.m][0]] == Waiting(a.m);
    }
  }

  lemma DeadAtGo(s: State, c: nat)
    requires Inv(s) && Enabled(s, Go) && Dead(s, c)
    ensures Dead(Next(s, Go), c) && Next(s, Go).k.current == s.k.current
  {
  }

  /** A dead task is off every list and, once switched away from, is never current again, in any run. */
  lemma {:induction false} DeadForGood(s: State, es: seq<Event>, c: nat)
    requires Inv(s) && CanRun(s, es) && Dead(s, c)
    ensures var r := Run(s, es); Inv(r) && Dead(r, c) && r.k.Unlisted(c)
    ensures s.k.current != Some(c) || (exists i :: 0 <= i < |es| && es[i].PendSV?) ==> Run(s, es).k.current != Some(c)
    decreases |es|
  {
    if es == [] {
      OffLists(s.k, c);
    } else {
      var s1 := Next(s, es[0]);
      NextInv(s, es[0]);
      StaysDead(s, es[0], c);
      hide Next, Inv, Dead;
      DeadForGood(s1, es[1..], c);
      if i :| 0 <= i < |es| && es[i].PendSV? && i > 0 {
        assert es[1..][i - 1].PendSV?;
      }
    }
  }

  /** `vk_task_exit`: in every run from there the caller is DEAD and on no list, and from the first PendSV on it is not current. */
  lemma ExitsForGood(s: State, es: seq<Event>)
    requires Inv(s) && Enabled(s, Call(Exit)) && CanRun(Next(s, Call(Exit)), es)
    ensures var c, r := s.k.current.value, Run(Next(s, Call(Exit)), es);
      && Dead(r, c) && r.k.Unlisted(c)
      && ((exists i :: 0 <= i < |es| && es[i].PendSV?) ==> r.k.current != Some(c))
  {
    NextInv(s, Call(Exit));
    ExitKills(s);
    DeadForGood(Next(s, Call(Exit)), es, s.k.current.value);
  }

  // ---- Create and start

  /** A create adds one READY task of the given priority and leaves all others, and their order, as they were. */
  lemma CreateAdds(s: State, p: Prio)
    requires Inv(s) && Enabled(s, Create(p))
    ensures var x, r := s.k.N(), Next(s, Create(p));
      if x >= MAX_TASKS then r == s
      else r.k.N() == x + 1 && r.k.prio == s.k.prio + [p] && r.pc == s.pc + [User] && r.held == s.held + [{}] &&
           StatusOf(r.k.place[x]) == Ready && r.k.place[..x] == s.k.place && Without(r.k.ready, x) == s.k.ready &&
           r.k.current == s.k.current && r.k.ticks == s.k.ticks
  {
    if s.k.N() < MAX_TASKS {
      KernelFacts.InsertKeepsRest(s.k.ready, s.k.prio + [p], s.k.N());
    }
  }

  /** `vk_start` picks a task of least `priority`, among equals the one created first. */
  lemma StartSelects(s: State)
    requires Inv(s) && Enabled(s, Start)
    ensures CurrentRuns(Next(s, Start).k) && Properties.CurrentFirst(Next(s, Start).k)
  {
    NextInv(s, Start);
    assert LocatedAt(s.k, IDLE);
    PopReadyPlaces(s.k);
    Properties.HeadIsFirst(s.k);
  }
}
