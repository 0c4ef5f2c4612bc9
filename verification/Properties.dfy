/** What holds in every reachable state and over every run of the kernel. */
module Properties {
  import opened Basics
  import opened KernelSpec
  import opened KernelFacts
  import opened Machine
  import opened Invariant

  // ---- One place per task

  /** All lists threaded through the `next` fields. */
  function Lists(k: Kernel): (ls: seq<seq<nat>>) {
    [k.ready, k.sleepers] + k.waits
  }

  /** No list is cyclic or shares a node with another. */
  ghost predicate Disjoint(ls: seq<seq<nat>>) {
    forall a, i, b, j ::
      0 <= a < |ls| && 0 <= i < |ls[a]| && 0 <= b < |ls| && 0 <= j < |ls[b]| && ls[a][i] == ls[b][j] ==>
        a == b && i == j
  }

  /** The mark every member of list number `a` carries. */
  function MarkOf(a: nat): Place {
    if a == 0 then InReady else if a == 1 then Sleeping else Waiting(a - 2)
  }

  /**
   No task is twice on the lists, neither on one nor on two of them; being on
   list number `a` is the same as being marked so; only `vk_current` is RUNNING.
   */
  lemma OnePlace(s: State, x: nat)
    requires Reachable(s) && x < s.k.N()
    ensures Disjoint(Lists(s.k))
    ensures forall a :: 0 <= a < |Lists(s.k)| ==> (x in Lists(s.k)[a] <==> s.k.place[x] == MarkOf(a))
    ensures s.k.place[x] == OnCpu ==> s.k.current == Some(x)
    ensures s.k.place[x].Waiting? ==> s.k.place[x].m < s.k.M()
  {
    hide Disjoint, Control, Guarded, NoLostWakeup, Sorted;
    ReachableInv(s);
    assert LocatedAt(s.k, x);
    ListsDisjoint(s.k);
    forall a | 0 <= a < |Lists(s.k)|
      ensures x in Lists(s.k)[a] <==> s.k.place[x] == MarkOf(a)
    {
      ListMark(s.k, a);
    }
  }

  lemma ListMark(k: Kernel, a: nat)
    requires Orderly(k) && a < |Lists(k)|
    ensures Distinct(Lists(k)[a])
    ensures forall i :: 0 <= i < |Lists(k)[a]| ==> Lists(k)[a][i] < k.N() && k.place[Lists(k)[a][i]] == MarkOf(a)
  {
    if a >= 2 {
      assert Lists(k)[a] == k.waits[a - 2];
    }
  }

  lemma ListsDisjoint(k: Kernel)
    requires Orderly(k)
    ensures Disjoint(Lists(k))
  {
    var ls := Lists(k);
    forall a, i, b, j | 0 <= a < |ls| && 0 <= i < |ls[a]| && 0 <= b < |ls| && 0 <= j < |ls[b]| && ls[a][i] == ls[b][j]
      ensures a == b && i == j
    {
      ListMark(k, a);
      ListMark(k, b);
    }
  }

  /** A task about to execute its own code or any API step but the final `_trigger_pendsv` is RUNNING and unlisted. */
  lemma ExecutingIsRunning(s: State)
    requires Reachable(s) && Executing(s) && !s.pc[s.k.current.value].Trigger?
    ensures StatusOf(s.k.place[s.k.current.value]) == Running && s.k.Unlisted(s.k.current.value)
  {
    ReachableInv(s);
    OffLists(s.k, s.k.current.value);
  }

  /** `_ready_remove` in `vk_task_sleep` never finds its task, in any reachable state. */
  lemma SleepLeavesReadyQueue(s: State, n: KernelSpec.Tick)
    requires Reachable(s) && Enabled(s, Call(Sleep(n)))
    ensures Next(s, Call(Sleep(n))).k.ready == s.k.ready
  {
    ReachableInv(s);
    SleepRemovesNothing(s.k);
  }

  // ---- Mutual exclusion

  /** At most one task is between a successful STREX on `m` and its unlock, and `locked` says whether there is one. */
  lemma MutualExclusion(s: State, m: nat)
    requires Reachable(s) && m < s.k.M()
    ensures forall x, y :: 0 <= x < s.k.N() && 0 <= y < s.k.N() && m in s.held[x] && m in s.held[y] ==> x == y
    ensures s.k.locked[m] <==> exists x :: 0 <= x < s.k.N() && m in s.held[x]
  {
    ReachableInv(s);
    forall x: nat | x < s.k.N()
      ensures m in s.held[x] <==> Holds(s, x, m)
    {
    }
  }

  /** `owner` is NULL or the holder; NULL with the lock taken only between the holder's STREX and its store. */
  lemma OwnerIsHolder(s: State, m: nat)
    requires Reachable(s) && m < s.k.M()
    ensures s.k.owner[m].Some? ==> s.k.owner[m].value < s.k.N() && m in s.held[s.k.owner[m].value]
    ensures forall x :: 0 <= x < s.k.N() && m in s.held[x] ==>
      s.k.owner[m] == if s.pc[x] in {SetOwner(m, true), SetOwner(m, false)} then None else Some(x)
  {
    ReachableInv(s);
    forall x | 0 <= x < s.k.N() && m in s.held[x]
      ensures s.k.owner[m] == if s.pc[x] in {SetOwner(m, true), SetOwner(m, false)} then None else Some(x)
    {
      assert Holds(s, x, m);
    }
  }

  /** The STREX succeeds iff the monitor is set, and then nobody held the mutex. */
  lemma AcquireOnlyFree(s: State, m: nat, b: bool)
    requires Reachable(s) && Enabled(s, Go) && s.pc[s.k.current.value] == StoreEx(m, b)
    ensures s.monitor <==> m in GoStep(s).held[s.k.current.value] && m !in s.held[s.k.current.value]
    ensures s.monitor ==> !s.k.locked[m] && GoStep(s).k.locked[m]
    ensures s.monitor ==> forall x :: 0 <= x < s.k.N() ==> m !in s.held[x]
  {
    ReachableInv(s);
    assert forall x: nat :: x < s.k.N() && m in s.held[x] ==> Holds(s, x, m);
  }

  predicate IsException(e: Event) {
    e.Tick? || e.PendSV? || e.Irq?
  }

  /** Task `c` is about to execute `p` in `s` and after every event of the run. */
  ghost predicate StaysAt(s: State, es: seq<Event>, c: nat, p: Pc)
    requires Shaped(s) && CanRun(s, es)
    decreases |es|
  {
    c < s.k.N() && s.pc[c] == p && (es == [] || StaysAt(Next(s, es[0]), es[1..], c, p))
  }

  /** No task has set the monitor for `c`. */
  ghost predicate NotMonitored(s: State, c: nat) {
    s.k.current == Some(c) ==> !s.monitor
  }

  /** While `c` is at its STREX, only exceptions happen to it; what others do with the monitor does not last until it runs. */
  lemma StrexStep(s: State, e: Event, c: nat, p: Pc)
    requires Inv(s) && Enabled(s, e) && s.k.current.Some? && p.StoreEx?
    requires c < s.k.N() && s.pc[c] == p && Next(s, e).pc[c] == p
    ensures Next(s, e).k.current.Some?
    ensures IsException(e) || NotMonitored(s, c) ==> NotMonitored(Next(s, e), c)
    ensures s.k.current == Some(c) ==> IsException(e)
  {
    if e.PendSV? {
      SchedulePlaces(s.k, IDLE);
    }
  }

  lemma {:induction false} StaysUnmonitored(s: State, es: seq<Event>, c: nat, p: Pc)
    requires Inv(s) && CanRun(s, es) && StaysAt(s, es, c, p) && s.k.current.Some? && p.StoreEx? && NotMonitored(s, c)
    ensures NotMonitored(Run(s, es), c)
    decreases |es|
  {
    if es != [] {
      StrexStep(s, es[0], c, p);
      NextInv(s, es[0]);
      StaysUnmonitored(Next(s, es[0]), es[1..], c, p);
    }
  }

  /** A task that waits at its STREX finds the monitor still set iff no exception has come since its LDREX. */
  lemma MonitorTells(s: State, es: seq<Event>, c: nat, p: Pc)
    requires Inv(s) && CanRun(s, es) && StaysAt(s, es, c, p) && p.StoreEx?
    requires s.k.current == Some(c) && s.monitor && Run(s, es).k.current == Some(c)
    ensures Run(s, es).monitor <==> forall i :: 0 <= i < |es| ==> !IsException(es[i])
  {
    if es != [] {
      StrexStep(s, es[0], c, p);
      NextInv(s, es[0]);
      StaysUnmonitored(Next(s, es[0]), es[1..], c, p);
      assert IsException(es[0]);
    }
  }

  /**
   From the LDREX of a free mutex to the STREX, with any run between them during
   which the task stays there: the STREX takes the lock iff no exception came.
   */
  lemma StrexSucceeds(s: State, c: nat, s1: State, es: seq<Event>, t: State, m: nat, b: bool)
    requires Inv(s) && s.k.current == Some(c) && Enabled(s, Go) && s.pc[c] == LoadEx(m, b) && !s.k.locked[m]
    requires s1 == Next(s, Go) && CanRun(s1, es) && StaysAt(s1, es, c, StoreEx(m, b))
    requires t == Run(s1, es) && t.k.current == Some(c) && c < t.k.N() && Enabled(t, Go)
    ensures (m in GoStep(t).held[c] && m !in t.held[c]) <==> forall i :: 0 <= i < |es| ==> !IsException(es[i])
  {
    NextInv(s, Go);
    assert s1.monitor;
    EndsAt(s1, es, c, StoreEx(m, b));
    MonitorTells(s1, es, c, StoreEx(m, b));
    RunInv(s1, es);
    hide Next, CanRun, Run;
    StrexTakes(t, c, m, b);
  }

  lemma StrexTakes(t: State, c: nat, m: nat, b: bool)
    requires Inv(t) && Enabled(t, Go) && t.k.current == Some(c) && t.pc[c] == StoreEx(m, b)
    ensures t.monitor <==> m in GoStep(t).held[c] && m !in t.held[c]
  {
    hide Orderly, Control, IdleReady, NoLostWakeup;
    assert forall x: nat :: x < t.k.N() && m in t.held[x] ==> Holds(t, x, m);
  }

  lemma {:induction false} EndsAt(s: State, es: seq<Event>, c: nat, p: Pc)
    requires Shaped(s) && CanRun(s, es) && StaysAt(s, es, c, p)
    ensures c < Run(s, es).k.N() && Run(s, es).pc[c] == p
    decreases |es|
  {
    if es != [] {
      EndsAt(Next(s, es[0]), es[1..], c, p);
    }
  }

  /** When `vk_mutex_trylock` or `vk_mutex_lock` returns VK_OK the caller holds the mutex and is its owner. */
  lemma LockedOnReturn(s: State, m: nat, b: bool)
    requires Reachable(s) && Enabled(s, Go) && s.pc[s.k.current.value] == SetOwner(m, b)
    ensures GoStep(s).pc[s.k.current.value] == User
    ensures GoStep(s).k.owner[m] == s.k.current && m in GoStep(s).held[s.k.current.value]
  {
    ReachableInv(s);
    assert Holds(s, s.k.current.value, m);
  }

  // ---- No lost wakeup

  /** Waiters imply a held lock, or an awake task that is about to try the lock again. */
  lemma WaitersAreAttended(s: State, m: nat)
    requires Reachable(s) && m < s.k.M() && s.k.waits[m] != []
    ensures s.k.locked[m] || exists x :: 0 <= x < s.k.N() && Retrying(s, x, m)
  {
    ReachableInv(s);
    assert Attended(s, m);
  }

  // ---- Who runs

  /** `x` has the higher priority, or the same and was inserted earlier. */
  predicate Before(k: Kernel, x: nat, y: nat)
    requires k.Shaped() && x < k.N() && y < k.N()
  {
    k.prio[x] < k.prio[y] || (k.prio[x] == k.prio[y] && k.arrival[x] < k.arrival[y])
  }

  /** The current task comes before every ready one. */
  ghost predicate CurrentFirst(k: Kernel)
    requires k.Shaped()
  {
    k.current.Some? && forall i :: 0 <= i < |k.ready| ==> Before(k, k.current.value, k.ready[i])
  }

  /** `_vk_schedule` picks a task of least `priority`, and among those the one inserted first. */
  lemma ScheduleSelects(s: State)
    requires Reachable(s) && s.pendsv
    ensures CurrentRuns(Next(s, PendSV).k) && CurrentFirst(Next(s, PendSV).k)
  {
    ReachableInv(s);
    SchedulePlaces(s.k, IDLE);
    ScheduleFirst(s.k);
  }

  lemma ScheduleFirst(k: Kernel)
    requires Orderly(k) && Schedule(k).current.Some?
    ensures CurrentFirst(Schedule(k))
  {
    if CurrentRuns(k) {
      PreemptOrderly(k);
      HeadIsFirst(ReadyInsert(k, k.current.value));
    } else {
      HeadIsFirst(k);
    }
  }

  lemma HeadIsFirst(k: Kernel)
    requires Orderly(k) && k.ready != []
    ensures CurrentFirst(PopReady(k))
  {
    forall i | 0 <= i < |PopReady(k).ready|
      ensures Before(PopReady(k), k.ready[0], PopReady(k).ready[i])
    {
      assert PopReady(k).ready[i] == k.ready[i + 1];
    }
  }

  /** Once the scheduler has started, `vk_current` is never NULL again. */
  lemma {:induction false} CurrentNeverNull(s: State, es: seq<Event>)
    requires Inv(s) && s.k.current.Some? && CanRun(s, es)
    ensures Run(s, es).k.current.Some?
    decreases |es|
  {
    if es != [] {
      if es[0].PendSV? {
        SchedulePlaces(s.k, IDLE);
      }
      NextInv(s, es[0]);
      CurrentNeverNull(Next(s, es[0]), es[1..]);
    }
  }

  /** The idle task is ready or current, so the ready queue is never empty while another task runs. */
  lemma IdleAlwaysAvailable(s: State)
    requires Reachable(s)
    ensures IDLE in s.k.ready || s.k.current == Some(IDLE)
    ensures s.k.current.None? ==> Enabled(s, Start) && Next(s, Start).k.current.Some?
  {
    ReachableInv(s);
    assert LocatedAt(s.k, IDLE);
  }

  // ---- Bounded priority inversion

  /** A ready task outranks the running one only if a switch is pending or about to be pended. */
  ghost predicate NoInversion(s: State)
    requires Shaped(s)
  {
    Outranked(s.k) ==> s.pendsv || s.pc[s.k.current.value].Trigger?
  }

  lemma SwitchEndsInversion(s: State)
    requires Inv(s) && s.pendsv
    ensures !Outranked(Next(s, PendSV).k)
  {
    if CurrentRuns(s.k) {
      PreemptOrderly(s.k);
    }
    SchedulePlaces(s.k, IDLE);
  }

  /** After every SysTick and the PendSV it pends, no ready task outranks the running one. */
  lemma TickEndsInversion(s: State)
    requires Reachable(s)
    ensures var t := Next(s, Tick);
      !Outranked((if t.pendsv then Next(t, PendSV) else t).k)
  {
    ReachableInv(s);
    NextInv(s, Tick);
    if Next(s, Tick).pendsv {
      SwitchEndsInversion(Next(s, Tick));
    }
  }

  /** Only `vk_task_create` can start an inversion. */
  lemma OnlyCreateInverts(s: State, e: Event)
    requires Inv(s) && Enabled(s, e) && NoInversion(s) && !e.Create?
    ensures NoInversion(Next(s, e))
  {
    match e
    case Tick =>
    case Irq =>
    case PendSV => SwitchEndsInversion(s);
    case Start => assert Sorted(s.k);
    case InitMutex =>
    case Call(a) =>
      if a.Sleep? {
        SleepRemovesNothing(s.k);
      }
    case Go =>
  }

  /** Any run without a create, from the end of an inversion on, is free of inversions. */
  lemma {:induction false} RunWithoutInversion(s: State, es: seq<Event>)
    requires Inv(s) && CanRun(s, es) && NoInversion(s)
    requires forall i :: 0 <= i < |es| ==> !es[i].Create?
    ensures NoInversion(Run(s, es))
    decreases |es|
  {
    if es != [] {
      OnlyCreateInverts(s, es[0]);
      NextInv(s, es[0]);
      RunWithoutInversion(Next(s, es[0]), es[1..]);
    }
  }

  /** A create starts an inversion exactly when the new task is more urgent than the running one: no switch is pended. */
  lemma CreateInverts(s: State, p: Prio)
    requires Shaped(s) && InUserCode(s) && s.k.N() < MAX_TASKS
    ensures Outranked(Next(s, Create(p)).k) <==> Outranked(s.k) || p < s.k.prio[s.k.current.value]
    ensures !Next(s, Create(p)).pendsv
  {
    var k, r := s.k, Next(s, Create(p)).k;
    var i := Slot(k.ready, k.prio + [p], p);
    assert r.ready == InsertAt(k.ready, i, k.N());
    assert r.ready[0] == if i == 0 then k.N() else k.ready[0];
  }

  // ---- vk_mutex_trylock between two exceptions

  /** Left undisturbed at its LDREX, a task takes a free mutex; a held one sends it on unchanged. */
  lemma TryUndisturbed(s: State, m: nat, b: bool)
    requires Shaped(s) && Executing(s) && s.pc[s.k.current.value] == LoadEx(m, b)
    ensures s.k.locked[m] ==> GoStep(s).k == s.k && GoStep(s).pc[s.k.current.value] == if b then Recheck(m) else User
    ensures !s.k.locked[m] ==>
      var s1 := GoStep(s);
      && Enabled(s1, Go)
      && var s2 := GoStep(s1);
      && Enabled(s2, Go)
      && GoStep(s2).k == Owned(Locked(s.k, m, true), m, s.k.current)
      && GoStep(s2).pc == s.pc[s.k.current.value := User]
  {
  }
}
