/** Every kernel operation keeps the lists orderly. */
module KernelFacts {
  import opened Basics
  import opened KernelSpec
  import opened Words

  /** A task marked as listed is on its list; `x` alone may be in transit. */
  ghost predicate LocatedBut(k: Kernel, x: nat)
    requires k.Shaped()
  {
    forall y :: 0 <= y < k.N() && y != x ==> LocatedAt(k, y)
  }

  ghost predicate LocatedAt(k: Kernel, y: nat)
    requires k.Shaped() && y < k.N()
  {
    match k.place[y]
    case Exited => true
    case InReady => y in k.ready
    case OnCpu => k.current == Some(y)
    case Sleeping => y in k.sleepers
    case Waiting(m) => m < k.M() && y in k.waits[m]
  }

  ghost predicate NobodyRuns(k: Kernel)
    requires k.Shaped()
  {
    forall y :: 0 <= y < k.N() ==> k.place[y] != OnCpu
  }

  ghost predicate Located(k: Kernel)
    requires k.Shaped()
  {
    forall y :: 0 <= y < k.N() ==> LocatedAt(k, y)
  }

  /** By priority, then by time of insertion. */
  ghost predicate ReadySorted(q: seq<nat>, prio: seq<int>, arrival: seq<nat>, arrivals: nat)
    requires Bounded(q, |prio|) && |arrival| == |prio|
  {
    && (forall i, j :: 0 <= i < j < |q| ==> prio[q[i]] <= prio[q[j]])
    && (forall i, j :: 0 <= i < j < |q| && prio[q[i]] == prio[q[j]] ==> arrival[q[i]] < arrival[q[j]])
    && (forall i :: 0 <= i < |q| ==> arrival[q[i]] < arrivals)
  }

  ghost predicate SleepSorted(q: seq<nat>, wake: seq<int>)
    requires Bounded(q, |wake|)
  {
    forall i, j :: 0 <= i < j < |q| ==> wake[q[i]] <= wake[q[j]]
  }

  ghost predicate Sorted(k: Kernel)
    requires k.Shaped()
  {
    ReadySorted(k.ready, k.prio, k.arrival, k.arrivals) && SleepSorted(k.sleepers, k.wake)
  }

  ghost predicate Orderly(k: Kernel) {
    k.Shaped() && k.Listed() && Located(k) && Sorted(k)
  }

  /** Orderly, with `x` off every list. */
  ghost predicate OrderlyBut(k: Kernel, x: nat) {
    k.Shaped() && k.Listed() && x < k.N() && k.Unlisted(x) && LocatedBut(k, x) && Sorted(k)
  }

  /** Where a task is depends on its mark and on the lists only. */
  lemma SameLists(k: Kernel, r: Kernel)
    requires k.Shaped() && k.Listed() && Located(k) && r.Shaped()
    requires r.place == k.place && r.current == k.current && r.N() == k.N() && r.M() == k.M()
    requires r.ready == k.ready && r.sleepers == k.sleepers && r.waits == k.waits
    ensures r.Listed() && Located(r)
  {
    forall y | 0 <= y < k.N()
      ensures LocatedAt(r, y)
    {
      assert LocatedAt(k, y);
    }
  }

  lemma ReadyInsertListed(k: Kernel, x: nat)
    requires k.Shaped() && k.Listed() && x < k.N() && k.Unlisted(x)
    ensures ReadyInsert(k, x).Listed()
  {
    InsertAtKeeps(k.ready, Slot(k.ready, k.prio, k.prio[x]), x);
  }

  lemma ReadyInsertLocated(k: Kernel, x: nat)
    requires k.Shaped() && x < k.N() && LocatedBut(k, x)
    ensures Located(ReadyInsert(k, x))
  {
    InsertAtKeeps(k.ready, Slot(k.ready, k.prio, k.prio[x]), x);
    var r := ReadyInsert(k, x);
    forall y | 0 <= y < k.N()
      ensures LocatedAt(r, y)
    {
      assert y != x ==> LocatedAt(k, y);
    }
  }

  lemma ReadyInsertSorted(q: seq<nat>, prio: seq<int>, arrival: seq<nat>, arrivals: nat, x: nat)
    requires Bounded(q, |prio|) && |arrival| == |prio| && x < |prio| && Absent(q, x)
    requires ReadySorted(q, prio, arrival, arrivals)
    ensures Bounded(Insert(q, prio, x), |prio|)
    ensures ReadySorted(Insert(q, prio, x), prio, arrival[x := arrivals], arrivals + 1)
  {
    var r, a := Insert(q, prio, x), arrival[x := arrivals];
    forall i, j | 0 <= i < j < |r|
      ensures prio[r[i]] <= prio[r[j]]
      ensures prio[r[i]] == prio[r[j]] ==> a[r[i]] < a[r[j]]
    {
    }
  }

  /** Insertion leaves the others in their order. */
  lemma InsertKeepsRest(q: seq<nat>, keys: seq<int>, x: nat)
    requires Bounded(q, |keys|) && x < |keys| && Absent(q, x)
    ensures Without(Insert(q, keys, x), x) == q
  {
    var i := Slot(q, keys, keys[x]);
    WithoutAt(InsertAt(q, i, x), i);
    assert RemoveAt(InsertAt(q, i, x), i) == q;
  }

  lemma ReadyInsertOrderly(k: Kernel, x: nat)
    requires OrderlyBut(k, x)
    ensures Orderly(ReadyInsert(k, x))
  {
    ReadyInsertListed(k, x);
    ReadyInsertLocated(k, x);
    ReadyInsertSorted(k.ready, k.prio, k.arrival, k.arrivals, x);
  }

  lemma SleepInsertOrderly(k: Kernel, x: nat)
    requires OrderlyBut(k, x)
    ensures Orderly(SleepInsert(k, x))
  {
    InsertAtKeeps(k.sleepers, Slot(k.sleepers, k.wake, k.wake[x]), x);
    var r := SleepInsert(k, x);
    forall y | 0 <= y < k.N()
      ensures LocatedAt(r, y)
    {
      assert y != x ==> LocatedAt(k, y);
    }
  }

  /** A running or exited task is on no list. */
  lemma OffLists(k: Kernel, x: nat)
    requires k.Shaped() && k.Listed() && x < k.N() && k.place[x] in {OnCpu, Exited}
    ensures k.Unlisted(x)
  {
  }

  lemma PopSleeper(k: Kernel)
    requires Orderly(k) && k.sleepers != []
    ensures OrderlyBut(k.(sleepers := k.sleepers[1..]), k.sleepers[0])
  {
    var x, r := k.sleepers[0], k.(sleepers := k.sleepers[1..]);
    forall y | 0 <= y < k.N() && y != x
      ensures LocatedAt(r, y)
    {
      assert LocatedAt(k, y);
    }
  }

  lemma {:induction false} WakeExpiredOrderly(k: Kernel)
    requires Orderly(k)
    ensures Orderly(WakeExpired(k))
    decreases |k.sleepers|
  {
    if k.sleepers != [] && k.wake[k.sleepers[0]] <= k.ticks {
      var k1 := k.(sleepers := k.sleepers[1..]);
      PopSleeper(k);
      ReadyInsertOrderly(k1, k.sleepers[0]);
      WakeExpiredOrderly(ReadyInsert(k1, k.sleepers[0]));
    }
  }

  lemma SysTickOrderly(k: Kernel)
    requires Orderly(k)
    ensures Orderly(SysTick(k))
  {
    var k1 := k.(ticks := Add32(k.ticks, 1));
    SameLists(k, k1);
    WakeExpiredOrderly(k1);
  }

  lemma PopReadyOrderly(k: Kernel)
    requires Orderly(k) && NobodyRuns(k)
    ensures Orderly(PopReady(k))
  {
    var r := PopReady(k);
    forall y | 0 <= y < k.N()
      ensures LocatedAt(r, y)
    {
      assert LocatedAt(k, y);
    }
  }

  /** The running task, put back on the ready queue. */
  lemma PreemptOrderly(k: Kernel)
    requires Orderly(k) && k.current.Some? && k.place[k.current.value] == OnCpu
    ensures Orderly(ReadyInsert(k, k.current.value))
    ensures NobodyRuns(ReadyInsert(k, k.current.value))
  {
    OffLists(k, k.current.value);
    ReadyInsertOrderly(k, k.current.value);
    forall y | 0 <= y < k.N()
      ensures ReadyInsert(k, k.current.value).place[y] != OnCpu
    {
      assert LocatedAt(k, y);
    }
  }

  lemma ScheduleOrderly(k: Kernel)
    requires Orderly(k)
    ensures Orderly(Schedule(k))
  {
    if k.current.Some? && k.place[k.current.value] == OnCpu {
      PreemptOrderly(k);
      PopReadyOrderly(ReadyInsert(k, k.current.value));
    } else {
      forall y | 0 <= y < k.N()
        ensures k.place[y] != OnCpu
      {
        assert LocatedAt(k, y);
      }
      PopReadyOrderly(k);
    }
  }

  lemma CreateOrderly(k: Kernel, p: Prio)
    requires Orderly(k)
    ensures Orderly(Create(k, p))
  {
    if k.N() < MAX_TASKS {
      var x := k.N();
      var k1 := k.(prio := k.prio + [p], place := k.place + [Exited],
                   wake := k.wake + [0], arrival := k.arrival + [0]);
      forall y | 0 <= y < k1.N() && y != x
        ensures LocatedAt(k1, y)
      {
        assert LocatedAt(k, y);
      }
      ReadyInsertOrderly(k1, x);
    }
  }

  /** `_ready_remove(vk_current)` in `vk_task_sleep` finds nothing to remove. */
  lemma SleepRemovesNothing(k: Kernel)
    requires k.Shaped() && k.Listed() && k.current.Some? && k.place[k.current.value] == OnCpu
    ensures Without(k.ready, k.current.value) == k.ready
  {
    WithoutAbsent(k.ready, k.current.value);
  }

  lemma SetWake(k: Kernel, c: nat, w: KernelSpec.Tick)
    requires Orderly(k) && c < k.N() && k.place[c] == OnCpu
    ensures OrderlyBut(k.(wake := k.wake[c := w]), c)
  {
    OffLists(k, c);
    SameLists(k, k.(wake := k.wake[c := w]));
  }

  lemma SleepOrderly(k: Kernel, n: KernelSpec.Tick)
    requires Orderly(k) && k.current.Some? && k.place[k.current.value] == OnCpu
    ensures Orderly(Sleep(k, n))
  {
    var c, w := k.current.value, Add32(k.ticks, n);
    SleepRemovesNothing(k);
    SetWake(k, c, w);
    SleepInsertOrderly(k.(wake := k.wake[c := w]), c);
  }

  lemma ExitOrderly(k: Kernel)
    requires Orderly(k) && k.current.Some? && k.place[k.current.value] == OnCpu
    ensures Orderly(Exit(k))
  {
    var r := Exit(k);
    OffLists(k, k.current.value);
    assert forall y :: 0 <= y < k.N() ==> LocatedAt(k, y) ==> LocatedAt(r, y);
  }

  lemma NewMutexOrderly(k: Kernel)
    requires Orderly(k)
    ensures Orderly(NewMutex(k))
  {
    var r := NewMutex(k);
    assert forall y :: 0 <= y < k.N() ==> LocatedAt(k, y) ==> LocatedAt(r, y);
  }

  /** The lock words do not matter for the lists. */
  lemma LockWordsOrderly(k: Kernel, r: Kernel)
    requires Orderly(k) && r.Shaped() && r.M() == k.M()
    requires r == k.(locked := r.locked, owner := r.owner)
    ensures Orderly(r)
  {
    SameLists(k, r);
  }

  lemma EnqueueOrderly(k: Kernel, m: nat)
    requires Orderly(k) && k.current.Some? && k.place[k.current.value] == OnCpu && m < k.M()
    ensures Orderly(Enqueue(k, m))
  {
    var c, r := k.current.value, Enqueue(k, m);
    OffLists(k, c);
    assert r.waits[m][|k.waits[m]|] == c;
    forall y | 0 <= y < k.N()
      ensures LocatedAt(r, y)
    {
      assert LocatedAt(k, y);
    }
  }

  lemma PopWaiter(k: Kernel, m: nat)
    requires Orderly(k) && m < k.M() && k.waits[m] != []
    ensures OrderlyBut(k.(waits := k.waits[m := k.waits[m][1..]]), k.waits[m][0])
  {
    var x, r := k.waits[m][0], k.(waits := k.waits[m := k.waits[m][1..]]);
    forall y | 0 <= y < k.N() && y != x
      ensures LocatedAt(r, y)
    {
      assert LocatedAt(k, y);
    }
  }

  lemma UnlockOrderly(k: Kernel, m: nat)
    requires Orderly(k) && m < k.M()
    ensures Orderly(Unlock(k, m))
  {
    var k1 := k.(locked := k.locked[m := false], owner := k.owner[m := None]);
    LockWordsOrderly(k, k1);
    if k.waits[m] != [] {
      PopWaiter(k1, m);
      ReadyInsertOrderly(k1.(waits := k.waits[m := k.waits[m][1..]]), k.waits[m][0]);
    }
  }
}
