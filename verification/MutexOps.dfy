/**
 kernel/vulcan_mutex.c on real records, one method for each stretch of code
 that nothing can interrupt: the memory access of the STREX, the store to
 `owner`, the critical section of `vk_mutex_lock` and that of `vk_mutex_unlock`.
 */
module MutexOps {
  import opened Basics
  import opened KernelSpec
  import opened Links
  import opened Tcb
  import opened Sched

  /** `m` is the mutex number `i`. */
  ghost predicate IsMutex(s: Scheduler, m: Mutex, i: nat)
    reads s
  {
    i < |s.mutexes| && s.mutexes[i] == m
  }

  /** `vk_mutex_init` of a new mutex. */
  method InitMutex(s: Scheduler) returns (m: Mutex)
    requires s.Valid()
    modifies s`mutexes, s`repr, s`v
    ensures s.Valid() && s.v.k == NewMutex(old(s.v.k))
    ensures fresh(m) && s.mutexes == old(s.mutexes) + [m] && s.repr == old(s.repr) + {m}
  {
    hide Linked, Named, Prios, Wakes, States, Threaded, Kernel.Listed;
    m := new Mutex();
    NewMutexSound(s.v);
    s.mutexes, s.repr := s.mutexes + [m], s.repr + {m};
    s.v := s.v.(k := NewMutex(s.v.k));
  }

  /** `m->locked = b`; with `b` set, the store of a successful STREX. */
  method StoreLocked(s: Scheduler, m: Mutex, ghost i: nat, b: bool)
    requires s.Valid() && IsMutex(s, m, i)
    modifies s`v, m`locked
    ensures s.Valid() && s.v == old(s.v).(k := Locked(old(s.v.k), i, b))
  {
    hide Linked, Named, Prios, Wakes, States, Threaded, Kernel.Listed;
    LockWordsSound(s.v, Locked(s.v.k, i, b));
    m.locked := if b then 1 else 0;
    s.v := s.v.(k := Locked(s.v.k, i, b));
  }

  /** `m->owner = t`. */
  method StoreOwner(s: Scheduler, m: Mutex, ghost i: nat, t: Task?, ghost o: Option<nat>)
    requires s.Valid() && IsMutex(s, m, i) && (o.Some? ==> o.value < |s.tcbs|) && t == Ptr(s.tcbs, o)
    modifies s`v, m`owner
    ensures s.Valid() && s.v == old(s.v).(k := Owned(old(s.v.k), i, o))
  {
    hide Linked, Named, Prios, Wakes, States, Threaded, Kernel.Listed;
    LockWordsSound(s.v, Owned(s.v.k, i, o));
    m.owner := t;
    s.v := s.v.(k := Owned(s.v.k, i, o));
  }

  /** The critical section of `vk_mutex_lock`; `retry` tells that the mutex was found free after all. */
  method EnqueueOrRetry(s: Scheduler, m: Mutex, ghost i: nat) returns (retry: bool)
    requires s.Valid() && IsMutex(s, m, i)
    requires s.v.k.current.Some? && s.v.k.place[s.v.k.current.value] == OnCpu
    modifies s`v, s.tcbs`next, s.current`state, m`waitHead, m`waitTail
    ensures s.Valid() && retry == !old(s.v.k).locked[i]
    ensures s.v.k == if retry then old(s.v.k) else KernelSpec.Enqueue(old(s.v.k), i)
  {
    retry := m.locked == 0;
    if !retry {
      EnqueueSelf(s, m, i);
    }
  }

  /** Marking the task as waiting beforehand makes no difference. */
  lemma BlockedEnqueue(v: Image, i: nat)
    requires v.k.Shaped() && |v.link| == v.k.N() && v.k.current.Some? && i < v.k.M()
    ensures Links.Enqueue(v.(k := v.k.(place := v.k.place[v.k.current.value := Waiting(i)])), i) == Links.Enqueue(v, i)
  {
  }

  method EnqueueSelf(s: Scheduler, m: Mutex, ghost i: nat)
    requires s.Valid() && IsMutex(s, m, i)
    requires s.v.k.current.Some? && s.v.k.place[s.v.k.current.value] == OnCpu
    modifies s`v, s.tcbs`next, s.current`state, m`waitHead, m`waitTail
    ensures s.Valid() && s.v == Links.Enqueue(old(s.v), i)
  {
    ghost var v := s.v;
    EnqueueSound(v, i);
    Block(s, i);
    BlockedEnqueue(v, i);
    Append(s, m, i);
  }

  /** `vk_current->state = VK_TASK_BLOCKED; vk_current->next = NULL`. */
  method Block(s: Scheduler, ghost i: nat)
    requires s.Valid() && s.v.k.current.Some? && s.v.k.place[s.v.k.current.value] == OnCpu
    modifies s`v, s.current`state, s.current`next
    ensures s.Valid() && s.v.k.Unlisted(s.v.k.current.value)
    ensures s.v == old(s.v).(k := old(s.v.k).(place := old(s.v.k.place)[old(s.v.k.current.value) := Waiting(i)]))
    ensures s.current.next == null
  {
    hide Prios, Wakes, Guards, AllDifferent;
    ghost var c := s.v.k.current.value;
    SetPlaceSound(s.v, c, Waiting(i));
    assert s.v.link[c] == None;
    s.current.state := Blocked;
    s.current.next := null;
    s.v := s.v.(k := s.v.k.(place := s.v.k.place[c := Waiting(i)]));
  }

  /** Add the running task to the wait tail. */
  method Append(s: Scheduler, m: Mutex, ghost i: nat)
    requires s.Valid() && IsMutex(s, m, i) && s.v.k.current.Some? && s.current.next == null
    requires s.v.k.place[s.v.k.current.value] == Waiting(i)
    modifies s`v, s.tcbs`next, m`waitHead, m`waitTail
    ensures s.Holds(s.v.k, s.v.link) && s.v == Links.Enqueue(old(s.v), i)
  {
    hide Prios, Wakes, States, Splice;
    ghost var c := s.v.k.current.value;
    AppendAmong(m, s.current, s.tcbs, s.v.link, c, s.mutexes, i, s.v.k);
    hide Guards, Linked, AllDifferent;
    assert s.v.k.place[c := Waiting(i)] == s.v.k.place;
    s.v := Links.Enqueue(s.v, i);
  }

  /** The critical section of `vk_mutex_unlock`. */
  method Unlock(s: Scheduler, m: Mutex, ghost i: nat)
    requires s.Valid() && IsMutex(s, m, i)
    modifies s`v, s`readyQueue, s.tcbs`next, s.tcbs`state, m`locked, m`owner, m`waitHead, m`waitTail
    ensures s.Valid() && s.v.k == KernelSpec.Unlock(old(s.v.k), i)
  {
    hide Linked, Prios, Wakes, States, AllDifferent, Threaded, Kernel.Listed;
    StoreLocked(s, m, i, false);
    StoreOwner(s, m, i, null, None);
    if m.waitHead != null {
      WakeWaiter(s, m, i);
    }
  }

  /** Make the head of the wait queue ready. */
  method WakeWaiter(s: Scheduler, m: Mutex, ghost i: nat)
    requires s.Valid() && IsMutex(s, m, i) && m.waitHead != null
    modifies s`v, s`readyQueue, s.tcbs`next, s.tcbs`state, m`waitHead, m`waitTail
    ensures s.Valid()
    ensures var k := old(s.v.k);
      && k.waits[i] != []
      && s.v.k == KernelSpec.ReadyInsert(k.(waits := k.waits[i := k.waits[i][1..]]), k.waits[i][0])
  {
    hide Linked, Prios, Wakes, States, AllDifferent, Threaded, Kernel.Listed;
    PopWaiterSound(s.v, i);
    ghost var x := s.v.k.waits[i][0];
    var waiter := TakeWaiter(s, m, i);
    ReadyInsertSound(s.v, x);
    s.ReadyInsert(waiter);
  }

  method TakeWaiter(s: Scheduler, m: Mutex, ghost i: nat) returns (waiter: Task)
    requires s.Valid() && IsMutex(s, m, i) && m.waitHead != null
    modifies s`v, s.tcbs`next, m`waitHead, m`waitTail
    ensures waiter == s.tcbs[old(s.v.k.waits[i])[0]]
    ensures s.Holds(s.v.k, s.v.link) && s.v == Links.PopWaiter(old(s.v), i)
  {
    hide Prios, Wakes, States;
    waiter := DetachAmong(m, s.tcbs, s.v.link, s.mutexes, i, s.v.k);
    hide Guards, Linked, AllDifferent;
    s.v := Links.PopWaiter(s.v, i);
  }
}
