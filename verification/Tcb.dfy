/** The records of include/vulcan_task.h and include/vulcan_mutex.h. */
module Tcb {
  import opened Basics
  import opened KernelSpec
  import opened Links

  /** `vk_task_t`. */
  class Task {
    var sp: int              // index into the stack
    var priority: int
    var state: Status
    var id: int
    var wakeTick: int
    var stackBase: array?<int>
    var stackSize: int       // bytes
    var next: Task?

    constructor () {
    }

    /** The assignments of `vk_task_create`. */
    method Fill(sp: int, priority: int, id: int, stack: array<int>, words: int)
      modifies this
      ensures this.sp == sp && this.priority == priority && this.id == id && state == Dead && wakeTick == 0
      ensures stackBase == stack && stackSize == words * 4 && next == null
    {
      this.sp := sp;
      this.priority := priority;
      state := Dead;
      this.id := id;
      wakeTick := 0;
      stackBase := stack;
      stackSize := words * 4;
      next := null;
    }
  }

  /** `vk_mutex_t`. */
  class Mutex {
    var locked: int
    var owner: Task?
    var waitHead: Task?
    var waitTail: Task?

    /** `vk_mutex_init`. */
    constructor ()
      ensures locked == 0 && owner == null && waitHead == null && waitTail == null
    {
      locked, owner, waitHead, waitTail := 0, null, null, null;
    }
  }

  ghost predicate AllDifferent<T>(os: seq<T>) {
    forall i, j :: 0 <= i < j < |os| ==> os[i] != os[j]
  }

  /** The pointer to the task named by an optional id. */
  ghost function Ptr(ts: seq<Task>, x: Option<nat>): (t: Task?) {
    if x.Some? && x.value < |ts| then ts[x.value] else null
  }

  /** The `next` fields hold `link`. */
  ghost predicate Linked(ts: seq<Task>, link: Link)
    reads ts
  {
    |link| == |ts| && forall x {:trigger ts[x].next} :: 0 <= x < |ts| ==> ts[x].next == Ptr(ts, link[x])
  }

  /** The other fields of the records: ids, priorities, wake ticks and states. */
  ghost predicate Named(ts: seq<Task>)
    reads ts`id
  {
    forall x {:trigger ts[x]} :: 0 <= x < |ts| ==> ts[x].id == x
  }

  ghost predicate Prios(ts: seq<Task>, prio: seq<int>)
    reads ts`priority
  {
    |prio| == |ts| && forall x {:trigger ts[x]} :: 0 <= x < |ts| ==> ts[x].priority == prio[x]
  }

  ghost predicate Wakes(ts: seq<Task>, wake: seq<int>)
    reads ts`wakeTick
  {
    |wake| == |ts| && forall x {:trigger ts[x]} :: 0 <= x < |ts| ==> ts[x].wakeTick == wake[x]
  }

  ghost predicate States(ts: seq<Task>, place: seq<Place>)
    reads ts`state
  {
    |place| == |ts| && forall x {:trigger ts[x]} :: 0 <= x < |ts| ==> ts[x].state == StatusOf(place[x])
  }

  /** The mutex records. */
  ghost predicate Guards(ms: seq<Mutex>, ts: seq<Task>, locked: seq<bool>, owner: seq<Option<nat>>, waits: seq<seq<nat>>)
    reads ms
  {
    && |ms| == |locked| == |owner| == |waits|
    && forall m {:trigger ms[m]} :: 0 <= m < |ms| ==>
         && ms[m].locked == (if locked[m] then 1 else 0) && ms[m].owner == Ptr(ts, owner[m])
         && ms[m].waitHead == Ptr(ts, Nth(waits[m], 0)) && ms[m].waitTail == Ptr(ts, Last(waits[m]))
  }

  // A record more.

  lemma LinkedMore(ts: seq<Task>, link: Link, t: Task)
    requires Linked(ts, link) && t.next == null
    requires forall x {:trigger link[x]} :: 0 <= x < |link| && link[x].Some? ==> link[x].value < |link|
    ensures Linked(ts + [t], link + [None])
  {
  }

  lemma FieldsMore(ts: seq<Task>, k: Kernel, t: Task)
    requires Named(ts) && Prios(ts, k.prio) && Wakes(ts, k.wake) && States(ts, k.place)
    requires t.id == |ts| && t.state == Dead
    ensures Named(ts + [t]) && Prios(ts + [t], k.prio + [t.priority]) && Wakes(ts + [t], k.wake + [t.wakeTick])
    ensures States(ts + [t], k.place + [Exited])
  {
  }

  lemma GuardsMore(ms: seq<Mutex>, ts: seq<Task>, k: Kernel, t: Task)
    requires k.Shaped() && |ts| == k.N() && Guards(ms, ts, k.locked, k.owner, k.waits)
    ensures Guards(ms, ts + [t], k.locked, k.owner, k.waits)
  {
    forall m | 0 <= m < |ms|
      ensures Ptr(ts + [t], k.owner[m]) == Ptr(ts, k.owner[m])
      ensures Ptr(ts + [t], Nth(k.waits[m], 0)) == Ptr(ts, Nth(k.waits[m], 0))
      ensures Ptr(ts + [t], Last(k.waits[m])) == Ptr(ts, Last(k.waits[m]))
    {
    }
  }

  /** `_ready_insert` on the records: put `t` behind all of `q` that are as urgent. */
  method InsertByPriority(head: Task?, t: Task, ghost ts: seq<Task>, ghost link: Link,
                          ghost q: seq<nat>, ghost prio: seq<int>, ghost x: nat)
    returns (newHead: Task?)
    requires Named(ts) && Linked(ts, link) && Chained(link, q) && x < |ts| && ts[x] == t
    requires Prios(ts, prio)
    requires head == Ptr(ts, Nth(q, 0))
    modifies ts`next, t`state
    ensures t.state == Ready
    ensures Linked(ts, Splice(link, q, Slot(q, prio, prio[x]), x))
    ensures newHead == Ptr(ts, Nth(Insert(q, prio, x), 0))
  {
    t.state := Ready;
    var prev: Task? := null;
    var cur := head;
    ghost var i := 0;
    assert t.priority == prio[x];
    while cur != null && cur.priority <= t.priority
      invariant 0 <= i <= |q| && cur == Ptr(ts, Nth(q, i))
      invariant prev == if i == 0 then null else ts[q[i - 1]]
      invariant forall j :: 0 <= j < i ==> prio[q[j]] <= prio[x]
      decreases |q| - i
    {
      assert cur == ts[q[i]] && cur.priority == prio[q[i]];
      prev := cur;
      cur := cur.next;
      i := i + 1;
    }
    assert i == Slot(q, prio, prio[x]);
    t.next := cur;
    if prev == null {
      newHead := t;
    } else {
      prev.next := t;
      newHead := head;
    }
  }

  /** `_sleep_insert` on the records: put `t` behind all of `q` that wake no later. */
  method InsertByWake(head: Task?, t: Task, ghost ts: seq<Task>, ghost link: Link,
                      ghost q: seq<nat>, ghost wake: seq<int>, ghost x: nat)
    returns (newHead: Task?)
    requires Named(ts) && Linked(ts, link) && Chained(link, q) && x < |ts| && ts[x] == t
    requires Wakes(ts, wake)
    requires head == Ptr(ts, Nth(q, 0))
    modifies ts`next, t`state
    ensures t.state == Blocked
    ensures Linked(ts, Splice(link, q, Slot(q, wake, wake[x]), x))
    ensures newHead == Ptr(ts, Nth(Insert(q, wake, x), 0))
  {
    t.state := Blocked;
    var prev: Task? := null;
    var cur := head;
    ghost var i := 0;
    assert t.wakeTick == wake[x];
    while cur != null && cur.wakeTick <= t.wakeTick
      invariant 0 <= i <= |q| && cur == Ptr(ts, Nth(q, i))
      invariant prev == if i == 0 then null else ts[q[i - 1]]
      invariant forall j :: 0 <= j < i ==> wake[q[j]] <= wake[x]
      decreases |q| - i
    {
      assert cur == ts[q[i]] && cur.wakeTick == wake[q[i]];
      prev := cur;
      cur := cur.next;
      i := i + 1;
    }
    assert i == Slot(q, wake, wake[x]);
    t.next := cur;
    if prev == null {
      newHead := t;
    } else {
      prev.next := t;
      newHead := head;
    }
  }

  /** `_ready_remove`: take `t` off `q` if it is there, and clear its link either way. */
  method RemoveTask(head: Task?, t: Task, ghost ts: seq<Task>, ghost link: Link, ghost q: seq<nat>, ghost x: nat)
    returns (newHead: Task?)
    requires Named(ts) && Linked(ts, link) && Chained(link, q) && Distinct(q) && x < |ts| && ts[x] == t
    requires head == Ptr(ts, Nth(q, 0))
    modifies ts`next
    ensures Linked(ts, Unlink(link, q, x))
    ensures newHead == Ptr(ts, HeadAfter(link, q, x))
  {
    var prev: Task? := null;
    var cur := head;
    ghost var i := 0;
    while cur != null && cur != t
      invariant 0 <= i <= |q| && cur == Ptr(ts, Nth(q, i))
      invariant prev == if i == 0 then null else ts[q[i - 1]]
      invariant forall j :: 0 <= j < i ==> q[j] != x
      decreases |q| - i
    {
      assert cur == ts[q[i]];
      prev := cur;
      cur := cur.next;
      i := i + 1;
    }
    assert i == Index(q, x);
    newHead := head;
    if cur != null {
      if prev == null {
        newHead := t.next;
      } else {
        prev.next := t.next;
      }
    }
    t.next := null;
  }

  /** Append `t`, whose link is NULL, to the wait queue of `m`. */
  method AppendWaiter(m: Mutex, t: Task, ghost ts: seq<Task>, ghost link: Link, ghost q: seq<nat>, ghost x: nat)
    requires Named(ts) && Linked(ts, link) && Chained(link, q) && x < |ts| && ts[x] == t && t.next == null
    requires m.waitHead == Ptr(ts, Nth(q, 0)) && m.waitTail == Ptr(ts, Last(q))
    modifies ts`next, m`waitHead, m`waitTail
    ensures Linked(ts, Splice(link, q, |q|, x))
    ensures m.waitHead == Ptr(ts, Nth(q + [x], 0)) && m.waitTail == Ptr(ts, Last(q + [x]))
  {
    if m.waitTail != null {
      m.waitTail.next := t;
      m.waitTail := t;
    } else {
      m.waitHead, m.waitTail := t, t;
    }
  }

  /** Take the head off the wait queue of `m`; both ends become NULL with the last waiter. */
  method DetachWaiter(m: Mutex, ghost ts: seq<Task>, ghost link: Link, ghost q: seq<nat>) returns (waiter: Task)
    requires Named(ts) && Linked(ts, link) && Chained(link, q) && q != []
    requires m.waitHead == Ptr(ts, Nth(q, 0)) && m.waitTail == Ptr(ts, Last(q))
    modifies ts`next, m`waitHead, m`waitTail
    ensures waiter == ts[q[0]] && Linked(ts, link[q[0] := None])
    ensures m.waitHead == Ptr(ts, Nth(q[1..], 0)) && m.waitTail == Ptr(ts, Last(q[1..]))
  {
    assert link[q[0]] == Nth(q, 1);
    waiter := m.waitHead;
    m.waitHead := waiter.next;
    if m.waitHead == null {
      m.waitTail := null;
    }
    waiter.next := null;
  }

  // The same two with what becomes of the mutex records as a whole.

  method AppendAmong(m: Mutex, t: Task, ghost ts: seq<Task>, ghost link: Link, ghost x: nat,
                     ghost ms: seq<Mutex>, ghost i: nat, ghost k: Kernel)
    requires Named(ts) && Linked(ts, link) && x < |ts| && ts[x] == t && t.next == null
    requires AllDifferent(ms) && i < |ms| && ms[i] == m && Guards(ms, ts, k.locked, k.owner, k.waits)
    requires Chained(link, k.waits[i])
    modifies ts`next, m`waitHead, m`waitTail
    ensures Linked(ts, Splice(link, k.waits[i], |k.waits[i]|, x))
    ensures Guards(ms, ts, k.locked, k.owner, k.waits[i := k.waits[i] + [x]])
  {
    hide Linked, Chained, Named, Splice;
    AppendWaiter(m, t, ts, link, k.waits[i], x);
  }

  method DetachAmong(m: Mutex, ghost ts: seq<Task>, ghost link: Link, ghost ms: seq<Mutex>, ghost i: nat, ghost k: Kernel)
    returns (waiter: Task)
    requires Named(ts) && Linked(ts, link)
    requires AllDifferent(ms) && i < |ms| && ms[i] == m && Guards(ms, ts, k.locked, k.owner, k.waits)
    requires Chained(link, k.waits[i]) && k.waits[i] != []
    modifies ts`next, m`waitHead, m`waitTail
    ensures waiter == ts[k.waits[i][0]] && Linked(ts, link[k.waits[i][0] := None])
    ensures Guards(ms, ts, k.locked, k.owner, k.waits[i := k.waits[i][1..]])
  {
    hide Linked, Named;
    waiter := DetachWaiter(m, ts, link, k.waits[i]);
  }
}
