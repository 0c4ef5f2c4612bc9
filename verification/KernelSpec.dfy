/**
 The kernel's data as a value, and what each critical section of
 kernel/vulcan_sched.c and kernel/vulcan_mutex.c does to it.

 Tasks are named by their `id`, the order in which they were created.  The
 intrusive lists appear as the sequences of ids met by following `next`.
 */
module KernelSpec {
  import opened Basics
  import opened Words

  const MAX_TASKS := 16
  const IDLE: nat := 0
  const IDLE_PRIO := 255

  type Tick = u32
  type Prio = p: int | 0 <= p < 256

  /** The `state` field of a TCB. */
  datatype Status = Dead | Ready | Running | Blocked

  /** Where a task is: `state` with the two ways of being blocked told apart. */
  datatype Place = Exited | InReady | OnCpu | Sleeping | Waiting(m: nat)

  function StatusOf(p: Place): Status {
    match p
    case Exited => Dead
    case InReady => Ready
    case OnCpu => Running
    case Sleeping => Blocked
    case Waiting(_) => Blocked
  }

  /**
   `arrival[x]` is the rank of the last insertion of `x` in the ready queue
   among all such insertions: a history variable that only specifications use.
   */
  datatype Kernel = Kernel(
    prio: seq<int>, place: seq<Place>, wake: seq<int>,
    arrival: seq<nat>, arrivals: nat,
    ready: seq<nat>, sleepers: seq<nat>,
    current: Option<nat>, ticks: int,
    locked: seq<bool>, owner: seq<Option<nat>>, waits: seq<seq<nat>>)
  {
    /** Number of created tasks (`task_count`). */
    function N(): nat { |prio| }

    /** Number of initialised mutexes. */
    function M(): nat { |locked| }

    /** Every index is in range. */
    ghost predicate Shaped() {
      && |place| == |wake| == |arrival| == |prio| <= MAX_TASKS
      && |owner| == |waits| == |locked|
      && Bounded(ready, |prio|) && Bounded(sleepers, |prio|)
      && (forall m :: 0 <= m < |waits| ==> Bounded(waits[m], |prio|))
      && (current.Some? ==> current.value < |prio|)
      && (forall m :: 0 <= m < |owner| && owner[m].Some? ==> owner[m].value < |prio|)
      && 0 <= ticks < WORD
      && (forall x :: 0 <= x < |prio| ==> 0 <= prio[x] < 256)
      && (forall x :: 0 <= x < |wake| ==> 0 <= wake[x] < WORD)
    }

    /** What sits on a list is marked so, and no list holds a task twice. */
    ghost predicate Listed()
      requires Shaped()
    {
      && (forall i :: 0 <= i < |ready| ==> place[ready[i]] == InReady)
      && (forall i :: 0 <= i < |sleepers| ==> place[sleepers[i]] == Sleeping)
      && (forall m, i :: 0 <= m < |waits| && 0 <= i < |waits[m]| ==> place[waits[m][i]] == Waiting(m))
      && Distinct(ready) && Distinct(sleepers)
      && (forall m :: 0 <= m < |waits| ==> Distinct(waits[m]))
    }

    /** Task `x` is on no list. */
    ghost predicate Unlisted(x: nat) {
      && Absent(ready, x) && Absent(sleepers, x)
      && (forall m :: 0 <= m < |waits| ==> Absent(waits[m], x))
    }
  }

  /** The first position of `q` whose key exceeds `k`, or the end. */
  function Slot(q: seq<nat>, keys: seq<int>, k: int): (i: nat)
    requires Bounded(q, |keys|)
    ensures i <= |q|
    ensures forall j :: 0 <= j < i ==> keys[q[j]] <= k
    ensures i < |q| ==> keys[q[i]] > k
  {
    if q == [] || keys[q[0]] > k then 0 else 1 + Slot(q[1..], keys, k)
  }

  /** Insertion behind every element whose key is at most that of `x`. */
  function Insert(q: seq<nat>, keys: seq<int>, x: nat): (r: seq<nat>)
    requires Bounded(q, |keys|) && x < |keys|
  {
    InsertAt(q, Slot(q, keys, keys[x]), x)
  }

  // ---- kernel/vulcan_sched.c

  function ReadyInsert(k: Kernel, x: nat): (r: Kernel)
    requires k.Shaped() && x < k.N()
    ensures r.Shaped() && r.N() == k.N() && r.M() == k.M()
  {
    k.(place := k.place[x := InReady],
       ready := Insert(k.ready, k.prio, x),
       arrival := k.arrival[x := k.arrivals],
       arrivals := k.arrivals + 1)
  }

  function SleepInsert(k: Kernel, x: nat): (r: Kernel)
    requires k.Shaped() && x < k.N()
    ensures r.Shaped() && r.N() == k.N() && r.M() == k.M()
  {
    k.(place := k.place[x := Sleeping], sleepers := Insert(k.sleepers, k.wake, x))
  }

  /** The SysTick loop: every expired head of the sleep queue becomes ready. */
  function WakeExpired(k: Kernel): (r: Kernel)
    requires k.Shaped()
    ensures r.Shaped()
    ensures r == k.(place := r.place, ready := r.ready, sleepers := r.sleepers,
                    arrival := r.arrival, arrivals := r.arrivals)
    decreases |k.sleepers|
  {
    if k.sleepers != [] && k.wake[k.sleepers[0]] <= k.ticks
    then WakeExpired(ReadyInsert(k.(sleepers := k.sleepers[1..]), k.sleepers[0]))
    else k
  }

  function SysTick(k: Kernel): (r: Kernel)
    requires k.Shaped()
    ensures r.Shaped() && r.N() == k.N() && r.M() == k.M()
  {
    WakeExpired(k.(ticks := Add32(k.ticks, 1)))
  }

  /** The head of the ready queue has a strictly higher priority than the running task. */
  predicate Outranked(k: Kernel)
    requires k.Shaped()
  {
    k.ready != [] && k.current.Some? && k.prio[k.ready[0]] < k.prio[k.current.value]
  }

  /** Pop the head of the ready queue and make it current. */
  function PopReady(k: Kernel): (r: Kernel)
    requires k.Shaped()
    ensures r.Shaped() && r.N() == k.N() && r.M() == k.M()
  {
    if k.ready == [] then k.(current := None)
    else k.(ready := k.ready[1..],
            place := k.place[k.ready[0] := OnCpu],
            current := Some(k.ready[0]))
  }

  function Schedule(k: Kernel): (r: Kernel)
    requires k.Shaped()
    ensures r.Shaped() && r.N() == k.N() && r.M() == k.M()
  {
    if k.current.Some? && k.place[k.current.value] == OnCpu
    then PopReady(ReadyInsert(k, k.current.value))
    else PopReady(k)
  }

  function Create(k: Kernel, p: Prio): (r: Kernel)
    requires k.Shaped()
    ensures r.Shaped() && r.M() == k.M()
    ensures r.N() == if k.N() >= MAX_TASKS then k.N() else k.N() + 1
  {
    if k.N() >= MAX_TASKS then k
    else ReadyInsert(k.(prio := k.prio + [p], place := k.place + [Exited],
                        wake := k.wake + [0], arrival := k.arrival + [0]), k.N())
  }

  /** No tasks, no mutexes. */
  function Blank(): (r: Kernel)
    ensures r.Shaped()
  {
    Kernel([], [], [], [], 0, [], [], None, 0, [], [], [])
  }

  /** `vk_sched_init`: empty lists, then the idle task. */
  function Boot(): (r: Kernel)
    ensures r.Shaped() && r.N() == 1 && r.M() == 0
  {
    Create(Blank(), IDLE_PRIO)
  }

  function Sleep(k: Kernel, n: Tick): (r: Kernel)
    requires k.Shaped() && k.current.Some?
    ensures r.Shaped() && r.N() == k.N() && r.M() == k.M()
  {
    var c := k.current.value;
    SleepInsert(k.(ready := Without(k.ready, c), wake := k.wake[c := Add32(k.ticks, n)]), c)
  }

  function Exit(k: Kernel): (r: Kernel)
    requires k.Shaped() && k.current.Some?
    ensures r.Shaped() && r.N() == k.N() && r.M() == k.M()
  {
    k.(place := k.place[k.current.value := Exited])
  }

  // ---- kernel/vulcan_mutex.c

  function NewMutex(k: Kernel): (r: Kernel)
    requires k.Shaped()
    ensures r.Shaped() && r.N() == k.N() && r.M() == k.M() + 1
  {
    k.(locked := k.locked + [false], owner := k.owner + [None], waits := k.waits + [[]])
  }

  /** Write the `locked` word of `m`. */
  function Locked(k: Kernel, m: nat, b: bool): (r: Kernel)
    requires k.Shaped() && m < k.M()
    ensures r.Shaped() && r.N() == k.N() && r.M() == k.M()
  {
    k.(locked := k.locked[m := b])
  }

  /** Write the `owner` of `m`. */
  function Owned(k: Kernel, m: nat, o: Option<nat>): (r: Kernel)
    requires k.Shaped() && m < k.M() && (o.Some? ==> o.value < k.N())
    ensures r.Shaped() && r.N() == k.N() && r.M() == k.M()
  {
    k.(owner := k.owner[m := o])
  }

  /** The current task joins the tail of the wait queue of `m`. */
  function Enqueue(k: Kernel, m: nat): (r: Kernel)
    requires k.Shaped() && k.current.Some? && m < k.M()
    ensures r.Shaped() && r.N() == k.N() && r.M() == k.M()
  {
    var c := k.current.value;
    k.(place := k.place[c := Waiting(m)], waits := k.waits[m := k.waits[m] + [c]])
  }

  /** Free `m` and make the head of its wait queue ready. */
  function Unlock(k: Kernel, m: nat): (r: Kernel)
    requires k.Shaped() && m < k.M()
    ensures r.Shaped() && r.N() == k.N() && r.M() == k.M()
  {
    var k1 := k.(locked := k.locked[m := false], owner := k.owner[m := None]);
    if k.waits[m] == [] then k1
    else ReadyInsert(k1.(waits := k.waits[m := k.waits[m][1..]]), k.waits[m][0])
  }
}
