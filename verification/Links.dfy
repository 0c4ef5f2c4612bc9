/**
 The intrusive lists as values: `link[x]` is the id in the `next` field of task
 `x`.  All lists of the kernel share these fields.
 */
module Links {
  import opened Basics
  import opened KernelFacts
  import opened KernelSpec

  type Link = seq<Option<nat>>

  /** The kernel's data together with its links. */
  datatype Image = Image(k: Kernel, link: Link)

  function Last(q: seq<nat>): Option<nat> {
    if q == [] then None else Some(q[|q| - 1])
  }

  /** Following the links from q[0] visits `q` and ends. */
  ghost predicate Chained(link: Link, q: seq<nat>) {
    Bounded(q, |link|) && forall i {:trigger link[q[i]]} :: 0 <= i < |q| ==> link[q[i]] == Nth(q, i + 1)
  }

  /** Every list of the kernel is chained, and a task on no list has no successor. */
  ghost predicate Threaded(link: Link, k: Kernel)
    requires k.Shaped()
  {
    && |link| == k.N()
    && (forall x {:trigger link[x]} :: 0 <= x < |link| && link[x].Some? ==> link[x].value < |link|)
    && Chained(link, k.ready) && Chained(link, k.sleepers)
    && (forall m :: 0 <= m < |k.waits| ==> Chained(link, k.waits[m]))
    && (forall x {:trigger link[x]} :: 0 <= x < |link| && k.place[x] in {OnCpu, Exited} ==> link[x] == None)
  }

  /** The two link writes that put `x` at position `i` of `q`. */
  function Splice(link: Link, q: seq<nat>, i: nat, x: nat): (r: Link)
    requires Bounded(q, |link|) && i <= |q| && x < |link|
    ensures |r| == |link|
  {
    var l := link[x := Nth(q, i)];
    if i == 0 then l else l[q[i - 1] := Some(x)]
  }

  lemma SpliceChained(link: Link, q: seq<nat>, i: nat, x: nat)
    requires Chained(link, q) && Distinct(q) && Absent(q, x) && i <= |q| && x < |link|
    ensures Chained(Splice(link, q, i, x), InsertAt(q, i, x))
  {
    var r, p := Splice(link, q, i, x), InsertAt(q, i, x);
    forall j | 0 <= j < |p|
      ensures p[j] < |r| && r[p[j]] == Nth(p, j + 1)
    {
      if i < j {
        assert p[j] == q[j - 1];
      }
    }
  }

  lemma SpliceElsewhere(link: Link, q: seq<nat>, i: nat, x: nat, o: seq<nat>)
    requires Bounded(q, |link|) && i <= |q| && x < |link|
    requires Chained(link, o) && Absent(o, x) && (i > 0 ==> Absent(o, q[i - 1]))
    ensures Chained(Splice(link, q, i, x), o)
  {
  }

  /** The lists are consistent, as ids and as links. */
  ghost predicate Sound(v: Image) {
    v.k.Shaped() && v.k.Listed() && Threaded(v.link, v.k)
  }

  /** `_ready_insert`, links included. */
  function ReadyInsert(v: Image, x: nat): (r: Image)
    requires v.k.Shaped() && |v.link| == v.k.N() && x < v.k.N()
  {
    Image(KernelSpec.ReadyInsert(v.k, x), Splice(v.link, v.k.ready, Slot(v.k.ready, v.k.prio, v.k.prio[x]), x))
  }

  lemma ReadyInsertSound(v: Image, x: nat)
    requires Sound(v) && x < v.k.N() && v.k.Unlisted(x)
    ensures Sound(ReadyInsert(v, x))
  {
    var k, link := v.k, v.link;
    var i := Slot(k.ready, k.prio, k.prio[x]);
    ReadyInsertListed(k, x);
    SpliceChained(link, k.ready, i, x);
    SpliceElsewhere(link, k.ready, i, x, k.sleepers);
    forall m | 0 <= m < |k.waits|
      ensures Chained(Splice(link, k.ready, i, x), k.waits[m])
    {
      SpliceElsewhere(link, k.ready, i, x, k.waits[m]);
    }
  }

  /** `_sleep_insert`, links included. */
  function SleepInsert(v: Image, x: nat): (r: Image)
    requires v.k.Shaped() && |v.link| == v.k.N() && x < v.k.N()
  {
    Image(KernelSpec.SleepInsert(v.k, x), Splice(v.link, v.k.sleepers, Slot(v.k.sleepers, v.k.wake, v.k.wake[x]), x))
  }

  lemma SleepInsertSound(v: Image, x: nat)
    requires Sound(v) && x < v.k.N() && v.k.Unlisted(x)
    ensures Sound(SleepInsert(v, x))
  {
    var k, link := v.k, v.link;
    var i := Slot(k.sleepers, k.wake, k.wake[x]);
    InsertAtKeeps(k.sleepers, i, x);
    SpliceChained(link, k.sleepers, i, x);
    SpliceElsewhere(link, k.sleepers, i, x, k.ready);
    forall m | 0 <= m < |k.waits|
      ensures Chained(Splice(link, k.sleepers, i, x), k.waits[m])
    {
      SpliceElsewhere(link, k.sleepers, i, x, k.waits[m]);
    }
  }

  // ---- Removal at the head

  lemma PopChained(link: Link, q: seq<nat>)
    requires q != [] && Chained(link, q) && Distinct(q)
    ensures Chained(link[q[0] := None], q[1..])
    ensures Nth(q[1..], 0) == link[q[0]]
  {
  }

  /** Clearing the link of a task on no list disturbs no list. */
  lemma ClearElsewhere(link: Link, x: nat, q: seq<nat>)
    requires x < |link| && Chained(link, q) && Absent(q, x)
    ensures Chained(link[x := None], q)
  {
  }

  /** The head of the sleep queue, taken off. */
  function PopSleeper(v: Image): (r: Image)
    requires v.k.Shaped() && |v.link| == v.k.N() && v.k.sleepers != []
  {
    Image(v.k.(sleepers := v.k.sleepers[1..]), v.link[v.k.sleepers[0] := None])
  }

  lemma PopSleeperSound(v: Image)
    requires Sound(v) && v.k.sleepers != []
    ensures Sound(PopSleeper(v)) && PopSleeper(v).k.Unlisted(v.k.sleepers[0])
    ensures Nth(v.k.sleepers[1..], 0) == v.link[v.k.sleepers[0]]
  {
    var x := v.k.sleepers[0];
    PopChained(v.link, v.k.sleepers);
    ClearElsewhere(v.link, x, v.k.ready);
    forall m | 0 <= m < |v.k.waits|
      ensures Chained(v.link[x := None], v.k.waits[m])
    {
      ClearElsewhere(v.link, x, v.k.waits[m]);
    }
  }

  /** The head of the ready queue, taken off and made current. */
  function PopReady(v: Image): (r: Image)
    requires v.k.Shaped() && |v.link| == v.k.N()
  {
    Image(KernelSpec.PopReady(v.k), if v.k.ready == [] then v.link else v.link[v.k.ready[0] := None])
  }

  lemma PopReadySound(v: Image)
    requires Sound(v)
    ensures Sound(PopReady(v))
    ensures v.k.ready != [] ==> Nth(v.k.ready[1..], 0) == v.link[v.k.ready[0]]
  {
    if v.k.ready != [] {
      var x := v.k.ready[0];
      PopChained(v.link, v.k.ready);
      ClearElsewhere(v.link, x, v.k.sleepers);
      forall m | 0 <= m < |v.k.waits|
        ensures Chained(v.link[x := None], v.k.waits[m])
      {
        ClearElsewhere(v.link, x, v.k.waits[m]);
      }
    }
  }

  /** The head of the wait queue of `m`, taken off. */
  function PopWaiter(v: Image, m: nat): (r: Image)
    requires v.k.Shaped() && |v.link| == v.k.N() && m < v.k.M() && v.k.waits[m] != []
  {
    Image(v.k.(waits := v.k.waits[m := v.k.waits[m][1..]]), v.link[v.k.waits[m][0] := None])
  }

  lemma PopWaiterSound(v: Image, m: nat)
    requires Sound(v) && m < v.k.M() && v.k.waits[m] != []
    ensures Sound(PopWaiter(v, m)) && PopWaiter(v, m).k.Unlisted(v.k.waits[m][0])
    ensures Nth(v.k.waits[m][1..], 0) == v.link[v.k.waits[m][0]]
  {
    var x := v.k.waits[m][0];
    PopChained(v.link, v.k.waits[m]);
    ClearElsewhere(v.link, x, v.k.ready);
    ClearElsewhere(v.link, x, v.k.sleepers);
    forall n | 0 <= n < |v.k.waits| && n != m
      ensures Chained(v.link[x := None], v.k.waits[n])
    {
      ClearElsewhere(v.link, x, v.k.waits[n]);
    }
  }

  // ---- Insertion at the tail

  /** The current task, on no list, joins the tail of the wait queue of `m`. */
  function Enqueue(v: Image, m: nat): (r: Image)
    requires v.k.Shaped() && |v.link| == v.k.N() && v.k.current.Some? && m < v.k.M()
  {
    Image(KernelSpec.Enqueue(v.k, m), Splice(v.link, v.k.waits[m], |v.k.waits[m]|, v.k.current.value))
  }

  lemma EnqueueSound(v: Image, m: nat)
    requires Sound(v) && v.k.current.Some? && v.k.place[v.k.current.value] == OnCpu && m < v.k.M()
    ensures Sound(Enqueue(v, m))
  {
    var c, q := v.k.current.value, v.k.waits[m];
    OffLists(v.k, c);
    assert InsertAt(q, |q|, c) == q + [c];
    SpliceChained(v.link, q, |q|, c);
    SpliceElsewhere(v.link, q, |q|, c, v.k.ready);
    SpliceElsewhere(v.link, q, |q|, c, v.k.sleepers);
    forall n | 0 <= n < |v.k.waits| && n != m
      ensures Chained(Enqueue(v, m).link, v.k.waits[n])
    {
      SpliceElsewhere(v.link, q, |q|, c, v.k.waits[n]);
    }
  }

  // ---- Removal from the middle

  /** The first position of `x`, or the end. */
  function Index(q: seq<nat>, x: nat): (i: nat)
    ensures i <= |q| && (i < |q| ==> q[i] == x)
    ensures forall j :: 0 <= j < i ==> q[j] != x
  {
    if q == [] || q[0] == x then 0 else 1 + Index(q[1..], x)
  }

  /** The link writes that take out position `i` of `q`. */
  function Cut(link: Link, q: seq<nat>, i: nat): (r: Link)
    requires Bounded(q, |link|) && i < |q|
    ensures |r| == |link|
  {
    (if i == 0 then link else link[q[i - 1] := link[q[i]]])[q[i] := None]
  }

  /** The link writes of `_ready_remove`. */
  function Unlink(link: Link, q: seq<nat>, x: nat): (r: Link)
    requires Bounded(q, |link|) && x < |link|
    ensures |r| == |link|
  {
    if Index(q, x) < |q| then Cut(link, q, Index(q, x)) else link[x := None]
  }

  /** The head of `q` after `_ready_remove`. */
  function HeadAfter(link: Link, q: seq<nat>, x: nat): Option<nat>
    requires x < |link|
  {
    if q != [] && q[0] == x then link[x] else Nth(q, 0)
  }

  lemma CutChained(link: Link, q: seq<nat>, i: nat)
    requires Chained(link, q) && Distinct(q) && i < |q|
    ensures Chained(Cut(link, q, i), RemoveAt(q, i))
    ensures Nth(RemoveAt(q, i), 0) == HeadAfter(link, q, q[i])
  {
    var l, r := Cut(link, q, i), RemoveAt(q, i);
    assert link[q[i]] == Nth(q, i + 1);
    forall j | 0 <= j < |r|
      ensures l[r[j]] == Nth(r, j + 1)
    {
      if j < i {
        assert r[j] == q[j] && link[q[j]] == Nth(q, j + 1);
      } else {
        assert r[j] == q[j + 1] && link[q[j + 1]] == Nth(q, j + 2);
      }
    }
  }

  /** `_ready_remove` takes out the task if it is there and leaves the rest of the list chained. */
  lemma UnlinkChained(link: Link, q: seq<nat>, x: nat)
    requires Chained(link, q) && Distinct(q) && x < |link|
    ensures Chained(Unlink(link, q, x), Without(q, x)) && Nth(Without(q, x), 0) == HeadAfter(link, q, x)
  {
    var i := Index(q, x);
    if i == |q| {
      WithoutAbsent(q, x);
      ClearElsewhere(link, x, q);
    } else {
      WithoutAt(q, i);
      CutChained(link, q, i);
    }
  }

  /** `_ready_remove(vk_current)` in `vk_task_sleep` writes no link that was not NULL before. */
  lemma UnlinkNothing(v: Image, c: nat)
    requires Sound(v) && c < v.k.N() && v.k.place[c] == OnCpu
    ensures v.k.Unlisted(c) && Without(v.k.ready, c) == v.k.ready
    ensures Unlink(v.link, v.k.ready, c) == v.link
    ensures HeadAfter(v.link, v.k.ready, c) == Nth(v.k.ready, 0)
  {
    OffLists(v.k, c);
    WithoutAbsent(v.k.ready, c);
    assert v.link[c] == None;
  }

  // ---- Tasks that come, go and sleep

  lemma SetWakeSound(v: Image, c: nat, w: KernelSpec.Tick)
    requires Sound(v) && c < v.k.N()
    ensures Sound(v.(k := v.k.(wake := v.k.wake[c := w])))
  {
  }

  lemma SetTicksSound(v: Image, t: KernelSpec.Tick)
    requires Sound(v)
    ensures Sound(v.(k := v.k.(ticks := t)))
  {
  }

  /** A task on no list may change its place to that of a task on none, or to ready. */
  lemma SetPlaceSound(v: Image, c: nat, p: Place)
    requires Sound(v) && c < v.k.N() && v.k.place[c] == OnCpu && (p.InReady? || p.Exited? || p.Waiting?)
    ensures Sound(v.(k := v.k.(place := v.k.place[c := p])))
    ensures v.(k := v.k.(place := v.k.place[c := p])).k.Unlisted(c)
  {
    OffLists(v.k, c);
  }

  /** A new record, not yet on the ready queue. */
  function Register(v: Image, p: Prio): (r: Image)
    requires v.k.Shaped() && v.k.N() < MAX_TASKS
  {
    Image(v.k.(prio := v.k.prio + [p], place := v.k.place + [Exited],
               wake := v.k.wake + [0], arrival := v.k.arrival + [0]), v.link + [None])
  }

  lemma RegisterSound(v: Image, p: Prio)
    requires Sound(v) && v.k.N() < MAX_TASKS
    ensures Sound(Register(v, p)) && Register(v, p).k.Unlisted(v.k.N())
  {
  }

  /** The lock words do not matter for the lists. */
  lemma LockWordsSound(v: Image, k: Kernel)
    requires Sound(v) && k.Shaped() && k.M() == v.k.M()
    requires k == v.k.(locked := k.locked, owner := k.owner)
    ensures Sound(v.(k := k))
  {
  }

  lemma BlankSound()
    ensures Sound(Image(Blank(), []))
  {
  }

  lemma NewMutexSound(v: Image)
    requires Sound(v)
    ensures Sound(v.(k := NewMutex(v.k)))
  {
  }
}
