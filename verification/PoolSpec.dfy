/** The block pool of kernel/vulcan_mem.c: who owns which block, and the free list inside the free blocks. */
module PoolSpec {
  import opened Basics
  import opened Words

  /**
   Blocks by number.  `zeroing[b]` counts the bytes cleared so far of a block
   whose `vk_mem_alloc` has left its critical section but not returned;
   `data[b]` is what the holder of a live block has in it.
   */
  datatype Pool = Pool(bs: nat, n: nat, free: seq<nat>, zeroing: map<nat, nat>, data: map<nat, seq<byte>>)
  {
    ghost predicate Inv() {
      && Distinct(free) && Bounded(free, n)
      && (forall b :: b in zeroing ==> b < n && Absent(free, b) && b !in data && zeroing[b] <= bs)
      && (forall b :: b in data ==> b < n && Absent(free, b) && |data[b]| == bs)
      && |free| + |zeroing| + |data| == n
    }
  }

  /** One step: of an allocation, of a holder, or a free. */
  datatype Step =
    | Pop                           // critical section of vk_mem_alloc
    | Zero(b: nat, i: nat)          // round i of its zeroing loop
    | Return(b: nat)                // its return
    | Put(b: nat, i: nat, v: byte)  // the holder writes a byte of its block
    | Push(b: nat)                  // vk_mem_free of a live block

  predicate Enabled(p: Pool, s: Step) {
    match s
    case Pop => true
    case Zero(b, i) => b in p.zeroing && p.zeroing[b] == i < p.bs
    case Return(b) => b in p.zeroing && p.zeroing[b] == p.bs
    case Put(b, i, _) => b in p.data && i < |p.data[b]|
    case Push(b) => b in p.data
  }

  function Zeros(n: nat): (z: seq<byte>)
    ensures |z| == n
  {
    seq(n, _ => 0)
  }

  function SetByte(d: seq<byte>, i: nat, v: byte): (r: seq<byte>)
    requires i < |d|
    ensures |r| == |d|
  {
    d[..i] + [v] + d[i + 1..]
  }

  function Next(p: Pool, s: Step): (r: Pool)
    requires Enabled(p, s)
  {
    match s
    case Pop => if p.free == [] then p else p.(free := p.free[1..], zeroing := p.zeroing[p.free[0] := 0])
    case Zero(b, i) => p.(zeroing := p.zeroing[b := i + 1])
    case Return(b) => p.(zeroing := p.zeroing - {b}, data := p.data[b := Zeros(p.bs)])
    case Put(b, i, v) => p.(data := p.data[b := SetByte(p.data[b], i, v)])
    case Push(b) => p.(free := [b] + p.free, data := p.data - {b})
  }

  ghost predicate CanRun(p: Pool, ss: seq<Step>)
    decreases |ss|
  {
    ss == [] || (Enabled(p, ss[0]) && CanRun(Next(p, ss[0]), ss[1..]))
  }

  function Run(p: Pool, ss: seq<Step>): (r: Pool)
    requires CanRun(p, ss)
    decreases |ss|
  {
    if ss == [] then p else Run(Next(p, ss[0]), ss[1..])
  }

  lemma SizeWith<T>(m: map<nat, T>, b: nat, v: T)
    ensures |m[b := v]| == if b in m then |m| else |m| + 1
  {
    assert m[b := v].Keys == m.Keys + {b};
  }

  lemma SizeWithout<T>(m: map<nat, T>, b: nat)
    ensures |m - {b}| == if b in m then |m| - 1 else |m|
  {
    assert (m - {b}).Keys == m.Keys - {b};
  }

  lemma NextInv(p: Pool, s: Step)
    requires p.Inv() && Enabled(p, s)
    ensures Next(p, s).Inv()
  {
    match s
    case Pop => PopInv(p);
    case Zero(b, _) => ZeroInv(p, b);
    case Return(b) => ReturnInv(p, b);
    case Put(b, i, v) => PutInv(p, b, i, v);
    case Push(b) => PushInv(p, b);
  }

  lemma ZeroInv(p: Pool, b: nat)
    requires p.Inv() && b in p.zeroing && p.zeroing[b] < p.bs
    ensures Next(p, Zero(b, p.zeroing[b])).Inv()
  {
    SizeWith(p.zeroing, b, p.zeroing[b] + 1);
  }

  lemma PutInv(p: Pool, b: nat, i: nat, v: byte)
    requires p.Inv() && Enabled(p, Put(b, i, v))
    ensures Next(p, Put(b, i, v)).Inv()
  {
    SizeWith(p.data, b, SetByte(p.data[b], i, v));
  }

  lemma TakeInv(p: Pool, q: Pool, x: nat)
    requires p.Inv() && p.free == [x] + q.free && q.bs == p.bs && q.n == p.n && q.data == p.data
    requires q.zeroing == p.zeroing[x := 0]
    ensures q.Inv()
  {
    assert forall i :: 0 <= i < |q.free| ==> q.free[i] == p.free[i + 1];
    assert p.free[0] == x;
    SizeWith(p.zeroing, x, 0);
  }

  lemma PopInv(p: Pool)
    requires p.Inv()
    ensures Next(p, Pop).Inv()
  {
    if p.free != [] {
      TakeInv(p, Next(p, Pop), p.free[0]);
    }
  }

  lemma ReturnInv(p: Pool, b: nat)
    requires p.Inv() && Enabled(p, Return(b))
    ensures Next(p, Return(b)).Inv()
  {
    SizeWithout(p.zeroing, b);
    SizeWith(p.data, b, Zeros(p.bs));
  }

  lemma PushInv(p: Pool, b: nat)
    requires p.Inv() && Enabled(p, Push(b))
    ensures Next(p, Push(b)).Inv()
  {
    SizeWithout(p.data, b);
    var r := Next(p, Push(b));
    assert forall i :: 0 < i < |r.free| ==> r.free[i] == p.free[i - 1];
  }

  /** Under every interleaving no block is both free and live, or live twice, and none is lost. */
  lemma {:induction false} RunInv(p: Pool, ss: seq<Step>)
    requires p.Inv() && CanRun(p, ss)
    ensures Run(p, ss).Inv()
    decreases |ss|
  {
    if ss != [] {
      NextInv(p, ss[0]);
      RunInv(Next(p, ss[0]), ss[1..]);
    }
  }

  /** An allocation finds nothing exactly when all blocks are out. */
  lemma EmptyIffAllOut(p: Pool)
    requires p.Inv()
    ensures p.free == [] <==> |p.zeroing| + |p.data| == p.n
    ensures p.free == [] <==> Next(p, Pop) == p
  {
    if p.free != [] {
      assert |Next(p, Pop).free| < |p.free|;
    }
  }

  /** A freed block is the next one allocated, and with it the pool is as it was, but for the data. */
  lemma FreeThenAlloc(p: Pool, b: nat)
    requires p.Inv() && Enabled(p, Push(b))
    ensures var r := Next(Next(p, Push(b)), Pop);
      && |Next(p, Push(b)).free| == |p.free| + 1
      && r.free == p.free && r.zeroing == p.zeroing[b := 0] && r.data == p.data - {b}
  {
    assert ([b] + p.free)[1..] == p.free;
  }

  /** An allocation and its zeroing loop end with a live block of zeros that was free, and one free block less. */
  lemma AllocGivesZeros(p: Pool)
    requires p.Inv() && p.free != []
    ensures var b, q := p.free[0], Next(p, Pop);
      && b !in p.data && b in q.zeroing && |q.free| == |p.free| - 1 && b !in q.free
      && var r := Next(q.(zeroing := q.zeroing[b := p.bs]), Return(b));
      |r.data[b]| == p.bs && forall i :: 0 <= i < p.bs ==> r.data[b][i] == 0
  {
  }

  /** What a holder has in its block stays, whatever everybody else does. */
  lemma {:induction false} OthersKeepTheirData(p: Pool, ss: seq<Step>, b: nat)
    requires p.Inv() && CanRun(p, ss) && b in p.data
    requires forall j :: 0 <= j < |ss| ==> !(ss[j].Put? && ss[j].b == b) && ss[j] != Push(b)
    ensures b in Run(p, ss).data && Run(p, ss).data[b] == p.data[b]
    decreases |ss|
  {
    if ss != [] {
      NextInv(p, ss[0]);
      OthersKeepTheirData(Next(p, ss[0]), ss[1..], b);
    }
  }
}
