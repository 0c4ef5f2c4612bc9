/** The pool allocator of kernel/vulcan_mem.c on an array of bytes. */
module BlockPool {
  import opened Basics
  import opened PoolSpec
  import opened PoolMemory
  import opened Words
  import Bits

  /** The free list that `vk_pool_init` builds: the last block first. */
  function Down(n: nat): (q: seq<nat>)
    ensures |q| == n && forall i :: 0 <= i < n ==> q[i] == n - 1 - i
  {
    if n == 0 then [] else [n - 1] + Down(n - 1)
  }

  /** The block size that `vk_pool_init` uses. */
  function Rounded(size: nat): (r: nat) {
    Bits.RoundUp(if size < 4 then 4 else size, 2)
  }

  /** It is the least multiple of a word that is not below the size asked for, and a word at least. */
  lemma RoundedIs(size: nat)
    ensures Rounded(size) >= 4 && Rounded(size) % 4 == 0
    ensures Bits.LeastMultiple(Rounded(size), if size < 4 then 4 else size, 4)
  {
    assert Bits.Pow2(2) == 4;
    Bits.RoundUpIs(if size < 4 then 4 else size, 2);
    var q: nat :| Rounded(size) == q * 4;
  }

  /** VK_POOL_DECLARE reserves `size * n` bytes: enough for the rounded blocks exactly when no rounding takes place. */
  lemma DeclaredStorageSuffices(size: nat, n: nat)
    ensures n * Rounded(size) <= size * n <==> n == 0 || (size >= 4 && size % 4 == 0)
  {
    hide Rounded, Bits.Multiple;
    RoundedIs(size);
    if size >= 4 && size % 4 == 0 {
      assert Rounded(size) == size;
    } else if n > 0 {
      MulMore(n, size, Rounded(size));
    }
  }

  lemma MulMore(n: nat, a: nat, b: nat)
    requires n > 0 && a < b
    ensures a * n < n * b
  {
    MulGrows(a + 1, b, n);
    assert (a + 1) * n == a * n + n;
  }

  lemma InitFits(l: Layout, len: nat, size: u32)
    requires 0 < l.base && l.base % 4 == 0 && l.base + len <= 0x1_0000_0000 && l.n * Rounded(size) <= len
    requires l.bs == Bits.And(Add32(if size < 4 then 4 else size, 3), Bits.Not(3))
    ensures l.Fits(len) && (l.n > 0 ==> l.bs == Rounded(size))
  {
    var s := if size < 4 then 4 else size;
    assert Bits.Pow2(2) == 4;
    RoundedIs(size);
    Bits.MaskUpIs(s, 2);
    OffIs(l, l.n);
    if l.n > 0 {
      MulGrows(1, l.n, Rounded(size));
    }
  }

  /** One round of the loop of `vk_pool_init`. */
  lemma LinkOneMore(l: Layout, m: seq<byte>, r: seq<byte>, i: nat)
    requires l.Fits(|m|) && i < l.n && FreeHeld(l, m, Down(i)) && OnlyBlock(l, m, r, i)
    requires LinkHeld(l, r, i, Nth(Down(i), 0))
    ensures FreeHeld(l, r, Down(i + 1))
  {
    FreeListSafe(l, m, r, i, Down(i));
    PushLinks(l, r, Down(i), i);
  }

  class BlockPool {
    const mem: array<byte>   // the storage
    const base: nat          // its address
    var freeList: nat        // address of the first free block, 0 for NULL
    var blockSize: nat
    var total: nat
    var used: nat
    ghost const l: Layout
    ghost var p: Pool

    ghost predicate Valid()
      reads this, mem
    {
      && Held(l, mem[..], freeList, p) && l.base == base
      && blockSize == p.bs && total == p.n && used == |p.zeroing| + |p.data|
    }

    /** `vk_pool_init` on storage of at least `n` rounded blocks at the word-aligned address `base`. */
    constructor (storage: array<byte>, base: nat, size: u32, n: nat)
      requires 0 < base && base % 4 == 0 && base + storage.Length <= 0x1_0000_0000
      requires n * Rounded(size) <= storage.Length
      modifies storage
      ensures Valid() && mem == storage && l.base == base && (n > 0 ==> l.bs == Rounded(size))
      ensures p == Pool(l.bs, n, Down(n), map[], map[])
    {
      var bs := if size < 4 then 4 else size;
      bs := Bits.And(Add32(bs, 3), Bits.Not(3));
      mem := storage;
      this.base := base;
      freeList, blockSize, total, used := 0, bs, n, 0;
      l := Layout(base, bs, n);
      new;
      InitFits(l, storage.Length, size);
      LinkBlocks();
      p := Pool(blockSize, n, Down(n), map[], map[]);
    }

    /** The loop that builds the free list. */
    method LinkBlocks()
      requires l.Fits(mem.Length) && l.base == base && l.bs == blockSize && l.n == total && freeList == 0
      modifies this`freeList, mem
      ensures FreeHeld(l, mem[..], Down(total)) && freeList == l.Ptr(Nth(Down(total), 0))
    {
      var blk, i := base, 0;
      while i < total
        invariant i <= total && blk == base + l.Off(i)
        invariant FreeHeld(l, mem[..], Down(i)) && freeList == l.Ptr(Nth(Down(i), 0))
      {
        ghost var m := mem[..];
        if i > 0 {
          BlockInside(l, i - 1, mem.Length);
        }
        StoreLink(blk, freeList, i, Nth(Down(i), 0));
        LinkOneMore(l, m, mem[..], i);
        freeList := blk;
        blk := blk + blockSize;
        i := i + 1;
      }
    }

    /** `*(void **)(base + o) = w`. */
    method StoreWord(o: nat, w: nat)
      requires o + 4 <= mem.Length && w < 0x1_0000_0000
      modifies mem
      ensures Word(mem[..], o) == w
      ensures forall i :: 0 <= i < mem.Length && !(o <= i < o + 4) ==> mem[i] == old(mem[i])
    {
      var b := WordBytes(w);
      mem[o] := b[0];
      mem[o + 1] := b[1];
      mem[o + 2] := b[2];
      mem[o + 3] := b[3];
      assert mem[..][o..o + 4] == b;
      WordRoundTrip(mem[..], o, w);
    }

    /** The pointer at the start of block `b`. */
    method StoreLink(blk: nat, w: nat, ghost b: nat, ghost next: Option<nat>)
      requires l.Fits(mem.Length) && l.base == base && b < l.n && blk == l.Ptr(Some(b)) && w == l.Ptr(next) < 0x1_0000_0000
      modifies mem
      ensures OnlyBlock(l, old(mem[..]), mem[..], b) && LinkHeld(l, mem[..], b, next)
    {
      BlockInside(l, b, mem.Length);
      ghost var m := mem[..];
      StoreWord(blk - base, w);
      LinkStored(l, m, mem[..], b, next);
    }

    method LoadWord(o: nat) returns (w: nat)
      requires o + 4 <= mem.Length
      ensures w == Word(mem[..], o)
    {
      w := (mem[o] as int) + 0x100 * (mem[o + 1] as int) + 0x1_0000 * (mem[o + 2] as int) + 0x100_0000 * (mem[o + 3] as int);
    }

    /** The critical section of `vk_mem_alloc`: the first free block, or NULL when there is none. */
    method Pop() returns (r: nat)
      requires Valid()
      modifies this`freeList, this`used, this`p
      ensures Valid() && p == Next(old(p), Step.Pop) && mem[..] == old(mem[..])
      ensures r == l.Ptr(Nth(old(p.free), 0))
      ensures r == 0 <==> |old(p.zeroing)| + |old(p.data)| == total
    {
      EmptyIffAllOut(p);
      if freeList == 0 {
        return 0;
      }
      r := freeList;
      TakeHead();
    }

    method TakeHead()
      requires Valid() && p.free != []
      modifies this`freeList, this`used, this`p
      ensures Valid() && p == Next(old(p), Step.Pop)
    {
      ghost var m := mem[..];
      PopHeld(l, m, freeList, p);
      SizeWith(p.zeroing, p.free[0], 0);
      assert freeList - base == l.Off(p.free[0]);
      freeList := LoadWord(freeList - base);
      used := used + 1;
      p := Next(p, Step.Pop);
      assert mem[..] == m;
    }

    /** One round of the zeroing loop, which runs outside the critical section. */
    method ZeroByte(blk: nat, i: nat, ghost b: nat)
      requires Valid() && b in p.zeroing && blk == l.Ptr(Some(b)) && p.zeroing[b] == i < p.bs
      modifies this`p, mem
      ensures Valid() && p == Next(old(p), Zero(b, i))
    {
      ghost var m := mem[..];
      ZeroData(l, m, b, i);
      ZeroHeld(l, m, m[l.Off(b) + i := 0], freeList, p, b);
      SizeWith(p.zeroing, b, i + 1);
      mem[blk - base + i] := 0;
      p := Next(p, Zero(b, i));
      assert mem[..] == m[l.Off(b) + i := 0];
    }

    /** The holder of block `b` writes a byte of it. */
    method Put(blk: nat, i: nat, v: byte, ghost b: nat)
      requires Valid() && b in p.data && blk == l.Ptr(Some(b)) && i < p.bs
      modifies this`p, mem
      ensures Valid() && p == Next(old(p), Step.Put(b, i, v))
    {
      ghost var m := mem[..];
      PutData(l, m, b, p.data[b], i, v);
      PutHeld(l, m, m[l.Off(b) + i := v], freeList, p, b, i, v);
      SizeWith(p.data, b, SetByte(p.data[b], i, v));
      mem[blk - base + i] := v;
      assert mem[..] == m[l.Off(b) + i := v];
      p := Next(p, Step.Put(b, i, v));
    }

    /** `vk_mem_free` of the block at `ptr`, or of NULL. */
    method Free(ptr: nat, ghost b: nat)
      requires Valid() && (ptr != 0 ==> b in p.data && ptr == l.Ptr(Some(b)))
      modifies this`freeList, this`used, this`p, mem
      ensures Valid() && p == if ptr == 0 then old(p) else Next(old(p), Push(b))
    {
      if ptr != 0 {
        PutBack(ptr, b);
      }
    }

    method PutBack(ptr: nat, ghost b: nat)
      requires Valid() && b in p.data && ptr == l.Ptr(Some(b))
      modifies this`freeList, this`used, this`p, mem
      ensures Valid() && p == Next(old(p), Push(b))
    {
      hide FreeHeld, ZerosHeld, DataHeld, LinkHeld, OnlyBlock;
      ghost var m := mem[..];
      HeadFits(l, m, freeList, p);
      StoreLink(ptr, freeList, b, Nth(p.free, 0));
      PushHeld(l, m, mem[..], freeList, p, b);
      SizeWithout(p.data, b);
      freeList := ptr;
      used := used - 1;
      p := Next(p, Push(b));
    }

    /** `vk_mem_alloc` left alone between its steps. */
    method Alloc() returns (r: nat)
      requires Valid()
      modifies this`freeList, this`used, this`p, mem
      ensures Valid() && r == l.Ptr(Nth(old(p.free), 0))
      ensures r == 0 ==> p == old(p)
      ensures r != 0 ==>
        p == Next(old(p), Step.Pop).(zeroing := old(p.zeroing), data := old(p.data)[old(p.free[0]) := Zeros(p.bs)])
      ensures r != 0 ==> base <= r && r - base + blockSize <= mem.Length
      ensures r != 0 ==> forall i :: r - base <= i < r - base + blockSize ==> mem[i] == 0
    {
      hide FreeHeld, ZerosHeld, DataHeld, LinkHeld;
      ghost var p0 := p;
      r := Pop();
      if r != 0 {
        ghost var b := p0.free[0];
        Clear(r, b);
        assert p.zeroing - {b} == p0.zeroing;
        Return(b);
        ZerosThere(l, mem[..], freeList, p, b);
      }
    }

    /** The zeroing loop. */
    method Clear(blk: nat, ghost b: nat)
      requires Valid() && b in p.zeroing && p.zeroing[b] == 0 && blk == l.Ptr(Some(b))
      modifies this`p, mem
      ensures Valid() && p == old(p).(zeroing := old(p.zeroing)[b := p.bs])
    {
      var i := 0;
      while i < blockSize
        invariant Valid() && i <= p.bs && p == old(p).(zeroing := old(p.zeroing)[b := i])
      {
        ZeroByte(blk, i, b);
        i := i + 1;
      }
    }

    /** The end of `vk_mem_alloc`: the block is all zeros and goes to the caller. */
    method Return(ghost b: nat)
      requires Valid() && Enabled(p, Step.Return(b))
      modifies this`p
      ensures Valid() && p == Next(old(p), Step.Return(b))
    {
      ReturnHeld(l, mem[..], freeList, p, b);
      SizeWithout(p.zeroing, b);
      SizeWith(p.data, b, Zeros(p.bs));
      p := Next(p, Step.Return(b));
    }

    /** Any interleaving of allocations, zeroing loops, frees and writes of the holders. */
    method Perform(ss: seq<Step>)
      requires Valid() && CanRun(p, ss)
      modifies this`freeList, this`used, this`p, mem
      ensures Valid() && p == Run(old(p), ss)
      decreases |ss|
    {
      if ss != [] {
        One(ss[0]);
        Perform(ss[1..]);
      }
    }

    method One(s: Step)
      requires Valid() && Enabled(p, s)
      modifies this`freeList, this`used, this`p, mem
      ensures Valid() && p == Next(old(p), s)
    {
      match s
      case Pop => var r := Pop();
      case Zero(b, i) =>
        OffIs(l, b);
        ZeroByte(base + b * blockSize, i, b);
      case Return(b) => Return(b);
      case Put(b, i, v) =>
        OffIs(l, b);
        Put(base + b * blockSize, i, v, b);
      case Push(b) =>
        OffIs(l, b);
        Free(base + b * blockSize, b);
    }

    /** `vk_mem_avail`: the length of the free list. */
    method Avail() returns (n: nat)
      requires Valid()
      ensures n == |p.free|
    {
      n := total - used;
    }
  }
}
