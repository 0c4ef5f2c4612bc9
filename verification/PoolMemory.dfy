/** The pool's storage: bytes, the pointers kept in free blocks, and the data kept in live ones. */
module PoolMemory {
  import opened Basics
  import opened PoolSpec
  import opened Words

  /** `n` blocks of `bs` bytes from address `base`. */
  datatype Layout = Layout(base: nat, bs: nat, n: nat)
  {
    /** Word-aligned blocks of a word or more, inside `len` bytes of the address space. */
    ghost predicate Fits(len: nat) {
      && 0 < base && base % 4 == 0 && base + len <= 0x1_0000_0000
      && (n > 0 ==> bs >= 4 && bs % 4 == 0) && Off(n) <= len
    }

    /** Where block `b` starts in the storage. */
    function Off(b: nat): nat {
      if b == 0 then 0 else Off(b - 1) + bs
    }

    /** Block number as pointer; NULL is 0. */
    function Ptr(b: Option<nat>): nat {
      if b.None? then 0 else base + Off(b.value)
    }
  }

  lemma BlockInside(l: Layout, b: nat, len: nat)
    requires l.Fits(len) && b < l.n
    ensures l.Off(b) + l.bs <= len
  {
    BlocksApart(l, b, l.n);
  }

  /** Different blocks do not overlap. */
  lemma {:induction false} BlocksApart(l: Layout, a: nat, b: nat)
    requires a < b
    ensures l.Off(a) + l.bs <= l.Off(b)
    decreases b
  {
    if a < b - 1 {
      BlocksApart(l, a, b - 1);
    }
  }

  lemma {:induction false} OffIs(l: Layout, b: nat)
    ensures l.Off(b) == b * l.bs
    decreases b
  {
    if b > 0 {
      OffIs(l, b - 1);
      assert b * l.bs == (b - 1) * l.bs + l.bs;
    }
  }

  // ---- Words

  /** The little-endian word at offset `o`. */
  function Word(m: seq<byte>, o: nat): (w: nat)
    requires o + 4 <= |m|
  {
    (m[o] as int) + 0x100 * (m[o + 1] as int) + 0x1_0000 * (m[o + 2] as int) + 0x100_0000 * (m[o + 3] as int)
  }

  function WordBytes(w: nat): (b: seq<byte>)
    requires w < 0x1_0000_0000
    ensures |b| == 4
  {
    [w % 0x100, w / 0x100 % 0x100, w / 0x100 / 0x100 % 0x100, w / 0x100 / 0x100 / 0x100]
  }

  lemma WordBytesSum(w: nat)
    requires w < 0x1_0000_0000
    ensures var b := WordBytes(w);
      w == (b[0] as int) + 0x100 * (b[1] as int) + 0x1_0000 * (b[2] as int) + 0x100_0000 * (b[3] as int)
  {
    var x := w / 0x100;
    var y := x / 0x100;
    assert w == 0x100 * x + w % 0x100 && x == 0x100 * y + x % 0x100 && y == 0x100 * (y / 0x100) + y % 0x100;
  }

  /** Storing a word and loading it gives the word back. */
  lemma WordRoundTrip(m: seq<byte>, o: nat, w: nat)
    requires o + 4 <= |m| && w < 0x1_0000_0000
    requires m[o..o + 4] == WordBytes(w)
    ensures Word(m, o) == w
  {
    WordBytesSum(w);
    hide WordBytes;
    var b := m[o..o + 4];
    assert m[o] == b[0] && m[o + 1] == b[1] && m[o + 2] == b[2] && m[o + 3] == b[3];
  }

  // ---- What the storage holds

  /** Every free block starts with the pointer to the next one. */
  ghost predicate FreeHeld(l: Layout, m: seq<byte>, free: seq<nat>)
    requires l.Fits(|m|) && Bounded(free, l.n)
  {
    forall i {:trigger FreeLink(l, m, free, i)} :: 0 <= i < |free| ==> FreeLink(l, m, free, i)
  }

  ghost predicate FreeLink(l: Layout, m: seq<byte>, free: seq<nat>, i: nat)
    requires l.Fits(|m|) && Bounded(free, l.n) && i < |free|
  {
    LinkHeld(l, m, free[i], Nth(free, i + 1))
  }

  ghost predicate LinkHeld(l: Layout, m: seq<byte>, b: nat, next: Option<nat>)
    requires l.Fits(|m|) && b < l.n
  {
    BlockInside(l, b, |m|);
    Word(m, l.Off(b)) == l.Ptr(next)
  }

  /** The first `k` bytes of block `b` are zero. */
  ghost predicate ZerosHeld(l: Layout, m: seq<byte>, b: nat, k: nat)
    requires l.Fits(|m|) && b < l.n && k <= l.bs
  {
    BlockInside(l, b, |m|);
    forall i :: l.Off(b) <= i < l.Off(b) + k ==> m[i] == 0
  }

  ghost predicate DataHeld(l: Layout, m: seq<byte>, b: nat, d: seq<byte>)
    requires l.Fits(|m|) && b < l.n
  {
    BlockInside(l, b, |m|);
    m[l.Off(b)..l.Off(b) + l.bs] == d
  }

  /** The storage and the free-list head hold `p`. */
  ghost predicate Held(l: Layout, m: seq<byte>, head: nat, p: Pool) {
    && l.Fits(|m|) && p.Inv() && p.bs == l.bs && p.n == l.n
    && head == l.Ptr(Nth(p.free, 0))
    && FreeHeld(l, m, p.free)
    && (forall b :: b in p.zeroing ==> ZerosHeld(l, m, b, p.zeroing[b]))
    && (forall b :: b in p.data ==> DataHeld(l, m, b, p.data[b]))
  }

  /** From `m` to `r` only bytes of block `b` change. */
  ghost predicate OnlyBlock(l: Layout, m: seq<byte>, r: seq<byte>, b: nat) {
    |r| == |m| && forall i :: 0 <= i < |m| && !(l.Off(b) <= i < l.Off(b) + l.bs) ==> r[i] == m[i]
  }

  /** A write inside one block leaves what any other block holds. */
  lemma OtherBlock(l: Layout, m: seq<byte>, r: seq<byte>, b: nat, x: nat)
    requires l.Fits(|m|) && b < l.n && x < l.n && x != b && OnlyBlock(l, m, r, b)
    ensures forall next :: LinkHeld(l, m, x, next) ==> LinkHeld(l, r, x, next)
    ensures forall k: nat :: k <= l.bs && ZerosHeld(l, m, x, k) ==> ZerosHeld(l, r, x, k)
    ensures forall d :: DataHeld(l, m, x, d) ==> DataHeld(l, r, x, d)
  {
    BlockInside(l, x, |m|);
    if x < b {
      BlocksApart(l, x, b);
    } else {
      BlocksApart(l, b, x);
    }
    assert forall i :: l.Off(x) <= i < l.Off(x) + l.bs ==> r[i] == m[i];
    assert r[l.Off(x)..l.Off(x) + l.bs] == m[l.Off(x)..l.Off(x) + l.bs];
    assert l.bs >= 4;
  }

  /** A write inside a block that is not free leaves the free list alone, whatever is written. */
  lemma FreeListSafe(l: Layout, m: seq<byte>, r: seq<byte>, b: nat, free: seq<nat>)
    requires l.Fits(|m|) && Bounded(free, l.n) && b < l.n && Absent(free, b) && OnlyBlock(l, m, r, b)
    requires FreeHeld(l, m, free)
    ensures FreeHeld(l, r, free)
  {
    forall i | 0 <= i < |free|
      ensures FreeLink(l, r, free, i)
    {
      assert FreeLink(l, m, free, i);
      OtherBlock(l, m, r, b, free[i]);
    }
  }

  /** A write inside block `b` leaves every other live block alone. */
  lemma LiveSafe(l: Layout, m: seq<byte>, r: seq<byte>, b: nat, p: Pool)
    requires l.Fits(|m|) && p.Inv() && p.bs == l.bs && p.n == l.n && b < l.n && OnlyBlock(l, m, r, b)
    requires forall x :: x in p.zeroing ==> ZerosHeld(l, m, x, p.zeroing[x])
    requires forall x :: x in p.data ==> DataHeld(l, m, x, p.data[x])
    ensures forall x :: x in p.zeroing && x != b ==> ZerosHeld(l, r, x, p.zeroing[x])
    ensures forall x :: x in p.data && x != b ==> DataHeld(l, r, x, p.data[x])
  {
    forall x | x in p.zeroing && x != b
      ensures ZerosHeld(l, r, x, p.zeroing[x])
    {
      OtherBlock(l, m, r, b, x);
    }
    forall x | x in p.data && x != b
      ensures DataHeld(l, r, x, p.data[x])
    {
      OtherBlock(l, m, r, b, x);
    }
  }

  // ---- What each step does to what is held

  /** The head of the free list is a 32-bit pointer. */
  lemma HeadFits(l: Layout, m: seq<byte>, head: nat, p: Pool)
    requires Held(l, m, head, p)
    ensures head < 0x1_0000_0000
  {
    if p.free != [] {
      BlockInside(l, p.free[0], |m|);
    }
  }

  lemma PopHeld(l: Layout, m: seq<byte>, head: nat, p: Pool)
    requires Held(l, m, head, p) && p.free != []
    ensures p.free[0] < l.n && l.Off(p.free[0]) + 4 <= |m|
    ensures Held(l, m, Word(m, l.Off(p.free[0])), Next(p, Pop))
  {
    var q := Next(p, Pop);
    BlockInside(l, p.free[0], |m|);
    PopInv(p);
    assert FreeLink(l, m, p.free, 0);
    forall i | 0 <= i < |q.free|
      ensures FreeLink(l, m, q.free, i)
    {
      assert FreeLink(l, m, p.free, i + 1);
    }
  }

  lemma ZeroHeld(l: Layout, m: seq<byte>, r: seq<byte>, head: nat, p: Pool, b: nat)
    requires Held(l, m, head, p) && b in p.zeroing && p.zeroing[b] < p.bs && OnlyBlock(l, m, r, b)
    requires ZerosHeld(l, r, b, p.zeroing[b] + 1)
    ensures Held(l, r, head, Next(p, Zero(b, p.zeroing[b])))
  {
    ZeroInv(p, b);
    FreeListSafe(l, m, r, b, p.free);
    LiveSafe(l, m, r, b, p);
  }

  lemma ZeroData(l: Layout, m: seq<byte>, b: nat, k: nat)
    requires l.Fits(|m|) && b < l.n && k < l.bs && ZerosHeld(l, m, b, k)
    ensures l.Off(b) + k < |m|
    ensures ZerosHeld(l, m[l.Off(b) + k := 0], b, k + 1) && OnlyBlock(l, m, m[l.Off(b) + k := 0], b)
  {
    BlockInside(l, b, |m|);
  }

  /** When the zeroing loop is done the block holds nothing but zeros, whatever happened meanwhile. */
  lemma ReturnHeld(l: Layout, m: seq<byte>, head: nat, p: Pool, b: nat)
    requires Held(l, m, head, p) && Enabled(p, Return(b))
    ensures Held(l, m, head, Next(p, Return(b)))
  {
    BlockInside(l, b, |m|);
    ReturnInv(p, b);
    assert ZerosHeld(l, m, b, p.zeroing[b]);
    assert DataHeld(l, m, b, Zeros(p.bs));
  }

  lemma ZerosThere(l: Layout, m: seq<byte>, head: nat, p: Pool, b: nat)
    requires Held(l, m, head, p) && b in p.data && p.data[b] == Zeros(p.bs)
    ensures l.Off(b) + l.bs <= |m| && forall i :: l.Off(b) <= i < l.Off(b) + l.bs ==> m[i] == 0
  {
    BlockInside(l, b, |m|);
    var d := m[l.Off(b)..l.Off(b) + l.bs];
    assert DataHeld(l, m, b, d);
    forall i | l.Off(b) <= i < l.Off(b) + l.bs
      ensures m[i] == 0
    {
      assert d[i - l.Off(b)] == 0;
    }
  }

  lemma PutHeld(l: Layout, m: seq<byte>, r: seq<byte>, head: nat, p: Pool, b: nat, i: nat, v: byte)
    requires Held(l, m, head, p) && Enabled(p, Put(b, i, v)) && OnlyBlock(l, m, r, b)
    requires DataHeld(l, r, b, SetByte(p.data[b], i, v))
    ensures Held(l, r, head, Next(p, Put(b, i, v)))
  {
    PutInv(p, b, i, v);
    FreeListSafe(l, m, r, b, p.free);
    LiveSafe(l, m, r, b, p);
  }

  lemma PutData(l: Layout, m: seq<byte>, b: nat, d: seq<byte>, i: nat, v: byte)
    requires l.Fits(|m|) && b < l.n && i < l.bs == |d| && DataHeld(l, m, b, d)
    ensures l.Off(b) + i < |m|
    ensures DataHeld(l, m[l.Off(b) + i := v], b, SetByte(d, i, v)) && OnlyBlock(l, m, m[l.Off(b) + i := v], b)
  {
    BlockInside(l, b, |m|);
    var o := l.Off(b);
    assert m[o + i := v][o..o + l.bs] == SetByte(m[o..o + l.bs], i, v);
  }

  /** Writing the word at the start of a block. */
  lemma LinkStored(l: Layout, m: seq<byte>, r: seq<byte>, b: nat, next: Option<nat>)
    requires l.Fits(|m|) && b < l.n && |r| == |m| && l.Off(b) + 4 <= |m|
    requires forall i :: 0 <= i < |m| && !(l.Off(b) <= i < l.Off(b) + 4) ==> r[i] == m[i]
    requires Word(r, l.Off(b)) == l.Ptr(next)
    ensures OnlyBlock(l, m, r, b) && LinkHeld(l, r, b, next)
  {
  }

  /** A block put in front of the free list. */
  lemma PushLinks(l: Layout, m: seq<byte>, free: seq<nat>, b: nat)
    requires l.Fits(|m|) && Bounded(free, l.n) && b < l.n && FreeHeld(l, m, free) && LinkHeld(l, m, b, Nth(free, 0))
    ensures Bounded([b] + free, l.n) && FreeHeld(l, m, [b] + free)
  {
    var q := [b] + free;
    forall i | 0 <= i < |q|
      ensures FreeLink(l, m, q, i)
    {
      if i > 0 {
        assert q[i] == free[i - 1] && Nth(q, i + 1) == Nth(free, i);
        assert FreeLink(l, m, free, i - 1);
      }
    }
  }

  lemma PushHeld(l: Layout, m: seq<byte>, r: seq<byte>, head: nat, p: Pool, b: nat)
    requires Held(l, m, head, p) && Enabled(p, Push(b)) && OnlyBlock(l, m, r, b)
    requires LinkHeld(l, r, b, Nth(p.free, 0))
    ensures Held(l, r, l.Ptr(Some(b)), Next(p, Push(b)))
  {
    PushInv(p, b);
    FreeListSafe(l, m, r, b, p.free);
    LiveSafe(l, m, r, b, p);
    PushLinks(l, r, p.free, b);
  }
}
