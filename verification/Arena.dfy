/** The bump allocator of kernel/vulcan_mem.c. */
module Arena {
  import opened Bits
  import opened Words

  /** A region handed out: its address, its length and the exponent of its alignment. */
  datatype Region = Region(start: nat, len: nat, k: nat)

  /** The allocator's state as a value; `regions` are those handed out since the last reset. */
  datatype Book = Book(base: nat, capacity: nat, ptr: nat, peak: nat, regions: seq<Region>)
  {
    /** Used bytes. */
    function Used(): int { ptr - base }

    /** The end of the buffer. */
    function End(): nat { base + capacity }

    /** A buffer that ends before the end of the address space, and a pointer into it. */
    ghost predicate Shaped() {
      0 < base <= ptr <= base + capacity < WORD
    }

    /** What the arena promises about the regions and the peak. */
    ghost predicate Inv() {
      && Shaped() && Used() <= peak <= capacity
      && (forall i :: 0 <= i < |regions| ==>
            && base <= regions[i].start && regions[i].start + regions[i].len <= ptr
            && Multiple(regions[i].start, Pow2(regions[i].k)))
      && (forall i, j :: 0 <= i < j < |regions| ==> regions[i].start + regions[i].len <= regions[j].start)
    }
  }

  /** The aligned request fits in what is left. */
  predicate Fits(b: Book, bytes: u32, k: nat) {
    RoundUp(b.ptr, k) + bytes <= b.End()
  }

  /** `padding + bytes`, a 32-bit sum, wraps to something that is left: the guard of the code fails to see that. */
  predicate Wraps(b: Book, bytes: u32, k: nat)
    requires b.Shaped()
  {
    var need := RoundUp(b.ptr, k) - b.ptr + bytes;
    need >= WORD && need - WORD <= b.capacity - b.Used()
  }

  /** The test of `vk_arena_alloc`, in 32-bit arithmetic. */
  predicate Accepts(b: Book, bytes: u32, k: nat)
    requires b.Shaped() && k < 32
  {
    Pow2Word(k);
    var padding := Sub32(MaskUp(b.ptr, Pow2(k)), b.ptr);
    Add32(padding, bytes) <= Sub32(b.capacity, Sub32(b.ptr, b.base))
  }

  /** The test accepts exactly the requests that fit and those whose size wraps; it is right unless it wraps. */
  lemma AcceptsExactly(b: Book, bytes: u32, k: nat)
    requires b.Shaped() && k < 32
    ensures Accepts(b, bytes, k) <==> Fits(b, bytes, k) || Wraps(b, bytes, k)
    ensures !(Fits(b, bytes, k) && Wraps(b, bytes, k))
  {
    MaskUpIs(b.ptr, k);
  }

  /** Such a request: with one byte of padding the sum of 1 and 2^32 - 1 is 0, and 15 bytes are left. */
  lemma WrapAccepted()
    ensures var b := Book(0x1000, 16, 0x1001, 1, []);
      b.Shaped() && Accepts(b, 0xFFFF_FFFF, 1) && !Fits(b, 0xFFFF_FFFF, 1)
  {
    var b := Book(0x1000, 16, 0x1001, 1, []);
    assert RoundUp(b.ptr, 1) == 0x1002;
    AcceptsExactly(b, 0xFFFF_FFFF, 1);
  }

  /** The exponent of a power of two that is a uint32. */
  type Shift = k: nat | k < 32

  datatype Op = Alloc(bytes: u32, k: Shift) | Reset

  /** An accepted request, in the code's arithmetic. */
  function Served(b: Book, bytes: u32, k: Shift): (r: Book)
    requires b.Shaped() && Accepts(b, bytes, k)
    ensures r.Shaped() && r.base == b.base && r.capacity == b.capacity
    ensures r.ptr == if Wraps(b, bytes, k) then RoundUp(b.ptr, k) + bytes - WORD else RoundUp(b.ptr, k) + bytes
  {
    AcceptsExactly(b, bytes, k);
    MaskUpIs(b.ptr, k);
    var a := MaskUp(b.ptr, Pow2(k));
    var p := Add32(a, bytes);
    var used := Sub32(p, b.base);
    b.(ptr := p, peak := if used > b.peak then used else b.peak, regions := b.regions + [Region(a, bytes, k)])
  }

  /** What an allocation or a reset does. */
  function Next(b: Book, op: Op): (r: Book)
    requires b.Shaped()
    ensures r.Shaped()
  {
    match op
    case Alloc(bytes, k) => if Accepts(b, bytes, k) then Served(b, bytes, k) else b
    case Reset => b.(ptr := b.base, regions := [])
  }

  function Run(b: Book, ops: seq<Op>): (r: Book)
    requires b.Shaped()
    ensures r.Shaped()
    decreases |ops|
  {
    if ops == [] then b else Run(Next(b, ops[0]), ops[1..])
  }

  predicate OpWraps(b: Book, op: Op)
    requires b.Shaped()
  {
    op.Alloc? && Wraps(b, op.bytes, op.k)
  }

  /** An operation keeps the promises exactly when it is no allocation whose size wraps. */
  lemma NextInv(b: Book, op: Op)
    requires b.Inv()
    ensures Next(b, op).Inv() <==> !OpWraps(b, op)
  {
    if op.Alloc? {
      AcceptsExactly(b, op.bytes, op.k);
      MaskUpIs(b.ptr, op.k);
      RoundUpIs(b.ptr, op.k);
      if OpWraps(b, op) {
        WrapBreaks(b, op.bytes, op.k);
      }
    }
  }

  /** The region of a request whose size wraps ends behind the pointer. */
  lemma WrapBreaks(b: Book, bytes: u32, k: Shift)
    requires b.Inv() && Accepts(b, bytes, k) && Wraps(b, bytes, k)
    ensures !Served(b, bytes, k).Inv()
  {
    MaskUpIs(b.ptr, k);
    var r := Served(b, bytes, k);
    var g := r.regions[|b.regions|];
    assert g == Region(MaskUp(b.ptr, Pow2(k)), bytes, k);
  }

  /** The promises hold in `b` and after every operation of the run. */
  ghost predicate InvThroughout(b: Book, ops: seq<Op>)
    requires b.Shaped()
    decreases |ops|
  {
    b.Inv() && (ops == [] || InvThroughout(Next(b, ops[0]), ops[1..]))
  }

  /** No allocation of the run has a size that wraps. */
  predicate NeverWraps(b: Book, ops: seq<Op>)
    requires b.Shaped()
    decreases |ops|
  {
    ops == [] || (!OpWraps(b, ops[0]) && NeverWraps(Next(b, ops[0]), ops[1..]))
  }

  /** After a reset the whole buffer is free: a request of any size up to its capacity is served at its start. */
  lemma ResetFreesAll(b: Book, bytes: u32)
    requires b.Shaped() && bytes <= b.capacity
    ensures var r := Next(b, Op.Reset);
      && r.Used() == 0 && r.regions == [] && r.peak == b.peak
      && Fits(r, bytes, 0) && !Wraps(r, bytes, 0)
      && Next(r, Op.Alloc(bytes, 0)).regions == [Region(b.base, bytes, 0)]
  {
    var r := Next(b, Op.Reset);
    assert Pow2(0) == 1 && Low(r.ptr, 0) == 0;
    AcceptsExactly(r, bytes, 0);
    MaskUpIs(r.ptr, 0);
  }

  /** The largest number of bytes in use at any moment of a run. */
  function MostUsed(b: Book, ops: seq<Op>): (m: int)
    requires b.Shaped()
    decreases |ops|
  {
    if ops == [] then b.Used()
    else
      var m := MostUsed(Next(b, ops[0]), ops[1..]);
      if b.Used() > m then b.Used() else m
  }

  /**
   Over any sequence of allocations and resets the regions handed out since the
   last reset are always aligned, inside the buffer and pairwise disjoint iff no
   size wraps, and then `peak` is the larger of the old peak and the most bytes
   ever in use.
   */
  lemma {:induction false} RunInv(b: Book, ops: seq<Op>)
    requires b.Inv()
    ensures InvThroughout(b, ops) <==> NeverWraps(b, ops)
    ensures NeverWraps(b, ops) ==> Run(b, ops).Inv()
    ensures NeverWraps(b, ops) ==> Run(b, ops).peak == if MostUsed(b, ops) > b.peak then MostUsed(b, ops) else b.peak
    decreases |ops|
  {
    if ops != [] {
      NextInv(b, ops[0]);
      if !OpWraps(b, ops[0]) {
        NextPeak(b, ops[0]);
        RunInv(Next(b, ops[0]), ops[1..]);
      }
    }
  }

  lemma NextPeak(b: Book, op: Op)
    requires b.Inv() && !OpWraps(b, op)
    ensures var r := Next(b, op); r.peak == if r.Used() > b.peak then r.Used() else b.peak
  {
  }

  class Arena {
    const mem: array<byte>   // the buffer
    const base: nat          // its address
    var ptr: u32
    var capacity: u32
    var peak: u32
    ghost var regions: seq<Region>

    ghost function View(): Book
      reads this
    {
      Book(base, capacity, ptr, peak, regions)
    }

    ghost predicate Valid()
      reads this
    {
      View().Inv() && capacity == mem.Length
    }

    /** `vk_arena_init`, for a buffer at address `base`. */
    constructor (buf: array<byte>, base: nat)
      requires 0 < base && base + buf.Length < WORD
      ensures Valid() && View() == Book(base, buf.Length, base, 0, []) && mem == buf
    {
      mem := buf;
      this.base := base;
      ptr := base;
      capacity := buf.Length;
      peak := 0;
      regions := [];
    }

    /** `vk_arena_alloc` up to its zeroing loop; 0 is NULL.  A size that wraps is taken as the code takes it. */
    method Take(bytes: u32, align: u32, ghost k: Shift) returns (ok: bool, r: u32)
      requires View().Shaped() && align == Pow2(k)
      modifies this`ptr, this`peak, this`regions
      ensures View() == Next(old(View()), Op.Alloc(bytes, k))
      ensures ok == (Fits(old(View()), bytes, k) || Wraps(old(View()), bytes, k))
      ensures r == if ok then MaskUp(old(ptr), align) else 0
    {
      AcceptsExactly(View(), bytes, k);
      var cur := ptr;
      var aligned := MaskUp(cur, align);
      var padding := Sub32(aligned, cur);
      if Add32(padding, bytes) > Sub32(capacity, Sub32(ptr, base)) {
        return false, 0;
      }
      ptr := Add32(aligned, bytes);
      var used := Sub32(ptr, base);
      if used > peak {
        peak := used;
      }
      regions := regions + [Region(aligned, bytes, k)];
      return true, aligned;
    }

    /** `vk_arena_alloc` of a size that does not wrap; 0 is NULL. */
    method Alloc(bytes: u32, align: u32, ghost k: Shift) returns (r: u32)
      requires Valid() && align == Pow2(k) && !Wraps(View(), bytes, k)
      modifies this`ptr, this`peak, this`regions, mem
      ensures Valid() && View() == Next(old(View()), Op.Alloc(bytes, k))
      ensures r == 0 <==> !Fits(old(View()), bytes, k)
      ensures r == 0 ==> View() == old(View()) && mem[..] == old(mem[..])
      ensures r != 0 ==> ptr == r + bytes && peak == (if ptr - base > old(peak) then ptr - base else old(peak))
      ensures r != 0 ==> r == RoundUp(old(ptr), k) && LeastMultiple(r, old(ptr), align) && Zeroed(r - base, bytes)
      ensures r != 0 ==> forall i :: 0 <= i < mem.Length && !(r - base <= i < r - base + bytes) ==> mem[i] == old(mem[i])
    {
      MaskUpIs(ptr, k);
      RoundUpIs(ptr, k);
      NextInv(View(), Op.Alloc(bytes, k));
      var ok;
      ok, r := Take(bytes, align, k);
      if ok {
        Clear(r - base, bytes);
      }
    }

    /** Any sequence of allocations and resets in which no size wraps. */
    method Perform(ops: seq<Op>)
      requires Valid() && NeverWraps(View(), ops)
      modifies this`ptr, this`peak, this`regions, mem
      ensures Valid() && View() == Run(old(View()), ops)
      decreases |ops|
    {
      if ops != [] {
        match ops[0] {
          case Alloc(bytes, k) =>
            Pow2Word(k);
            var r := Alloc(bytes, Pow2(k), k);
          case Reset => Reset();
        }
        Perform(ops[1..]);
      }
    }

    ghost predicate Zeroed(lo: int, n: nat)
      requires 0 <= lo && lo + n <= mem.Length
      reads mem
    {
      forall i :: lo <= i < lo + n ==> mem[i] == 0
    }

    /** The zeroing loop. */
    method Clear(lo: nat, n: nat)
      requires lo + n <= mem.Length
      modifies mem
      ensures Zeroed(lo, n)
      ensures forall i :: 0 <= i < mem.Length && !(lo <= i < lo + n) ==> mem[i] == old(mem[i])
    {
      var i := 0;
      while i < n
        invariant 0 <= i <= n && Zeroed(lo, i)
        invariant forall j :: 0 <= j < mem.Length && !(lo <= j < lo + n) ==> mem[j] == old(mem[j])
      {
        mem[lo + i] := 0;
        i := i + 1;
      }
    }

    /** `vk_arena_reset`: everything is free again, the peak stays. */
    method Reset()
      requires Valid()
      modifies this`ptr, this`regions
      ensures Valid() && View() == Next(old(View()), Op.Reset)
      ensures ptr == base && View().Used() == 0 && peak == old(peak) && mem[..] == old(mem[..])
    {
      NextInv(View(), Op.Reset);
      ptr := base;
      regions := [];
    }

    /** `vk_arena_used`. */
    method Used() returns (n: u32)
      requires Valid()
      ensures n == ptr - base == View().Used() <= capacity
    {
      n := Sub32(ptr, base);
    }
  }
}
