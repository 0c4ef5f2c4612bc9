/** 32-bit arithmetic as the allocators use it: masks, wrap-around, and rounding up to a power of two. */
module Bits {
  import opened Words

  /** `~a`. */
  function Not(a: u32): (r: u32) {
    WORD - 1 - a
  }

  /** `a & b`, bit by bit. */
  function And(a: nat, b: nat): (r: nat)
    ensures r <= a && r <= b
  {
    if a == 0 || b == 0 then 0
    else 2 * And(a / 2, b / 2) + (if a % 2 == 1 && b % 2 == 1 then 1 else 0)
  }

  function Pow2(k: nat): (p: nat)
    ensures p > 0
  {
    if k == 0 then 1 else 2 * Pow2(k - 1)
  }

  /** The number that the low `k` bits of `a` spell. */
  function Low(a: nat, k: nat): (r: nat)
    ensures r <= a && r < Pow2(k)
  {
    if k == 0 then 0 else 2 * Low(a / 2, k - 1) + a % 2
  }

  /** `a >> k`. */
  function High(a: nat, k: nat): (r: nat) {
    if k == 0 then a else High(a / 2, k - 1)
  }

  lemma MulDouble(h: nat, p: nat)
    ensures h * (2 * p) == 2 * (h * p) && (2 * h) * p == 2 * (h * p)
  {
  }

  lemma {:induction false} Split(a: nat, k: nat)
    ensures a == High(a, k) * Pow2(k) + Low(a, k)
    decreases k
  {
    if k > 0 {
      Split(a / 2, k - 1);
      MulDouble(High(a, k), Pow2(k - 1));
    }
  }

  lemma {:induction false} LowAll(a: nat, k: nat)
    requires a < Pow2(k)
    ensures Low(a, k) == a
    decreases k
  {
    if k > 0 {
      LowAll(a / 2, k - 1);
    }
  }

  lemma {:induction false} AndAll(a: nat, w: nat)
    requires a < Pow2(w)
    ensures And(a, Pow2(w) - 1) == a
    decreases w
  {
    if w > 0 {
      AndAll(a / 2, w - 1);
      assert (Pow2(w) - 1) / 2 == Pow2(w - 1) - 1;
    }
  }

  lemma {:induction false} Pow2Grows(k: nat, w: nat)
    requires k <= w
    ensures Pow2(k) <= Pow2(w)
    decreases w
  {
    if k < w {
      Pow2Grows(k, w - 1);
    }
  }

  lemma {:induction false} Pow2Product(a: nat, b: nat)
    ensures Pow2(a + b) == Pow2(a) * Pow2(b)
    decreases a
  {
    if a > 0 {
      Pow2Product(a - 1, b);
      MulDouble(Pow2(a - 1), Pow2(b));
    }
  }

  lemma AndEven(a: nat, b: nat)
    ensures And(a, 2 * b) == 2 * And(a / 2, b)
  {
    assert (2 * b) / 2 == b && (2 * b) % 2 == 0;
  }

  /** A mask of ones above `k` zeros clears the low `k` bits. */
  lemma {:induction false} AndClears(a: nat, k: nat, w: nat)
    requires k <= w && a < Pow2(w)
    ensures Pow2(k) <= Pow2(w)
    ensures And(a, Pow2(w) - Pow2(k)) == a - Low(a, k)
    decreases w
  {
    hide And;
    Pow2Grows(k, w);
    if k == w {
      LowAll(a, k);
    } else if k == 0 {
      AndAll(a, w);
    } else {
      AndClears(a / 2, k - 1, w - 1);
      AndEven(a, Pow2(w - 1) - Pow2(k - 1));
    }
  }

  /** `(x + align - 1) & ~(align - 1)`, in 32 bits. */
  function MaskUp(x: u32, align: u32): (r: u32)
    requires align > 0
  {
    And(Add32(x, align - 1), Not(align - 1))
  }

  ghost predicate Multiple(r: nat, align: nat) {
    exists q: nat :: r == q * align
  }

  /** `r` is the least multiple of `align` that is not below `x`. */
  ghost predicate LeastMultiple(r: nat, x: nat, align: nat) {
    Multiple(r, align) && x <= r < x + align
  }

  lemma Pow2Word(k: nat)
    requires k <= 32
    ensures Pow2(32) == WORD && Pow2(k) <= WORD && (k < 32 ==> Pow2(k) < WORD)
    ensures Multiple(WORD, Pow2(k))
  {
    assert Pow2(8) == 256;
    Pow2Product(8, 8);
    Pow2Product(16, 16);
    Pow2Grows(k, 32);
    if k < 32 {
      Pow2Grows(k, 31);
    }
    Pow2Product(32 - k, k);
  }

  /**
   For a power of two the mask form is the least multiple not below `x`; when
   that is 2^32 the form yields its 32-bit value, 0.
   */
  lemma MaskUpRounds(x: u32, k: nat)
    requires k < 32
    ensures 0 < Pow2(k) < WORD
    ensures x + Pow2(k) - 1 < WORD ==> LeastMultiple(MaskUp(x, Pow2(k)), x, Pow2(k))
    ensures x + Pow2(k) - 1 >= WORD ==> MaskUp(x, Pow2(k)) == 0 && LeastMultiple(WORD, x, Pow2(k))
  {
    hide Pow2, And, Low;
    Pow2Word(k);
    var t := Add32(x, Pow2(k) - 1);
    AndClears(t, k, 32);
    assert MaskUp(x, Pow2(k)) == t - Low(t, k);
    if x + Pow2(k) - 1 < WORD {
      HighMultiple(t, k);
    } else {
      LowAll(t, k);
    }
  }

  lemma HighMultiple(t: nat, k: nat)
    ensures Multiple(t - Low(t, k), Pow2(k))
  {
    Split(t, k);
    assert t - Low(t, k) == High(t, k) * Pow2(k);
  }

  /** There is only one least multiple. */
  lemma LeastMultipleUnique(r: nat, s: nat, x: nat, align: nat)
    requires LeastMultiple(r, x, align) && LeastMultiple(s, x, align)
    ensures r == s
  {
    var p: nat :| r == p * align;
    var q: nat :| s == q * align;
    if p < q {
      MulGrows(p + 1, q, align);
    } else if q < p {
      MulGrows(q + 1, p, align);
    }
  }

  /** `x` rounded up to a multiple of 2^k, in unbounded arithmetic. */
  function RoundUp(x: nat, k: nat): (r: nat)
    ensures x <= r < x + Pow2(k)
  {
    if Low(x, k) == 0 then x else x - Low(x, k) + Pow2(k)
  }

  lemma RoundUpIs(x: nat, k: nat)
    ensures LeastMultiple(RoundUp(x, k), x, Pow2(k))
  {
    HighMultiple(x, k);
    NextMultiple(x - Low(x, k), Pow2(k));
  }

  lemma NextMultiple(r: nat, p: nat)
    requires Multiple(r, p)
    ensures Multiple(r + p, p)
  {
    var q: nat :| r == q * p;
    assert (q + 1) * p == r + p;
  }

  /** The mask form computes RoundUp modulo 2^32. */
  lemma MaskUpIs(x: u32, k: nat)
    requires k < 32
    ensures 0 < Pow2(k) < WORD && RoundUp(x, k) <= WORD
    ensures MaskUp(x, Pow2(k)) == if RoundUp(x, k) < WORD then RoundUp(x, k) else 0
  {
    MaskUpRounds(x, k);
    RoundUpIs(x, k);
    LeastMultipleUnique(RoundUp(x, k), if x + Pow2(k) - 1 < WORD then MaskUp(x, Pow2(k)) else WORD, x, Pow2(k));
  }
}
