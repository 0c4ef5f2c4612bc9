/** Bytes and 32-bit words. */
module Words {
  const WORD := 0x1_0000_0000

  type byte = x: int | 0 <= x < 256

  type u32 = x: int | 0 <= x < 0x1_0000_0000

  /** Addition modulo 2^32. */
  function Add32(a: u32, b: u32): (r: u32) {
    if a + b < WORD then a + b else a + b - WORD
  }

  /** Subtraction modulo 2^32. */
  function Sub32(a: u32, b: u32): (r: u32) {
    if a >= b then a - b else a - b + WORD
  }

  lemma MulGrows(a: nat, b: nat, c: nat)
    requires a <= b
    ensures a * c <= b * c
  {
  }
}
