/**
 * The machine integer ranges the source's types fix, and two facts of
 * arithmetic the proofs about them share.
 */
module Numeric {

  const U32_LIMIT: int := 0x1_0000_0000

  /** `usize` on a 64-bit target. */
  const USIZE_LIMIT: int := 0x1_0000_0000_0000_0000

  /** Rust `u32`. */
  type Uint32 = x: int | 0 <= x < U32_LIMIT

  /** Rust `i8`. */
  type Int8 = x: int | -128 <= x < 128

  /** Rust `u8`. */
  type Byte = x: int | 0 <= x < 256

  /** A value already in the `u32` range is unchanged by the wrap-around. */
  lemma U32Unchanged(a: nat)
    requires a < U32_LIMIT
    ensures a % U32_LIMIT == a
  {
  }

  /** Multiplying by a positive whole number never makes a natural number smaller. */
  lemma {:induction false} MulAtLeast(n: nat, d: int)
    requires d >= 1
    ensures n * d >= n
    decreases d
  {
    if d > 1 {
      MulAtLeast(n, d - 1);
      assert n * d == n * (d - 1) + n;
    }
  }
}
