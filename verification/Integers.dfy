/**
 Go's 64-bit two's-complement integers.
 */
module Integers {
  const MIN64: int := -0x8000_0000_0000_0000
  const MAX64: int := 0x7FFF_FFFF_FFFF_FFFF

  type Int64 = x: int | MIN64 <= x <= MAX64

  /** The 64-bit value that an exact result wraps to. */
  function Wrap(x: int): Int64 {
    (x - MIN64) % 0x1_0000_0000_0000_0000 + MIN64
  }

  /** Go's division truncates toward zero. */
  function TruncatedDiv(a: int, b: int): int
    requires b > 0
  {
    if a >= 0 then a / b else -((-a) / b)
  }

  /** A sum that is not too small keeps its value, or wraps once. */
  lemma WrapOnce(x: int)
    requires MIN64 <= x <= 2 * MAX64
    ensures Wrap(x) == if x <= MAX64 then x else x - 0x1_0000_0000_0000_0000
  {
  }
}
