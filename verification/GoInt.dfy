// Go integer semantics that the services rely on: two's-complement int64
// arithmetic, truncating division, and left shift.
module GoInt {

  const MAX_INT64: int := 0x7FFF_FFFF_FFFF_FFFF
  const MAX_INT32: int := 0x7FFF_FFFF
  const TWO_63: int := 0x8000_0000_0000_0000
  const TWO_64: int := 0x1_0000_0000_0000_0000

  /** The int64 that an exact result x wraps to. */
  function Wrap64(x: int): (r: int)
    ensures -TWO_63 <= r < TWO_63
    ensures -TWO_63 <= x < TWO_63 ==> r == x
  {
    (x + TWO_63) % TWO_64 - TWO_63
  }

  /** Go's `/` truncates toward zero. */
  function Quo(a: int, b: int): (r: int)
    requires b > 0
    ensures a >= 0 ==> b * r <= a < b * r + b
    ensures a < 0 ==> r <= 0
  {
    if a >= 0 then a / b else -((-a) / b)
  }

  function Pow2(k: nat): (p: nat)
    ensures p >= 1
  {
    if k == 0 then 1 else 2 * Pow2(k - 1)
  }

  /** `x << k` on an int64; Go yields 0 once every bit is shifted out. */
  function Shl64(x: int, k: nat): int
  {
    Wrap64(x * Pow2(k))
  }
}
