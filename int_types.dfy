/**
 * The fixed-width C++ integer types the congestion-control code stores its
 * windows in, as subsets of Dafny's unbounded `int`, and the wrap-around of
 * unsigned 32-bit arithmetic.
 */
module IntTypes {

  const TWO_32: int := 0x1_0000_0000
  const TWO_31: int := 0x8000_0000

  /** C++ `uint32_t`. */
  type Uint32 = x: int | 0 <= x < 0x1_0000_0000

  /** C++ `int32_t`. */
  type Int32 = x: int | -0x8000_0000 <= x < 0x8000_0000

  /** The value an unsigned 32-bit sum or product keeps: the exact result modulo 2^32. */
  function Wrap32(x: int): (r: Uint32)
    ensures 0 <= x < TWO_32 ==> r == x
    ensures TWO_32 <= x < 2 * TWO_32 ==> r == x - TWO_32
    ensures (x - r) % TWO_32 == 0
  {
    x % TWO_32
  }

  function Max(a: int, b: int): (m: int)
    ensures a <= m && b <= m
    ensures m == a || m == b
  {
    if a < b then b else a
  }

  function Min(a: int, b: int): (m: int)
    ensures m <= a && m <= b
    ensures m == a || m == b
  {
    if b < a then b else a
  }
}
