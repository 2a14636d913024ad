/** Fixed-width integers of the source, written out over unbounded ones. */
module Arith {
  const TWO_31: int := 0x8000_0000
  const TWO_32: int := 0x1_0000_0000

  type uint32 = x: int | 0 <= x < TWO_32

  /** Conversion to uint32: keep the low 32 bits. */
  function U32(x: int): uint32 {
    x % TWO_32
  }

  /** Conversion to int32: the low 32 bits read in two's complement. */
  function I32(x: int): int {
    var r := x % TWO_32;
    if r < TWO_31 then r else r - TWO_32
  }

  /** Addition to a uint32, which wraps. */
  function Add32(x: uint32, n: int): uint32 {
    var y: int := x;
    U32(y + n)
  }

  function Min(x: int, y: int): int {
    if x <= y then x else y
  }

  function Max(x: int, y: int): int {
    if x <= y then y else x
  }

  /** A signed 32-bit reading of the difference of two wrapped counters is the true difference exactly when the
      true difference fits; so counters may wrap any number of times, as long as they stay close. */
  lemma WrappedDifference(x: int, y: int)
    ensures I32(U32(x) - U32(y)) == x - y <==> -TWO_31 <= x - y < TWO_31
  {
    var d := U32(x) - U32(y);
    var k := y / TWO_32 - x / TWO_32;
    assert d == (x - y) + TWO_32 * k;
  }

  /** Wrapping early or late makes no difference to a sum. */
  lemma WrappedSum(x: int, y: int)
    ensures U32(U32(x) + y) == U32(x + y)
  {
    assert U32(x) + y == x + y - TWO_32 * (x / TWO_32);
  }
}
