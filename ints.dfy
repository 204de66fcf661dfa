/** Go's fixed-width integers as subset types of int, with their wrap-around
    and saturation written out. */
module Ints {

  const TWO_TO_THE_16: int := 0x1_0000
  const TWO_TO_THE_32: int := 0x1_0000_0000
  const TWO_TO_THE_63: int := 0x8000_0000_0000_0000
  const TWO_TO_THE_64: int := 0x1_0000_0000_0000_0000

  /** math.MaxInt64 */
  const MAX_INT64: int := 0x7fff_ffff_ffff_ffff

  type uint8 = x: int | 0 <= x < 0x100
  type uint16 = x: int | 0 <= x < 0x1_0000
  type uint32 = x: int | 0 <= x < 0x1_0000_0000
  type uint64 = x: int | 0 <= x < 0x1_0000_0000_0000_0000
  type int64 = x: int | -0x8000_0000_0000_0000 <= x < 0x8000_0000_0000_0000

  /** Result of uint32 arithmetic: the value modulo 2^32. */
  function Wrap32(x: int): uint32 {
    x % TWO_TO_THE_32
  }

  /** Result of uint64 arithmetic, and of the conversion uint64(x) of an int64. */
  function Wrap64(x: int): uint64 {
    x % TWO_TO_THE_64
  }

  /** Result of int64 arithmetic, and of the conversion int64(u) of a uint64:
      two's complement reinterpretation of the low 64 bits. */
  function WrapInt64(x: int): int64 {
    var u := Wrap64(x);
    if u < TWO_TO_THE_63 then u else u - TWO_TO_THE_64
  }

  /** Saturating conversion into int64, as time.Time.Sub does for durations
      that do not fit. */
  function SaturateInt64(x: int): int64 {
    if x < -TWO_TO_THE_63 then -TWO_TO_THE_63
    else if x > MAX_INT64 then MAX_INT64
    else x
  }

  /** Values that fit in an int64 are left as they are. */
  lemma WrapInt64InRange(x: int)
    requires -TWO_TO_THE_63 <= x <= MAX_INT64
    ensures WrapInt64(x) == x
  {
  }

  /** Reading an int64's uint64 bit pattern back as an int64 recovers it. */
  lemma WrapInt64OfWrap64(t: int64)
    ensures WrapInt64(Wrap64(t)) == t
  {
    if t >= 0 {
      assert Wrap64(t) == t;
    } else {
      assert Wrap64(t) == t + TWO_TO_THE_64;
    }
  }

  /** Values that fit in a uint64 are left as they are. */
  lemma Wrap64InRange(x: int)
    requires 0 <= x < TWO_TO_THE_64
    ensures Wrap64(x) == x
  {
  }

  /** Values that fit in a uint32 are left as they are. */
  lemma Wrap32InRange(x: int)
    requires 0 <= x < TWO_TO_THE_32
    ensures Wrap32(x) == x
  {
  }

  function Max(a: int, b: int): int {
    if a < b then b else a
  }

  function Min(a: int, b: int): int {
    if a < b then a else b
  }

  /** Adding into a wrapped uint64 accumulator gives the wrapped total. */
  lemma Wrap64AddLeft(a: int, b: int)
    ensures Wrap64(Wrap64(a) + b) == Wrap64(a + b)
  {
  }

  /** Adding into a wrapped uint32 counter gives the wrapped total. */
  lemma Wrap32AddLeft(a: int, b: int)
    ensures Wrap32(Wrap32(a) + b) == Wrap32(a + b)
  {
  }
}
