/** Kotlin's fixed-width integer arithmetic, written out over Dafny's
    unbounded `int`: `Int` and `Long` ranges, the 32-bit wrap-around of
    `Int.times` and `Long.toInt`, and `Long.div`, which truncates toward
    zero (Dafny's `/` is Euclidean). */
module KotlinNumbers {

  const MinInt32: int := -0x8000_0000
  const MaxInt32: int := 0x7fff_ffff
  const TwoTo32: int := 0x1_0000_0000
  const MinInt64: int := -0x8000_0000_0000_0000
  const MaxInt64: int := 0x7fff_ffff_ffff_ffff

  /** Values of Kotlin's `Int`. */
  type Int32 = x: int | MinInt32 <= x <= MaxInt32

  /** Values of Kotlin's `Long`. */
  type Int64 = x: int | MinInt64 <= x <= MaxInt64

  /** The `Int` whose two's-complement bits are the low 32 bits of `x`:
      what `Int` multiplication overflow and `Long.toInt()` produce. */
  function WrapInt32(x: int): (r: Int32)
    ensures (x - r) % TwoTo32 == 0
    ensures MinInt32 <= x <= MaxInt32 ==> r == x
  {
    (x - MinInt32) % TwoTo32 + MinInt32
  }

  /** Integer division rounding toward zero, as `Int.div` and `Long.div` do.
      The remainder has the sign of the dividend and is smaller than the
      divisor, which determines the quotient uniquely. */
  function TruncDiv(a: int, b: int): (q: int)
    requires b > 0
    ensures 0 <= a ==> 0 <= a - q * b < b
    ensures a < 0 ==> 0 <= q * b - a < b
  {
    if a >= 0 then a / b else -((-a) / b)
  }
}
