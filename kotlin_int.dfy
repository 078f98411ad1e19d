/** Kotlin's 32-bit `Int` and the wrapping arithmetic the source relies on. */
module KotlinInt {

  const INT_MIN: int := -0x8000_0000
  const INT_MAX: int := 0x7fff_ffff

  /** A value of Kotlin type `Int`. */
  type Int32 = x: int | -0x8000_0000 <= x < 0x8000_0000

  /** Two's-complement truncation of a mathematical integer to 32 bits,
      which is what `+` and `-` on `Int` do on overflow. */
  function Wrap(x: int): (r: Int32)
    ensures (r - x) % 0x1_0000_0000 == 0
    ensures INT_MIN <= x <= INT_MAX ==> r == x
  {
    (x + 0x8000_0000) % 0x1_0000_0000 - 0x8000_0000
  }

  /** `kotlin.math.abs` on `Int`: the negation wraps, so `abs(Int.MIN_VALUE)`
      is `Int.MIN_VALUE` itself. */
  function Abs(x: Int32): (r: Int32)
    ensures x != INT_MIN ==> r >= 0 && (r == x || r == -x)
    ensures x == INT_MIN ==> r == INT_MIN
  {
    if x < 0 then Wrap(-(x as int)) else x
  }
}
