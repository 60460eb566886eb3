/** Two's-complement 64-bit integers, the width of Go's `int64` and (on the 64-bit targets the
    service is built for) of Go's `int`. */
module Int64 {

  const MAX: int := 0x7fff_ffff_ffff_ffff
  const MIN: int := -0x8000_0000_0000_0000

  type int64 = x: int | -0x8000_0000_0000_0000 <= x <= 0x7fff_ffff_ffff_ffff

  /** The value an arbitrary integer has once it is squeezed into 64 bits. */
  function Wrap(x: int): int64 {
    (x + 0x8000_0000_0000_0000) % 0x1_0000_0000_0000_0000 - 0x8000_0000_0000_0000
  }

  /** Go's `+` on two 64-bit operands. */
  function Add(a: int64, b: int64): int64 {
    if a + b > MAX then a + b - 0x1_0000_0000_0000_0000
    else if a + b < MIN then a + b + 0x1_0000_0000_0000_0000
    else a + b
  }

  /** Go's `-` on two 64-bit operands. */
  function Sub(a: int64, b: int64): int64 {
    if a - b > MAX then a - b - 0x1_0000_0000_0000_0000
    else if a - b < MIN then a - b + 0x1_0000_0000_0000_0000
    else a - b
  }

  /** Go's `/ 4`, which truncates toward zero. */
  function Quarter(a: int64): int64 {
    var x: int := a;
    if x >= 0 then x / 4 else 0 - (0 - x) / 4
  }

  /** The quarter is the exact one with its fraction cut off, on either side of zero. */
  lemma QuarterTruncates(a: int64)
    ensures a >= 0 ==> 4 * Quarter(a) <= a < 4 * Quarter(a) + 4
    ensures a <= 0 ==> 4 * Quarter(a) - 4 < a <= 4 * Quarter(a)
  {}

  /** How many turns of 2^64 an addition makes. */
  function Turn(a: int64, b: int64): (q: int)
    ensures Add(a, b) == a + b + q * 0x1_0000_0000_0000_0000
  {
    if a + b > MAX then -1 else if a + b < MIN then 1 else 0
  }

  /** The only 64-bit value a whole number of turns away from x is its wrapped value. */
  lemma WrapOfTurns(x: int, y: int64, q: int)
    requires y == x + q * 0x1_0000_0000_0000_0000
    ensures y == Wrap(x)
  {}
}
