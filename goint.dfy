/**
 * Go's fixed-width integer arithmetic, written out over Dafny's unbounded
 * integers: uint64 subtraction, division and multiplication, the int64
 * Duration that time.Time.Sub produces, and the uint64(int64) conversion.
 */
module GoInt {

  const TWO_TO_THE_64: int := 0x1_0000_0000_0000_0000
  const MIN_INT64: int := -0x8000_0000_0000_0000
  const MAX_INT64: int := 0x7fff_ffff_ffff_ffff

  type uint64 = x: int | 0 <= x < 0x1_0000_0000_0000_0000
  type uint32 = x: int | 0 <= x < 0x1_0000_0000
  type int64 = x: int | -0x8000_0000_0000_0000 <= x <= 0x7fff_ffff_ffff_ffff

  /** uint64 subtraction `a - b`: wraps around modulo 2^64 when b > a. */
  function Sub(a: uint64, b: uint64): (r: uint64)
    ensures (r + b) % TWO_TO_THE_64 == a
    ensures b <= a ==> r == a - b
    ensures a < b ==> r == a - b + TWO_TO_THE_64
  {
    (a - b) % TWO_TO_THE_64
  }

  /** uint64 division `a / b` for b > 0: truncates, never wraps. */
  function Div(a: uint64, b: uint64): (r: uint64)
    requires b > 0
    ensures r * b <= a < r * b + b
  {
    a / b
  }

  /** uint64 multiplication `a * b`: keeps the low 64 bits of the product. */
  function Mul(a: uint64, b: uint64): (r: uint64)
    ensures r == (a * b) % TWO_TO_THE_64
    ensures a * b < TWO_TO_THE_64 ==> r == a * b
    ensures a == 0 || b == 0 ==> r == 0
  {
    var p := a * b;
    if p < TWO_TO_THE_64 then p else p % TWO_TO_THE_64
  }

  /** The conversion `uint64(d)` of an int64: a negative d becomes d + 2^64. */
  function ToUint64(d: int64): (r: uint64)
    ensures 0 <= d ==> r == d
    ensures d < 0 ==> r == d + TWO_TO_THE_64
  {
    d % TWO_TO_THE_64
  }

  /**
   * `t.Sub(u)` for two instants given in nanoseconds: the exact difference,
   * or the closest int64 Duration when the difference does not fit.
   */
  function DurationBetween(t: int, u: int): (d: int64)
    ensures MIN_INT64 <= t - u <= MAX_INT64 ==> d == t - u
    ensures t - u < MIN_INT64 ==> d == MIN_INT64
    ensures t - u > MAX_INT64 ==> d == MAX_INT64
  {
    if t - u < MIN_INT64 then MIN_INT64
    else if t - u > MAX_INT64 then MAX_INT64
    else t - u
  }
}
