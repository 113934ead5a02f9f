/**
 * The few facts about Java `float` arithmetic that the effect's formulas depend on.
 * Values are exact reals (rounding is not modelled); what is modelled is what happens
 * when a non-negative quantity is divided by a zero view extent (positive infinity or
 * NaN) and how Java's `(int)` narrowing treats such values.
 */
module JavaFloat {
  /** Integer.MAX_VALUE, where Java's float-to-int narrowing saturates. */
  const IntMax: int := 0x7fff_ffff

  /** A Java float value: finite, positive infinity, or NaN. */
  datatype JFloat = Finite(value: real) | Infinity | NaN

  function Abs(x: real): real
  {
    if x < 0.0 then -x else x
  }

  function Max(a: int, b: int): int
  {
    if a >= b then a else b
  }

  function MinReal(a: real, b: real): real
  {
    if a <= b then a else b
  }

  function MaxReal(a: real, b: real): real
  {
    if a >= b then a else b
  }

  /** `a / b` in float arithmetic, for a non-negative numerator and a non-negative divisor. */
  function Divide(a: real, b: real): JFloat
    requires a >= 0.0 && b >= 0.0
  {
    if b > 0.0 then Finite(a / b)
    else if a == 0.0 then NaN
    else Infinity
  }

  /** `k + x` for a finite non-negative `k`. */
  function Plus(k: real, x: JFloat): JFloat
  {
    match x
    case Finite(v) => Finite(k + v)
    case Infinity => Infinity
    case NaN => NaN
  }

  /** `x * k` for a finite positive `k`. */
  function Times(x: JFloat, k: real): JFloat
  {
    match x
    case Finite(v) => Finite(v * k)
    case Infinity => Infinity
    case NaN => NaN
  }

  /** Math.min(a, x) for a finite `a`: NaN wins, infinity loses. */
  function MinWith(a: real, x: JFloat): JFloat
  {
    match x
    case Finite(v) => Finite(MinReal(a, v))
    case Infinity => Finite(a)
    case NaN => NaN
  }

  /**
   * Java's `(int)` narrowing of a non-negative float: truncation toward zero, which is
   * the floor for non-negative values, saturating at Integer.MAX_VALUE; NaN becomes 0.
   */
  function IntCast(x: JFloat): (r: int)
    requires x.Finite? ==> x.value >= 0.0
    ensures 0 <= r <= IntMax
    ensures x.Finite? && x.value < IntMax as real ==> r as real <= x.value < r as real + 1.0
    ensures x.Finite? && x.value >= IntMax as real ==> r == IntMax
    ensures x == Infinity ==> r == IntMax
    ensures x == NaN ==> r == 0
  {
    match x
    case Finite(v) => if v >= IntMax as real then IntMax else v.Floor
    case Infinity => IntMax
    case NaN => 0
  }
}
