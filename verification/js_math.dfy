/**
 * The JavaScript number built-ins the application relies on, over `real`.
 * NaN and the infinities have no counterpart here: a `real` is always a finite number.
 */
module JsMath {

  /** A value that may be absent: `undefined`, or a parse that produced NaN. */
  datatype Option<+T> = None | Some(value: T) {
    function GetOr(default: T): T {
      match this
      case Some(v) => v
      case None => default
    }
  }

  /** `Math.round`: the nearest integer, halves going toward +infinity. */
  function Round(x: real): (r: int)
    ensures x - 0.5 < r as real <= x + 0.5
  {
    (x + 0.5).Floor
  }

  /** Rounding an integral value gives it back. */
  lemma RoundOfInt(n: int)
    ensures Round(n as real) == n
  {
  }

  /** `Math.round` never reverses the order of its arguments. */
  lemma RoundMonotone(x: real, y: real)
    requires x <= y
    ensures Round(x) <= Round(y)
  {
  }

  /** `Math.min` and `Math.max` on two integers. */
  function MinInt(a: int, b: int): (r: int)
    ensures r <= a && r <= b && (r == a || r == b)
  {
    if a <= b then a else b
  }

  function MaxInt(a: int, b: int): (r: int)
    ensures r >= a && r >= b && (r == a || r == b)
  {
    if a >= b then a else b
  }

  /** `Math.max` on two reals. */
  function MaxReal(a: real, b: real): real
  {
    if a >= b then a else b
  }

  /**
   * `Number(x) || 0` and `parseInt(x) || 0`: a missing or NaN value becomes 0,
   * every other number is kept (0 itself is falsy and also gives 0).
   */
  function OrZero(v: Option<real>): (r: real)
    ensures v.Some? ==> r == v.value
    ensures v.None? ==> r == 0.0
  {
    v.GetOr(0.0)
  }
}
