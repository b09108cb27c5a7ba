/** The part of IEEE-754 double arithmetic the pages' percentages depend on:
    `x / y` with a zero divisor gives an infinity or NaN, `Math.min` propagates NaN,
    and every comparison with NaN is false. Finite values are exact reals (no rounding). */
module JsNumber {

  datatype Num = Finite(v: real) | PosInfinity | NegInfinity | NaN

  /** `x / y`. */
  function Divide(x: real, y: real): (r: Num)
    ensures y != 0.0 ==> r == Finite(x / y)
    ensures y == 0.0 ==> (r.PosInfinity? <==> x > 0.0) && (r.NegInfinity? <==> x < 0.0) && (r.NaN? <==> x == 0.0)
  {
    if y != 0.0 then Finite(x / y)
    else if x > 0.0 then PosInfinity
    else if x < 0.0 then NegInfinity
    else NaN
  }

  /** `n * k` for a positive finite factor. */
  function Scale(n: Num, k: real): Num
    requires k > 0.0
  {
    match n
    case Finite(v) => Finite(v * k)
    case _ => n
  }

  /** `(part / whole) * 100`. */
  function Percentage(part: real, whole: real): Num {
    Scale(Divide(part, whole), 100.0)
  }

  /** `n > k` for a finite `k`. */
  predicate Greater(n: Num, k: real) {
    match n
    case Finite(v) => v > k
    case PosInfinity => true
    case NegInfinity => false
    case NaN => false
  }

  /** `Math.min(n, k)` for a finite `k`. */
  function MinWith(n: Num, k: real): (r: Num)
    ensures !Greater(r, k)
    ensures Greater(n, k) ==> r == Finite(k)
    ensures !Greater(n, k) ==> r == n
  {
    match n
    case Finite(v) => if v <= k then n else Finite(k)
    case PosInfinity => Finite(k)
    case NegInfinity => n
    case NaN => NaN
  }
}
