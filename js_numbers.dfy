/**
 * The few JavaScript number behaviours the core depends on: division by
 * zero yields an infinity or NaN, and every comparison with NaN is false.
 * Finite values are exact reals; rounding is not modelled.
 */
module JsNumbers {
  datatype JsNumber = Finite(r: real) | PositiveInfinity | NegativeInfinity | NaN

  /** `a / b`: a zero divisor gives an infinity of the dividend's sign, or NaN for `0 / 0`. */
  function JsDivide(a: real, b: real): (q: JsNumber)
    ensures b != 0.0 ==> q == Finite(a / b)
    ensures b == 0.0 ==> (q == PositiveInfinity <==> a > 0.0) && (q == NegativeInfinity <==> a < 0.0) && (q == NaN <==> a == 0.0)
  {
    if b != 0.0 then Finite(a / b)
    else if a > 0.0 then PositiveInfinity
    else if a < 0.0 then NegativeInfinity
    else NaN
  }

  /** `x * k` for a positive constant `k`. */
  function JsScale(x: JsNumber, k: real): JsNumber
    requires k > 0.0
  {
    match x
    case Finite(r) => Finite(r * k)
    case _ => x
  }

  /** `x >= c`. */
  predicate JsAtLeast(x: JsNumber, c: real) {
    match x
    case Finite(r) => r >= c
    case PositiveInfinity => true
    case NegativeInfinity => false
    case NaN => false
  }

  /** Comparisons are monotone in the bound, and NaN satisfies none of them. */
  lemma JsAtLeastMonotone(x: JsNumber, c: real, d: real)
    requires c <= d
    ensures JsAtLeast(x, d) ==> JsAtLeast(x, c)
    ensures x.NaN? ==> !JsAtLeast(x, c)
  {
  }
}
