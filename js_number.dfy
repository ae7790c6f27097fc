/** JavaScript numbers as the estimator sees them: a finite value, NaN, or
    one of the two infinities. Finite values are exact reals; the IEEE-754
    representation is not modelled. */
module JsNumber {

  datatype Number = Finite(value: real) | NaN | PosInf | NegInf

  /** `Number.isFinite` */
  predicate IsFinite(n: Number) {
    n.Finite?
  }

  /** The order `<=` on numbers other than NaN (NaN compares false to everything). */
  predicate LessEq(a: Number, b: Number) {
    match (a, b)
    case (NaN, _) => false
    case (_, NaN) => false
    case (NegInf, _) => true
    case (_, PosInf) => true
    case (Finite(x), Finite(y)) => x <= y
    case (_, _) => false
  }

  /** `Math.min(a, b)`: NaN if either argument is NaN, else the smaller one. */
  function Min(a: Number, b: Number): (r: Number)
    ensures r.NaN? <==> a.NaN? || b.NaN?
    ensures !r.NaN? ==> LessEq(r, a) && LessEq(r, b) && (r == a || r == b)
  {
    if a.NaN? || b.NaN? then NaN else if LessEq(a, b) then a else b
  }

  /** `Math.max(a, b)`: NaN if either argument is NaN, else the larger one. */
  function Max(a: Number, b: Number): (r: Number)
    ensures r.NaN? <==> a.NaN? || b.NaN?
    ensures !r.NaN? ==> LessEq(a, r) && LessEq(b, r) && (r == a || r == b)
  {
    if a.NaN? || b.NaN? then NaN else if LessEq(a, b) then b else a
  }

  /** `n * k` for a positive finite constant `k`. */
  function Scale(n: Number, k: real): (r: Number)
    requires k > 0.0
    ensures IsFinite(r) <==> IsFinite(n)
    ensures IsFinite(n) ==> r.value == n.value * k
  {
    match n
    case Finite(x) => Finite(x * k)
    case _ => n
  }

  lemma LessEqTransitive(a: Number, b: Number, c: Number)
    requires LessEq(a, b) && LessEq(b, c)
    ensures LessEq(a, c)
  {
  }
}
