/**
  Double-precision values as Aegean's comparisons see them: a finite real, one
  of the two infinities, or NaN.  Rounding and the sign of zero are not
  modelled; every operation below follows IEEE 754 on these four kinds.
 */
module Floats {

  datatype Float = Num(v: real) | PosInf | NegInf | NaN

  /** `x / y` as numpy computes it on float64 arrays (no exception on zero). */
  function Div(a: Float, b: Float): (r: Float)
    ensures a.NaN? || b.NaN? ==> r.NaN?
    ensures a.Num? && b.Num? && b.v != 0.0 ==> r == Num(a.v / b.v)
  {
    match (a, b)
    case (NaN, _) => NaN
    case (_, NaN) => NaN
    case (Num(x), Num(y)) =>
      if y != 0.0 then Num(x / y)
      else if x > 0.0 then PosInf
      else if x < 0.0 then NegInf
      else NaN
    case (Num(_), _) => Num(0.0)
    case (PosInf, Num(y)) => if y < 0.0 then NegInf else PosInf
    case (NegInf, Num(y)) => if y < 0.0 then PosInf else NegInf
    case (_, _) => NaN
  }

  /** `x - y`. */
  function Sub(a: Float, b: Float): (r: Float)
    ensures a.Num? && b.Num? ==> r == Num(a.v - b.v)
  {
    match (a, b)
    case (NaN, _) => NaN
    case (_, NaN) => NaN
    case (Num(x), Num(y)) => Num(x - y)
    case (PosInf, PosInf) => NaN
    case (NegInf, NegInf) => NaN
    case (PosInf, _) => PosInf
    case (NegInf, _) => NegInf
    case (_, PosInf) => NegInf
    case (_, NegInf) => PosInf
  }

  /** `x > c` for a finite Python float `c`; false whenever `x` is NaN. */
  predicate Gt(a: Float, c: real)
  {
    match a
    case Num(x) => x > c
    case PosInf => true
    case NegInf => false
    case NaN => false
  }

  /** `x >= c` for a finite Python float `c`; false whenever `x` is NaN. */
  predicate Ge(a: Float, c: real)
  {
    match a
    case Num(x) => x >= c
    case PosInf => true
    case NegInf => false
    case NaN => false
  }

  /** `a <= b`; false whenever either side is NaN. */
  predicate Le(a: Float, b: Float)
  {
    match (a, b)
    case (NaN, _) => false
    case (_, NaN) => false
    case (NegInf, _) => true
    case (_, PosInf) => true
    case (Num(x), Num(y)) => x <= y
    case (_, _) => false
  }

  /** `a < b`; false whenever either side is NaN. */
  predicate Lt(a: Float, b: Float)
  {
    Le(a, b) && a != b
  }

  /** On the values that are not NaN, `Le` is a total order. */
  lemma LeTotalOrder(a: Float, b: Float, c: Float)
    requires !a.NaN? && !b.NaN? && !c.NaN?
    ensures Le(a, a)
    ensures Le(a, b) || Le(b, a)
    ensures Le(a, b) && Le(b, a) ==> a == b
    ensures Le(a, b) && Le(b, c) ==> Le(a, c)
  {
  }

  /** A difference of ordered values is never negative. */
  lemma SubOrderedNotNegative(lo: Float, hi: Float)
    requires Le(lo, hi)
    ensures !Lt(Sub(hi, lo), Num(0.0))
  {
  }
}
