/** IEEE 754 double-precision values as the app sees them. Finite values are
    exact reals: rounding, overflow and the sign of zero are not modelled. */
module Floats {

  datatype Double = Finite(value: real) | PosInf | NegInf | NaN

  /** Swift's `==` on `Double`: NaN equals nothing, not even itself. */
  predicate Equal(a: Double, b: Double)
    ensures Equal(a, b) <==> a == b && !a.NaN?
  {
    match (a, b)
    case (Finite(x), Finite(y)) => x == y
    case (PosInf, PosInf) => true
    case (NegInf, NegInf) => true
    case _ => false
  }

  /** Swift's `<` on `Double`: false as soon as either side is NaN. */
  predicate Less(a: Double, b: Double) {
    && !a.NaN?
    && !b.NaN?
    && match (a, b)
       case (Finite(x), Finite(y)) => x < y
       case (NegInf, _) => !b.NegInf?
       case (_, PosInf) => !a.PosInf?
       case _ => false
  }

  /** Swift's `>=` on `Double`: also false as soon as either side is NaN. */
  predicate AtLeast(a: Double, b: Double) {
    !a.NaN? && !b.NaN? && !Less(a, b)
  }

  /** The standard library's `min(x, y)`, which is `y < x ? y : x`. */
  function Min(x: Double, y: Double): Double {
    if Less(y, x) then y else x
  }

  /** The standard library's `max(x, y)`, which is `y >= x ? y : x`. */
  function Max(x: Double, y: Double): Double {
    if AtLeast(y, x) then y else x
  }

  /** `lo <= d <= hi` for a finite `d`. */
  predicate Within(d: Double, lo: real, hi: real) {
    d.Finite? && lo <= d.value <= hi
  }
}
