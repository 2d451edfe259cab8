/** The JavaScript values the core passes around that Dafny has no direct
    counterpart for: a possibly-absent value and an IEEE number seen only
    through comparisons. */
module JsValues {

  datatype Option<T> = None | Some(value: T)

  /** A JavaScript `number` as the validators see it: NaN, one of the two
      infinities, or a finite value (rounding is not modelled). */
  datatype Number = NaN | PosInfinity | NegInfinity | Finite(value: real)

  /** `isNaN(n)` */
  predicate IsNaN(n: Number)
  {
    n.NaN?
  }

  /** `n >= k`; every comparison with NaN is false. */
  predicate AtLeast(n: Number, k: real)
  {
    match n
    case NaN => false
    case PosInfinity => true
    case NegInfinity => false
    case Finite(v) => v >= k
  }

  /** `n <= k` */
  predicate AtMost(n: Number, k: real)
  {
    match n
    case NaN => false
    case PosInfinity => false
    case NegInfinity => true
    case Finite(v) => v <= k
  }

  /** `n > k` */
  predicate GreaterThan(n: Number, k: real)
  {
    match n
    case NaN => false
    case PosInfinity => true
    case NegInfinity => false
    case Finite(v) => v > k
  }
}
