/** Scalars as JavaScript (and Python) doubles are seen by the validation code of the
    core: a finite value, modelled as an exact real, or one of the three non-finite
    values. Arithmetic on finite values is exact; rounding is not modelled. */
module JsNumbers {

  datatype Number = Finite(value: real) | NaN | PositiveInfinity | NegativeInfinity

  /** `x < c` for a finite constant `c`: every comparison with NaN is false. */
  predicate LessThan(x: Number, c: real) {
    match x
    case Finite(v) => v < c
    case NaN => false
    case PositiveInfinity => false
    case NegativeInfinity => true
  }

  /** `x <= c` for a finite constant `c`. */
  predicate AtMost(x: Number, c: real) {
    match x
    case Finite(v) => v <= c
    case NaN => false
    case PositiveInfinity => false
    case NegativeInfinity => true
  }

  /** `Number.isInteger(x)`: false for NaN and both infinities. */
  predicate IsInteger(x: Number) {
    x.Finite? && x.value == x.value.Floor as real
  }
}
