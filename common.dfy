/** Small shared vocabulary: an optional value and integer ceiling division. */
module Common {

  /** A value that may be absent: a JavaScript `null`, `undefined` or `NaN`. */
  datatype Option<T> = None | Some(value: T)
  {
    /** The value, or `default` when absent (the `x || default` idiom). */
    function GetOr(default: T): (r: T)
      ensures Some? ==> r == value
      ensures None? ==> r == default
    {
      match this
      case Some(v) => v
      case None => default
    }
  }

  /** `Math.ceil(a / b)` for a non-negative numerator and a positive denominator. */
  function CeilDiv(a: nat, b: nat): (r: nat)
    requires b > 0
    ensures r * b >= a
    ensures r == 0 || (r - 1) * b < a
  {
    (a + b - 1) / b
  }
}
