/**
 * Small value types shared by the simulation engine and the calibration policy.
 */
module Common {

  datatype Option<T> = None | Some(value: T)

  /** The only exception the engine raises (Python's ValueError). */
  datatype Error = ValueError

  datatype Result<T> = Ok(value: T) | Err(error: Error)

  /**
   * A float64 quotient: a finite real, or the infinity/NaN that numpy
   * produces (without raising) when the divisor is zero.
   */
  datatype Float = Finite(v: real) | NonFinite

  /** A closed `(low, high)` parameter range. */
  datatype Range = Range(lo: real, hi: real)

  /** numpy's element-wise `a / b`. */
  function Divide(a: real, b: real): (q: Float)
    ensures q.NonFinite? <==> b == 0.0
    ensures q.Finite? ==> q.v * b == a
  {
    if b == 0.0 then NonFinite else Finite(a / b)
  }

  function Min(a: real, b: real): (m: real)
    ensures m <= a && m <= b && (m == a || m == b)
  {
    if a <= b then a else b
  }

  function Max(a: real, b: real): (m: real)
    ensures m >= a && m >= b && (m == a || m == b)
  {
    if a >= b then a else b
  }

  function Abs(x: real): (r: real)
    ensures r >= 0.0 && (r == x || r == -x)
  {
    if x < 0.0 then -x else x
  }

  lemma NonNegativeProduct(a: real, b: real)
    requires a >= 0.0 && b >= 0.0
    ensures a * b >= 0.0
  {
  }
}
