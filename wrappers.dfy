/** Optional values and results with an error, used for the source's `undefined`, `?? default`
    and thrown exceptions. */
module Wrappers {

  datatype Option<+T> = None | Some(value: T) {
    /** The value, or `default` when absent (JavaScript's `x ?? default`). */
    function GetOr(default: T): T {
      match this
      case Some(v) => v
      case None => default
    }
  }

  datatype Result<+T, +E> = Ok(value: T) | Err(error: E)

  function Min(a: real, b: real): real { if a <= b then a else b }

  function Max(a: real, b: real): real { if a >= b then a else b }

  function MinInt(a: int, b: int): int { if a <= b then a else b }

  function MaxInt(a: int, b: int): int { if a >= b then a else b }

  /** A share in [0, 1] of a non-negative amount lies between zero and the amount. */
  lemma ScaleBounds(x: real, ratio: real)
    requires x >= 0.0 && 0.0 <= ratio <= 1.0
    ensures 0.0 <= x * ratio <= x
  {
    assert x * ratio <= x * 1.0;
  }

  lemma ProductNonNegative(a: real, b: real)
    requires a >= 0.0 && b >= 0.0
    ensures a * b >= 0.0
  {
  }
}
