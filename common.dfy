/** Small value types and distance helpers shared by the simulation modules. */
module Common {

  /** A value that may be absent, as Python's `Optional` / `None`. */
  datatype Option<+T> = None | Some(value: T)

  /** The outcome of an operation that can raise. */
  datatype Result<+T, +E> = Ok(value: T) | Err(error: E)

  /** Square of the Euclidean distance between two points. */
  function SqDist(x1: real, y1: real, x2: real, y2: real): (d: real)
    ensures d >= 0.0
  {
    (x1 - x2) * (x1 - x2) + (y1 - y2) * (y1 - y2)
  }

  /** `sqrt(d2) < r`, stated without the square root (d2 is a squared distance). */
  predicate DistLess(d2: real, r: real)
  {
    r > 0.0 && d2 < r * r
  }

  /** `sqrt(d2) > r`, stated without the square root. */
  predicate DistGreater(d2: real, r: real)
  {
    r < 0.0 || d2 > r * r
  }

  /** `sqrt(d2) <= r`, stated without the square root. */
  predicate DistAtMost(d2: real, r: real)
  {
    r >= 0.0 && d2 <= r * r
  }
}
