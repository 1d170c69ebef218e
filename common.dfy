// Shared value types: an optional value, a result with an error, and a plane point.
// JavaScript numbers are modelled as exact reals: no double rounding.

module Common {

  /** A value that may be absent (JavaScript `undefined` / `null`). */
  datatype Option<+T> = None | Some(value: T)

  /** The outcome of an operation that may throw. */
  datatype Result<+T, +E> = Ok(value: T) | Err(error: E)

  /** The decimal literal of `Math.PI`, read as an exact real. */
  const Pi: real := 3.141592653589793

  /** A point of the drawing plane, its coordinates exact reals. */
  datatype Point = Point(x: real, y: real)
}
