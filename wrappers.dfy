/** Optional values and results with an error message. */
module Wrappers {

  /** A value that may be absent (a JavaScript field still `undefined`). */
  datatype Option<+T> = None | Some(value: T)

  /** The outcome of an operation that may throw. */
  datatype Result<+T, +E> = Ok(value: T) | Err(error: E)
}
