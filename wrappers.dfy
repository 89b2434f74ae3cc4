/** Optional values and results with an error message, as used across the model. */
module Wrappers {

  /** A value that may be absent (`undefined` or `null` in the page code). */
  datatype Option<+T> = None | Some(value: T)

  /** The outcome of an operation that either yields a value or fails with an error. */
  datatype Result<+T, +E> = Ok(value: T) | Err(error: E)
}
