/** Optional values and success-or-error results used throughout the model. */
module Wrappers {

  /** A value that may be absent: C#'s `null` and `decimal?`. */
  datatype Option<+T> = None | Some(value: T)

  /** A computation that either yields a value or throws. */
  datatype Result<+T, +E> = Ok(value: T) | Err(error: E)
}
