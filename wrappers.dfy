/** Option and Result, the two failure-carrying types the model uses. */
module Wrappers {

  /** A value that may be PHP `null` (None) or present (Some). */
  datatype Option<+T> = None | Some(value: T)

  /** The outcome of an operation that either yields a value or throws. */
  datatype Result<+T, +E> = Ok(value: T) | Err(error: E)
}
