/** Option and Result, the failure-carrying values used throughout the model. */
module Wrappers {

  /** A JavaScript value that may be `undefined`/`null`. */
  datatype Option<+T> = None | Some(value: T)

  /** A computation that either returns a value or throws an error. */
  datatype Result<+T, +E> = Ok(value: T) | Err(error: E)
}
