/** Failure-carrying values shared by the rest of the model. */
module Wrappers {

  /** A value that may be absent: JavaScript's `undefined` along an optional chain. */
  datatype Option<+T> = None | Some(value: T)

  /** The outcome of an operation that may throw: a value or the error it threw. */
  datatype Result<+T, +E> = Ok(value: T) | Err(error: E)
}
