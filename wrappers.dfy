/** Option and Result, the two failure-carrying types used throughout the model. */
module Wrappers {

  /** A value that may be absent (Python's `Optional[T]`, `None` meaning absent). */
  datatype Option<+T> = None | Some(value: T)

  /** The outcome of an operation that either returns a value or raises an error. */
  datatype Result<+T, +E> = Ok(value: T) | Err(error: E)
}
