/** Failure-compatible wrappers shared by the whole model. */
module Wrappers {

  /** A value that may be absent: Python's `None` or a real value. */
  datatype Option<+T> = None | Some(value: T)

  /** The outcome of an operation that can raise. */
  datatype Result<+T, +E> = Ok(value: T) | Err(error: E)
}
