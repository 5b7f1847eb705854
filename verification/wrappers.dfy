/** Failure-compatible helper datatypes shared by every module of the model. */
module Wrappers {

  /** A value that may be absent: Python's `None` or a nullable column. */
  datatype Option<+T> = None | Some(value: T)

  /** Either a value or an error: an operation that may raise. */
  datatype Result<+T, +E> = Ok(value: T) | Err(error: E)
}
