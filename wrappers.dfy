/** Option and Result, shared by every module of the model. */
module Wrappers {

  /** An optional value (Python's `None` or a present value). */
  datatype Option<+T> = None | Some(value: T)

  /** The outcome of an operation that the source lets raise an exception. */
  datatype Result<+T, +E> = Ok(value: T) | Err(error: E)
}
