/** Option and Result types used across the model. */
module Wrappers {

  /** An absent-or-present value: Python's `None` or a value. */
  datatype Option<+T> = None | Some(value: T)

  /** The outcome of a step that may raise a Python exception. */
  datatype Result<+T, +E> = Success(value: T) | Failure(error: E)
}
