/** Option and Result, as used throughout the model. */
module Wrappers {

  /** A value that may be absent (Python's `Optional[...]`, with `None` for absence). */
  datatype Option<+T> = None | Some(value: T)

  /** The outcome of a call that may raise: a value, or the error that propagates to the caller. */
  datatype Result<+R, +E> = Success(value: R) | Failure(error: E)
}
