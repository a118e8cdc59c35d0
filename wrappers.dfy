/** Option and Result values used throughout the model. */
module Wrappers {

  /** A value that may be absent. */
  datatype Option<+T> = None | Some(value: T)

  /** The outcome of an operation that may throw: its value, or the thrown value. */
  datatype Result<+T, +E> = Success(value: T) | Failure(error: E)
}
