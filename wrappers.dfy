/** Option and Result, the two failure-carrying shapes used throughout the model. */
module Wrappers {

  datatype Option<+T> = None | Some(value: T)

  /** A value, or the message of the exception the source would have thrown. */
  datatype Result<+T, +E> = Success(value: T) | Failure(error: E)
}
