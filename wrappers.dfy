/** Option and Result, the failure-carrying wrappers the other modules share. */
module Wrappers {

  datatype Option<+T> = None | Some(value: T)

  /** A value, or the message of the error that was thrown instead of producing it. */
  datatype Result<+T, +E> = Success(value: T) | Failure(error: E)
}
