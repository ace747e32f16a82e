/** Failure-carrying result types shared by the viewer model. */
module Wrappers {

  /** A value that may be absent, as a JavaScript `null` reference may be. */
  datatype Option<+T> = None | Some(value: T)

  /** The outcome of an operation that can fail with an error value. */
  datatype Result<+T, +E> = Success(value: T) | Failure(error: E)
}
