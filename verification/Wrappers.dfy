/** Failure-carrying result types shared by the rest of the model. */
module Wrappers {

  /** A value that may be absent (Go's `nil` or `ok == false`). */
  datatype Option<+T> = None | Some(value: T)

  /** A value or the text of the Go `error` returned in its place. */
  datatype Result<+R, +E> = Success(value: R) | Failure(error: E)
}
