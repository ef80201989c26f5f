/** Failure-carrying wrappers shared by the other modules. */
module Wrappers {

  /** A value that may be absent: Go's nil-able error, or a missing result. */
  datatype Option<+T> = None | Some(value: T)

  /** A value or the error that prevented computing it. */
  datatype Result<+T, +E> = Success(value: T) | Failure(error: E)
}
