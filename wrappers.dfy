/** Option, Result and Outcome: the values a Python call either returns or raises. */
module Wrappers {

  datatype Option<+T> = None | Some(value: T)

  /** A call that returns a value (Success) or raises (Failure). */
  datatype Result<+R, +E> = Success(value: R) | Failure(error: E)

  /** A call that returns Python's None (Pass) or raises (Fail). */
  datatype Outcome<+E> = Pass | Fail(error: E)
}
