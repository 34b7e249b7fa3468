/** Failure-carrying values shared by the modules of this model. */
module Wrappers {

  /** A value that may be absent (a null pointer, a missing map entry). */
  datatype Option<+T> = None | Some(value: T)

  /** The value of an operation that may fail, or the error it raised. */
  datatype Result<+T, +E> = Success(value: T) | Failure(error: E)
}
