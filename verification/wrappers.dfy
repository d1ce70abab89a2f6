/** The optional values and error results used by the rest of the model. */
module Wrappers {

  /** A value that may be absent (a JavaScript `undefined`). */
  datatype Option<+T> = None | Some(value: T)

  /** The value of a computation, or the error it threw. */
  datatype Result<+R, +E> = Success(value: R) | Failure(error: E)
}
