/** Failure-carrying values shared by the modules of the model. */
module Wrappers {

  /** A value that may be absent: JavaScript's `null`/`undefined`, or a call that threw. */
  datatype Option<+T> = None | Some(value: T) {
    function GetOr(default: T): T {
      match this
      case Some(v) => v
      case None => default
    }
  }

  /** The outcome of an operation that either returns a value or fails with an error. */
  datatype Result<+R, +E> = Success(value: R) | Failure(error: E)
}
