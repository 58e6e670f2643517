/** Failure-carrying results shared by the modules of this model. */
module Wrappers {

  datatype Option<+T> = None | Some(value: T) {
    function GetOr(default: T): T {
      match this
      case Some(v) => v
      case None => default
    }
  }

  /** A computation that either succeeds with a value or throws an error. */
  datatype Result<+R, +E> = Success(value: R) | Failure(error: E)
}
