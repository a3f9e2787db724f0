/** Failure-carrying values shared by the modules of the proxy model. */
module Wrappers {

  datatype Option<+T> = None | Some(value: T) {
    function GetOr(default: T): T {
      match this
      case Some(v) => v
      case None => default
    }
  }

  /** The (value, error) pair that Go functions return, as one value. */
  datatype Result<+R, +E> = Success(value: R) | Failure(error: E)
}
