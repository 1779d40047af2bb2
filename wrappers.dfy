/** Failure-carrying values: a Python function that may return nothing, or raise. */
module Wrappers {

  datatype Option<+T> = None | Some(value: T) {
    function GetOr(default: T): T {
      match this
      case Some(v) => v
      case None => default
    }
  }

  /** `Failure` stands for an exception the Python code does not catch. */
  datatype Result<+R, +E> = Success(value: R) | Failure(error: E)
}
