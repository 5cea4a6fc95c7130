/** Optional values and error results shared by every module of the model. */
module Wrappers {

  /** A value that may be absent: a nullable column, a missing query parameter, `find` returning nothing. */
  datatype Option<+T> = None | Some(value: T) {
    function GetOr(default: T): T {
      match this
      case Some(v) => v
      case None => default
    }
  }

  /** The outcome of an operation that either succeeds with a value or fails with an error. */
  datatype Result<+R, +E> = Ok(value: R) | Err(error: E)
}
