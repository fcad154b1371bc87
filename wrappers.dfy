/** Option and Result, the stock wrappers used by the model. */
module Wrappers {

  /** A value that may be missing: a CSV column that is absent, a null cell, a NULL column value. */
  datatype Option<+T> = None | Some(value: T) {
    function GetOr(default: T): (r: T) {
      match this
      case Some(v) => v
      case None => default
    }
  }

  /** The outcome of a step that can raise. */
  datatype Result<+R, +E> = Success(value: R) | Failure(error: E)
}
