/** Option and Result, used wherever the source has `null`/`undefined` or a thrown error. */
module Wrappers {

  datatype Option<+T> = None | Some(value: T) {
    /** `x ?? d` and `x || d` for values whose only falsy case is null/undefined. */
    function GetOr(default: T): T {
      match this
      case Some(v) => v
      case None => default
    }
  }

  datatype Result<+R, +E> = Success(value: R) | Failure(error: E)
}
