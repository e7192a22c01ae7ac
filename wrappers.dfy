/** Option and Result: the absent value (`undefined`) and the thrown error of the JavaScript source. */
module Wrappers {

  datatype Option<+T> = None | Some(value: T) {
    /** `x ?? d`, and also `x || d` when no present value is falsy. */
    function GetOr(default: T): T {
      match this
      case Some(v) => v
      case None => default
    }
  }

  datatype Result<+R, +E> = Success(value: R) | Failure(error: E)
}
