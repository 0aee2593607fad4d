/** Failure-compatible wrappers shared by every module of the model. */
module Wrappers {

  /** A value that may be absent; `None` also stands for a `parseFloat` that gave NaN. */
  datatype Option<+T> = None | Some(value: T) {
    function GetOr(default: T): T {
      match this
      case Some(v) => v
      case None => default
    }
  }

  /** The outcome of an operation that may throw; `error` carries the thrown message. */
  datatype Result<+R, +E> = Success(value: R) | Failure(error: E)
}
