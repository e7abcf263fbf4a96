/** Failure-compatible wrappers shared by every module of the model. */
module Wrappers {

  /** A value that may be absent; `None` stands for JavaScript's `null` and `undefined`. */
  datatype Option<+T> = None | Some(value: T) {
    function GetOr(default: T): T {
      match this
      case Some(v) => v
      case None => default
    }
  }

  /** Either a value or the error a JavaScript call would have thrown. */
  datatype Result<+R, +E> = Success(value: R) | Failure(error: E)

  /** The completion of an `async` function that returns nothing: it either ends or throws. */
  datatype Outcome<+E> = Pass | Fail(error: E)
}
