/** Failure-compatible wrappers shared by the whole model. */
module Wrappers {

  /** A value that may be absent: a JavaScript property that is `undefined` or `null`. */
  datatype Option<+T> = None | Some(value: T) {

    /** The value, or `default` when absent. */
    function GetOr(default: T): T {
      match this
      case Some(v) => v
      case None => default
    }
  }

  /** The result of an operation that either returns a value or throws with a message. */
  datatype Result<+R> = Success(value: R) | Failure(error: string)
}
