/** Option and Result, used for JSON keys that may be absent and for
    calls that may raise. */
module Wrappers {

  datatype Option<+T> = None | Some(value: T) {
    function GetOr(default: T): T {
      match this
      case Some(v) => v
      case None => default
    }
  }

  /** The outcome of a call that may raise: `Failure` carries the exception text. */
  datatype Result<+T> = Success(value: T) | Failure(error: string)
}
