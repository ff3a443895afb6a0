/** Option and Result values used wherever the source returns `undefined`/`null` or throws. */
module Wrappers {

  datatype Option<+T> = None | Some(value: T) {
    function GetOr(default: T): T {
      match this
      case Some(v) => v
      case None => default
    }
  }

  /** A thrown `Error` is a `Failure` carrying the error's message. */
  datatype Result<+R> = Success(value: R) | Failure(error: string)
}
