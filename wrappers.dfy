/** Optional values and results of calls that may raise. */
module Wrappers {

  datatype Option<+T> = None | Some(value: T) {
    function GetOr(default: T): T {
      match this
      case Some(v) => v
      case None => default
    }
  }

  /** The outcome of a call into a service: a value, or the text of the exception it raised. */
  datatype Result<+R> = Success(value: R) | Failure(error: string)
}
