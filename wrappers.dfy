/** Option and Result, the stand-ins for `undefined` and for thrown errors. */
module Wrappers {

  datatype Option<+T> = None | Some(value: T) {
    function GetOr(default: T): T {
      match this
      case Some(v) => v
      case None => default
    }
  }

  /** A validator either returns its value or throws an Error carrying `error`. */
  datatype Result<+T> = Success(value: T) | Failure(error: string)
}
