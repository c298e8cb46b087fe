/** Option and Result, and the error values a JavaScript call can raise. */
module Wrappers {

  /** A value that may be absent: an optional field, or `undefined`. */
  datatype Option<+T> = None | Some(value: T) {
    function GetOr(default: T): T {
      match this
      case Some(v) => v
      case None => default
    }
  }

  /** A JavaScript error object: the constructor that raised it and its message. */
  datatype Error = Error(message: string) | TypeError(message: string)

  /** A call either returns a value or throws an error. */
  datatype Result<+T> = Ok(value: T) | Err(error: Error)
}
