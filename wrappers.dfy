/** Option and Result, the shapes every module uses for Python's None and for raised exceptions. */
module Wrappers {

  /** A value that may be absent: Python's None. */
  datatype Option<+T> = None | Some(value: T) {
    function GetOr(default: T): T {
      match this
      case Some(v) => v
      case None => default
    }
  }

  /** The outcome of a call that returns a value or raises: Err carries the exception's message. */
  datatype Result<+T, +E> = Ok(value: T) | Err(error: E)
}
