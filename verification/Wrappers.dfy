/** Shared option and result types. */
module Wrappers {

  /** A value that may be absent: Go's nil pointer or missing key. */
  datatype Option<+T> = None | Some(value: T) {
    function GetOr(default: T): T {
      match this
      case Some(v) => v
      case None => default
    }
  }

  /** A value, or the error the operation returned instead. */
  datatype Result<+T, +E> = Ok(value: T) | Err(error: E)
}
