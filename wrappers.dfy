/** Option and Result values shared by every module of the model. */
module Wrappers {

  /** A value that may be absent: SQL NULL, a missing dictionary key, Python None. */
  datatype Option<+T> = None | Some(value: T) {
    function GetOr(default: T): T {
      match this
      case Some(v) => v
      case None => default
    }
  }

  /** The outcome of an operation that can raise: the value, or the exception it raised. */
  datatype Result<+T, +E> = Ok(value: T) | Err(error: E)
}
