/** Option and Result, used throughout the model: a Go nil pointer or
    absent field becomes None, a Go `(value, error)` pair becomes a Result. */
module Wrappers {

  datatype Option<+T> = None | Some(value: T) {
    function GetOr(default: T): T {
      match this
      case Some(v) => v
      case None => default
    }
  }

  datatype Result<+T, +E> = Ok(value: T) | Err(error: E)
}
