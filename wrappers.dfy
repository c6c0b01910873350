/** Option and Result, the failure-carrying types the rest of the model uses. */
module Wrappers {

  datatype Option<+T> = None | Some(value: T) {
    function GetOr(default: T): T {
      match this
      case Some(v) => v
      case None => default
    }
  }

  /** A PHP call either returns a value or throws; `Err` stands for the throw. */
  datatype Result<+T, +E> = Ok(value: T) | Err(error: E)
}
