/** Option and Result datatypes for the model's error paths. */
module Wrappers {

  datatype Option<+T> = None | Some(value: T) {
    /** The wrapped value, or `default` when there is none. */
    function GetOr(default: T): T {
      match this
      case Some(v) => v
      case None => default
    }
  }

  /** A computation that either succeeds with a value or fails with a message. */
  datatype Result<+T> = Ok(value: T) | Err(error: string)
}
