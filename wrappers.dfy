/** Optional values and results with an error message. */
module Wrappers {

  /** `None` stands for a JavaScript value that is absent or NaN. */
  datatype Option<+T> = None | Some(value: T) {
    function GetOr(default: T): T {
      match this
      case Some(v) => v
      case None => default
    }
  }

  /** The outcome of an operation that may throw an `Error` with a message. */
  datatype Result<+T> = Ok(value: T) | Err(message: string)
}
