/** Optional values and results with an error message, used for JavaScript's
    `undefined` and for thrown errors throughout the model. */
module Wrappers {

  datatype Option<+T> = None | Some(value: T) {
    function GetOr(default: T): T {
      match this
      case Some(v) => v
      case None => default
    }
  }

  /** A computation that either yields a value or raises an error with a message. */
  datatype Result<+T> = Ok(value: T) | Err(message: string)
}
