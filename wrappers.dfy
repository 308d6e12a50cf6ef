/** Optional values and results with an error, as used across the model. */
module Wrappers {

  /** `None` stands for an absent value (JavaScript `undefined`/`null`, PHP `null`). */
  datatype Option<+T> = None | Some(value: T) {
    function GetOr(default: T): T {
      match this
      case Some(v) => v
      case None => default
    }
  }

  datatype Result<+T, +E> = Ok(value: T) | Err(error: E)
}
