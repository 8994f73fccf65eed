/** Optional values and success/failure results shared by every module. */
module Wrappers {

  /** A value that may be absent: an `undefined` field in the client, an `Option` on the server. */
  datatype Option<+T> = None | Some(value: T) {

    /** The value, or `default` when absent (the `??` operator of the client). */
    function GetOr(default: T): T {
      match this
      case Some(v) => v
      case None => default
    }
  }

  /** The successful value or the error of a fallible server call. */
  datatype Result<+T, +E> = Ok(value: T) | Err(error: E)
}
