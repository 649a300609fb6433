/** Optional values and fallible results, used for the fields a JavaScript
    object may leave undefined and for remote calls that may throw. */
module Wrappers {

  datatype Option<+T> = None | Some(value: T) {

    /** The value if there is one, `default` otherwise. */
    function GetOr(default: T): T {
      match this
      case Some(v) => v
      case None => default
    }
  }

  datatype Result<+T, +E> = Ok(value: T) | Err(error: E)
}
