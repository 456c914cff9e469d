/** Optional values and results, shared by every store. */
module Wrappers {

  /** A value that may be absent (`null`/`undefined` on the JavaScript side). */
  datatype Option<+T> = None | Some(value: T) {
    function GetOr(default: T): T {
      match this
      case Some(v) => v
      case None => default
    }
  }

  /** The outcome of an operation that rethrows on failure. */
  datatype Result<+T, +E> = Ok(value: T) | Err(error: E)
}
