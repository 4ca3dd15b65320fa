/** Option, the stand-in for JavaScript's `undefined` / `null` on optional fields and lookups, and Result. */
module Wrappers {

  datatype Option<T> = None | Some(value: T) {

    /** The value, or `default` when absent (`x ?? default`). */
    function GetOr(default: T): T {
      match this
      case Some(v) => v
      case None => default
    }
  }

  /** The outcome of an operation that may throw: its value, or the error thrown. */
  datatype Result<T, E> = Ok(value: T) | Err(error: E)
}
