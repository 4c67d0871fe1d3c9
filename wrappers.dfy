/**
 * The optional value that stands in for `undefined`/`null` in the TypeScript
 * source, and what local storage holds under a key.
 */
module Wrappers {

  datatype Option<+T> = None | Some(value: T) {

    /** The wrapped value, or `default` when there is none (the source's `x || default`). */
    function GetOr(default: T): T {
      match this
      case Some(v) => v
      case None => default
    }
  }

  /** What local storage holds under a key: nothing (or ""), text that is not JSON, or a JSON value. */
  datatype Stored<T> = Absent | Unparsable | Json(value: T)
}
