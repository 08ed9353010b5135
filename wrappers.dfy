/** The conventional Option datatype, used for JavaScript values that may be undefined. */
module Wrappers {
  datatype Option<+T> = None | Some(value: T) {
    /** The value, or the given default when there is none (JavaScript's `x || d` on an array). */
    function GetOr(default: T): T {
      match this
      case Some(v) => v
      case None => default
    }
  }
}
