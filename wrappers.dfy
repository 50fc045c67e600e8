/** The absent-or-present value used wherever the application returns `null`
    or leaves an optional field `undefined`. */
module Wrappers {

  datatype Option<+T> = None | Some(value: T) {

    /** The value, or `default` when absent (the `??` / `||` fallbacks). */
    function GetOr(default: T): T {
      match this
      case Some(v) => v
      case None => default
    }

    /** This value when present, otherwise `other` (one key of an object
        spread: a later present key wins). */
    function Or(other: Option<T>): Option<T> {
      if Some? then this else other
    }
  }
}
