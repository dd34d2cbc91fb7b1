/** Optional values: `None` stands for JavaScript's `undefined` (a missing field or argument). */
module Wrappers {

  datatype Option<+T> = None | Some(value: T) {

    /** `x ?? d` for a value that is either present or undefined. */
    function GetOr(default: T): T {
      match this
      case Some(v) => v
      case None => default
    }
  }
}
