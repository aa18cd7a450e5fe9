/** Optional values: the model's stand-in for JavaScript's `undefined`/`null`
    fields and for an expression that would throw a TypeError. */
module Wrappers {

  datatype Option<+T> = None | Some(value: T) {

    /** Returns the value held in Some, or `default` when None. */
    function GetOr(default: T): T {
      match this
      case Some(v) => v
      case None => default
    }
  }
}
