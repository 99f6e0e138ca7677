/** Optional values: `None` stands for JavaScript's `undefined` (a missing
    property, a missing map entry) and, where a computation can throw, for the
    thrown exception. */
module Wrappers {

  datatype Option<+T> = None | Some(value: T) {

    /** The value, or `default` when there is none (JavaScript's `??`). */
    function GetOr(default: T): T {
      match this
      case Some(v) => v
      case None => default
    }
  }
}
