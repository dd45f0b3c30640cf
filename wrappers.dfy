/** The optional-value wrapper used throughout the model for JavaScript's
    `undefined` (a missing key, a `find` with no match, an absent callback). */
module Wrappers {

  datatype Option<+T> = None | Some(value: T) {

    /** The value, or `default` when absent (JavaScript's `??`). */
    function GetOr(default: T): T {
      match this
      case Some(v) => v
      case None => default
    }
  }
}
