/** Optional values and the outcome of a call that may throw. */
module Wrappers {

  /** A value that may be absent: JavaScript's `null`/`undefined` on one side, a value on the other. */
  datatype Option<+T> = None | Some(value: T) {
    function GetOr(default: T): T {
      match this
      case Some(v) => v
      case None => default
    }
  }

  /** How a JavaScript call completes: normally with a value, or by throwing. */
  datatype Completion<+T> = Normal(value: T) | Threw
}
