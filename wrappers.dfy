/**
 * Optional values: `None` is an absent JavaScript value. Where `undefined` and `null` would
 * behave differently, the use says which one it stands for.
 */
module Wrappers {

  datatype Option<+T> = None | Some(value: T) {

    /** The value, or `default` when absent. */
    function GetOr(default: T): T {
      match this
      case Some(v) => v
      case None => default
    }
  }
}
