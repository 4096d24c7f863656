/**
 * Optional values (JavaScript's `null` / `undefined` on one side, a present
 * value on the other) and the outcome of a backend call.
 */
module Wrappers {

  datatype Option<+T> = None | Some(value: T) {

    /** The value, or `default` when there is none (JavaScript's `x ?? default`). */
    function GetOr(default: T): T {
      match this
      case Some(v) => v
      case None => default
    }
  }

  /** The outcome of a backend call: the data it returned, or an error. */
  datatype Response<+T> = Ok(value: T) | Err
}
