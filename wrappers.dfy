/** Option and Result, the two failure-carrying datatypes the model uses in place of
    JavaScript's null/undefined and of thrown exceptions. */
module Wrappers {

  datatype Option<+T> = None | Some(value: T) {

    /** The value, or `default` when there is none (JavaScript's `x ?? default`). */
    function GetOr(default: T): T {
      match this
      case Some(v) => v
      case None => default
    }
  }

  /** A computation that either produced a value or threw an error with a message. */
  datatype Result<+T, +E> = Success(value: T) | Failure(error: E)

  /** A step that either went through or threw an error with a message. */
  datatype Outcome<+E> = Pass | Fail(error: E)
}
