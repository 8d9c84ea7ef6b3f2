/** Failure-compatible wrappers shared by every module of the model. */
module Wrappers {

  /** A Go value that may be nil. */
  datatype Option<+T> = None | Some(value: T) {
    function GetOr(default: T): T {
      match this
      case Some(v) => v
      case None => default
    }
  }

  /** A Go `(value, error)` pair in which exactly one side is meaningful. */
  datatype Result<+R, +E> = Ok(value: R) | Err(error: E) {
    predicate IsFailure() {
      Err?
    }

    function PropagateFailure<U>(): Result<U, E>
      requires Err?
    {
      Err(error)
    }

    function Extract(): R
      requires Ok?
    {
      value
    }
  }
}
