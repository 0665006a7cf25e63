/** Option and Result datatypes used across the model; `Result` is failure-compatible
    so that `:-` can propagate the Python exceptions the model represents as values. */
module Wrappers {

  datatype Option<+T> = None | Some(value: T) {
    /** The encapsulated value, or `default` when there is none. */
    function GetOr(default: T): T {
      match this
      case Some(v) => v
      case None => default
    }
  }

  datatype Result<+T, +E> = Ok(value: T) | Err(error: E) {
    predicate IsFailure() {
      Err?
    }

    function PropagateFailure<U>(): Result<U, E>
      requires Err?
    {
      Err(error)
    }

    function Extract(): T
      requires Ok?
    {
      value
    }
  }
}
