/** Option and Result, the failure-compatible shapes used throughout the model. */
module Wrappers {

  datatype Option<T> = None | Some(value: T)

  /** Either a value or the error a Python operation would raise. */
  datatype Result<T, E> = Ok(value: T) | Err(error: E) {

    predicate IsFailure() {
      Err?
    }

    function PropagateFailure<U>(): Result<U, E>
      requires Err?
    {
      Err(error)
    }

    function Extract(): T
      requires Ok?
    {
      value
    }
  }
}
