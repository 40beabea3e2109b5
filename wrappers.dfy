/** Failure-compatible wrappers: Python's `None` and raised exceptions become values. */
module Wrappers {

  datatype Option<+T> = None | Some(value: T)

  /** The exception classes the modelled code can raise. */
  datatype Error =
    | IndexError
    | KeyError
    | ValueError
    | TypeError
    | ZeroDivisionError
    | FileNotFoundError

  datatype Result<+T> = Ok(value: T) | Err(error: Error) {
    predicate IsFailure() { Err? }

    function PropagateFailure<U>(): Result<U>
      requires Err?
    {
      Err(error)
    }

    function Extract(): T
      requires Ok?
    {
      value
    }
  }
}
