/** Absence and failure, shared by every module. */
module Wrappers {
  datatype Option<+T> = None | Some(value: T)

  /** Failure-compatible, so `:-` returns early on Err. */
  datatype Result<+T, +E> = Ok(value: T) | Err(error: E) {
    predicate IsFailure() { Err? }

    function PropagateFailure<U>(): Result<U, E>
      requires Err?
    {
      Err(error)
    }

    function Extract(): T
      requires Ok?
    {
      value
    }
  }
}
