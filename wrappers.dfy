/** Option and Result, the failure-compatible wrappers used by the model. */
module Wrappers {

  /** A value that may be absent; stands for a .NET reference that may be null. */
  datatype Option<+T> = None | Some(value: T)

  /** The outcome of an operation that either succeeds or throws. */
  datatype Result<+T, +E> = Ok(value: T) | Err(error: E)
  {
    predicate IsFailure() { Err? }

    function PropagateFailure<U>(): Result<U, E>
      requires Err?
    {
      Err(error)
    }

    function Extract(): T
      requires Ok?
    {
      value
    }
  }
}
