/**
 * Optional values, and results that carry the Python exception a call
 * would raise instead of returning.
 */
module Wrappers {
  datatype Option<T> = None | Some(value: T)

  /** The exception classes the modelled Python code raises or lets through. */
  datatype Error =
    | AssertionError(message: string)
    | ValueError(message: string)
    | IndexError(message: string)
    | TypeError(message: string)
    | AttributeError(message: string)
    | OverflowError(message: string)

  datatype Result<T> = Ok(value: T) | Err(error: Error)
  {
    predicate IsFailure() { Err? }

    function PropagateFailure<U>(): Result<U>
      requires Err?
    {
      Err(error)
    }

    function Extract(): T
      requires Ok?
    {
      value
    }
  }
}
