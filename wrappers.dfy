/**
 * Optional values and results shared by every product model.
 *
 * `Option` stands for a Python value that may be `None`; `Result` stands for
 * a computation that either returns a value or raises one of the exceptions
 * the readers raise.  Exception messages are not modelled, only their kind.
 */
module Wrappers {

  datatype Option<T> = None | Some(value: T)

  /** The exception kinds raised by the modelled readers. */
  datatype Error =
    | InvalidProductError
    | InvalidTypeError
    | NotImplementedError
    | KeyError
    | IndexError
    | ValueError
    | AttributeError
    | AssertionError
    | TypeError

  /** The outcome of a procedure that returns nothing but may raise. */
  datatype Outcome = Success | Failure(error: Error)

  datatype Result<T> = Ok(value: T) | Err(error: Error)
  {
    predicate IsFailure() { Err? }

    function PropagateFailure<U>(): Result<U>
      requires Err?
    {
      Err(error)
    }

    function Extract(): T
      requires Ok?
    {
      value
    }
  }
}
