/**
 * Failure-compatible wrappers shared by every module of the model.
 *
 * The tracker signals failures by raising Python exceptions (or by leaving a
 * local variable unbound, which raises when it is read).  The model returns a
 * `Result` instead; `Error` names the exception the source would raise.
 */
module Wrappers {

  datatype Option<T> = None | Some(value: T)

  /** The Python exception the source raises, with what it is about. */
  datatype Error =
    | AssertionError(message: string)
    | AttributeError(attribute: string)
    | IndexError(what: string)
    | UnboundLocalError(variable: string)
    | ValueError(message: string)
    | NameError(message: string)

  datatype Result<T> = Success(value: T) | Failure(error: Error)
  {
    predicate IsFailure() { Failure? }

    function PropagateFailure<U>(): Result<U>
      requires Failure?
    {
      Failure(error)
    }

    function Extract(): T
      requires Success?
    {
      value
    }
  }
}
