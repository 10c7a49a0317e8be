/** Option and Result values, and the Python exceptions the modelled code can raise. */
module Wrappers {

  datatype Option<T> = None | Some(value: T)

  /** The exception classes the modelled code raises or lets escape. */
  datatype Exc =
    | KeyError
    | ValueError
    | TypeError
    | AttributeError
    | IndexError
    | JsonDecodeError
    | UnboundLocalError
    /** The unbounded conversation loop ran past the step bound it is given. */
    | StepBoundReached
    /** A request was sent with a prompt that was never loaded (`None`). */
    | MissingPrompt

  datatype Result<T> = Ok(value: T) | Err(error: Exc)
  {
    predicate IsFailure() { Err? }

    function PropagateFailure<U>(): Result<U>
      requires Err?
    {
      Err(error)
    }

    function Extract(): T
      requires Ok?
    {
      value
    }
  }
}
