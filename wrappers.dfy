// Option and Result, and the Python exception kinds the modelled code can raise.
module Wrappers {

  datatype Option<T> = None | Some(value: T)

  /** The exception a Python operation raises, named by its class. */
  datatype Error =
    | ValueError(msg: string)
    | KeyError(key: string)
    | IndexError(what: string)
    | TypeError(msg: string)
    | AttributeError(name: string)
    | AssertionError
    | ValidationError(msg: string)
    | UnboundLocalError(name: string)
    | StopIteration
    | RecursionLimit
    | Exception(msg: string)   // a bare `raise Exception(...)`
    | Raised(msg: string)   // an exception raised by a collaborator outside the model

  datatype Result<T> = Ok(value: T) | Err(error: Error)
  {
    predicate IsFailure() { Err? }
    function PropagateFailure<U>(): Result<U> requires Err? { Err(error) }
    function Extract(): T requires Ok? { value }
  }
}
