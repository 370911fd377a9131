/** Failure-compatible wrappers shared by every module of the model. */
module Wrappers {

  datatype Option<+T> = None | Some(value: T)

  /** The outcome of a call that either returns a value or raises. */
  datatype Result<+R, +E> = Success(value: R) | Failure(error: E) {
    predicate IsFailure() {
      Failure?
    }

    function PropagateFailure<U>(): Result<U, E>
      requires Failure?
    {
      Failure(error)
    }

    function Extract(): R
      requires Success?
    {
      value
    }
  }
}

/** The Python exceptions the modelled code raises, with the messages it raises them with. */
module Exceptions {

  datatype Exception =
    | ValueError(msg: string)
    | NotImplementedError(msg: string)
    | KeyError(key: string)
    | AttributeError(name: string)
    | NameError(name: string)
    | IndexError(index: int)
    /** `sys.exit(code)`: not an error, but it ends the call all the same. */
    | SystemExit(code: int)
}
