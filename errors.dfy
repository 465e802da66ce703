/** The exceptions the modelled code raises, and the Option/Result wrappers that carry them. */
module Errors {

  /** Python's None, or a value. */
  datatype Option<+T> = None | Some(value: T)

  /** The Python exceptions raised by the modelled code (only the kind, and the message where the
      code formats one). */
  datatype Error =
    | ValueError(msg: string)
    | NotImplementedError(msg: string)
    | TypeError
    | KeyError
    | IndexError
    | AssertionError
    | ZeroDivisionError
    | LinAlgError       // numpy.linalg.solve on a singular system
    | StopIteration     // next() on a generator that has finished
    | UnboundLocalError // a local variable read before any assignment

  /** The value an operation returns, or the exception it raises. */
  datatype Result<+T> = Ok(value: T) | Err(error: Error)
}
