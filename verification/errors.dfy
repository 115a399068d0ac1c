/** The exception kinds the caller raises, and the shapes that carry a value or one
    of them out of an operation. */
module Errors {

  /** Every failure a call can end in. The first two are the package's own exception
      classes; the next three are the Python built-ins the code raises itself;
      `ForeignError` is any exception raised inside a provider SDK or HTTP library,
      kept with its class name and message. `InvalidModelError` is declared by the
      package but never raised, so it has no constructor here. */
  datatype Error =
    | InvalidServiceError(message: string)
    | ApiCallError(message: string)
    | ValueError(message: string)
    | RuntimeError(message: string)
    | NotImplementedError(message: string)
    | ForeignError(kind: string, message: string)

  /** A return value, or the exception that was raised instead. */
  datatype Result<+T> = Ok(value: T) | Err(error: Error)

  /** Python's `None` or a present value. */
  datatype Option<+T> = None | Some(value: T)
}
