/** Exceptions the packing engine raises, as values. */
module Errors {
  /** The Python exception classes raised by the modelled operations. */
  datatype Error = TypeError | ValueError | ZeroDivisionError

  datatype Option<T> = None | Some(value: T)

  datatype Result<T> = Ok(value: T) | Err(error: Error)

  /** Outcome of an operation that returns nothing on success. */
  datatype Outcome = Pass | Fail(error: Error)
}
