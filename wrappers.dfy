/** Option and Result values for lookups that may miss and for the error returns of the Go code. */
module Wrappers {
  datatype Option<T> = None | Some(value: T)

  /**
   * The outcome of a Go call that returns `(value, error)`: `Ok` with the value, `Err` with the
   * error text, or `Panic` when the Go code would stop with a runtime panic (a failed type
   * assertion, a nil dereference or an index out of range) instead of returning.
   */
  datatype Result<T> = Ok(value: T) | Err(error: string) | Panic(reason: string)

  /** `errors.Wrap(err, message)` and `errors.Wrapf`: the message, a colon and the wrapped error. */
  function Wrap(err: string, message: string): string
  {
    message + ": " + err
  }
}
