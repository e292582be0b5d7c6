/** Option and Result, standing for the nullable values and the thrown errors of the source. */
module Wrappers {

  /** A value that may be absent (JavaScript `null`/`undefined`, Python `None`). */
  datatype Option<+T> = None | Some(value: T)

  /** The outcome of an operation that may throw: a value, or the error's message. */
  datatype Result<+R> = Success(value: R) | Failure(error: string)
}
