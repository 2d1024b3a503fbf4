/** Failure-carrying values: JavaScript `undefined`/`null`, thrown errors and awaited calls that may reject. */
module Wrappers {

  /** A value that may be absent (`undefined` or `null` in the source). */
  datatype Option<+T> = None | Some(value: T)

  /** A thrown JavaScript `Error`, reduced to its message. */
  datatype Error = Error(message: string)

  /** The outcome of a call that either returns a value or throws. */
  datatype Result<+T> = Success(value: T) | Failure(error: Error)

  /** The outcome of a call that returns nothing or throws. */
  datatype Outcome = Pass | Fail(error: Error)
}
