/** Option and Result values used where the handlers see a missing value or an error. */
module Wrappers {

  datatype Option<+T> = None | Some(value: T)

  /** The outcome of a call that yields a value or an error message. */
  datatype Result<+R> = Success(value: R) | Failure(error: string)
}
