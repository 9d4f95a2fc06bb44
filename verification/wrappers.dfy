/** Failure-compatible result types used across the model. */
module Wrappers {

  /** An optional value. */
  datatype Option<+T> = None | Some(value: T)

  /** Either a value or the error that stopped the computation (a raised `ValueError`/`TypeError`). */
  datatype Result<+R, +E> = Success(value: R) | Failure(error: E)
}
