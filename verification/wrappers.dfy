/** Failure-carrying result types used by the prediction engine. */
module Wrappers {

  /** A value that may be absent, as a missing key of a JavaScript object is. */
  datatype Option<+T> = None | Some(value: T)

  /** Either a computed value or the error the engine throws instead. */
  datatype Result<+R, +E> = Success(value: R) | Failure(error: E)
}
