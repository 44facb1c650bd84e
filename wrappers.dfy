/** Optional values and results with an error, shared by every module of the model. */
module Wrappers {

  /** PHP `null` versus a present value. */
  datatype Option<+T> = None | Some(value: T)

  /** A computation that either returns a value or raises an error. */
  datatype Result<+T, +E> = Success(value: T) | Failure(error: E)
}
