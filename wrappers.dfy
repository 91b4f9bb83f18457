/** Option and Result, the failure-carrying datatypes the rest of the model uses. */
module Wrappers {

  datatype Option<+T> = None | Some(value: T)

  /** A JavaScript call either returns a value or throws; `Failure` carries what is thrown. */
  datatype Result<+R, +E> = Success(value: R) | Failure(error: E)
}
