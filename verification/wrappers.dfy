/** Option and result types shared by the model. */
module Wrappers {

  /** A value that may be absent, as Python's `None`. */
  datatype Option<+T> = None | Some(value: T)

  /** The outcome of a computation that may raise. */
  datatype Result<+R, +E> = Success(value: R) | Failure(error: E)
}
