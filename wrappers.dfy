/** Option and Result values shared by the modules of the model. */
module Wrappers {

  /** A value that may be absent; pandas' NaN in a numeric column is modelled as None. */
  datatype Option<+T> = None | Some(value: T)

  /** The outcome of a call that may raise. */
  datatype Result<+R, +E> = Success(value: R) | Failure(error: E)
}
