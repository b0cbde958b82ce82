/** Option and Result values for the operations whose Python originals raise or return None. */
module Wrappers {

  datatype Option<+T> = None | Some(value: T)

  /** Success carries the value; Failure carries the message of the exception Python would raise. */
  datatype Result<+R, +E> = Success(value: R) | Failure(error: E)
}
