/** Option and Result: absence of a value and the outcome of an operation that may fail. */
module Wrappers {

  datatype Option<+T> = None | Some(value: T)

  /** Success carries the value; Failure carries what a rejected promise or a throw would carry. */
  datatype Result<+R, +E> = Success(value: R) | Failure(error: E)
}
