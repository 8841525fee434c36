/** Option and Result: the shapes of "undefined or a value" and "a value or an error". */
module Wrappers {

  /** `None` plays JavaScript's `undefined`. */
  datatype Option<+T> = None | Some(value: T)

  datatype Result<+R, +E> = Success(value: R) | Failure(error: E)
}
