/** Option and Result, used for values the camera controller may lack and
    for the errors its operations raise. */
module Wrappers {

  datatype Option<+T> = None | Some(value: T)

  /** Success carries the value an operation returns; Failure the error it raises. */
  datatype Result<+R, +E> = Success(value: R) | Failure(error: E)
}
