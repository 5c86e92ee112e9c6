/** Option and Result datatypes shared by the other modules. */
module Wrappers {

  /** A value that may be absent; `None` also stands for Go's nil error. */
  datatype Option<+T> = None | Some(value: T)

  /** A value or the error that replaced it. */
  datatype Result<+T, +E> = Success(value: T) | Failure(error: E)
}
