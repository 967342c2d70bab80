/** Option and Result types shared by the calculator modules. */
module Wrappers {

  /** A value that may be missing, such as the result of a dictionary lookup. */
  datatype Option<+T> = None | Some(value: T)

  /** Either a computed value or the error the computation raised. */
  datatype Result<+R, +E> = Success(value: R) | Failure(error: E)
}
