/** Option and Result, used for the nullable state of the client and the
    error path of the backend. */
module Wrappers {
  datatype Option<+T> = None | Some(value: T)

  datatype Result<+R, +E> = Success(value: R) | Failure(error: E)
}
