/** Option and Result, used for nil-able returns and for the panic of WithChannel. */
module Wrappers {

  datatype Option<+T> = None | Some(value: T)

  datatype Result<+R, +E> = Success(value: R) | Failure(error: E)
}
