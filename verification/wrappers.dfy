/** Option and Result, the two failure-carrying shapes the webhook needs:
    a Go nil map or pointer becomes None, a Go `(value, error)` pair a Result. */
module Wrappers {

  datatype Option<+T> = None | Some(value: T)

  datatype Result<+R, +E> = Success(value: R) | Failure(error: E)
}
