/** Option and Result values, used for optional configuration fields and for
    the errors the limiter and the registry raise. */
module Wrappers {

  datatype Option<+T> = None | Some(value: T)

  datatype Result<+R, +E> = Success(value: R) | Failure(error: E)
}
