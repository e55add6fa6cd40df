/** Option and Result, the shapes the model uses for Python's `None` and for
    calls that raise instead of returning. */
module Wrappers {

  datatype Option<+T> = None | Some(value: T)

  datatype Result<+R, +E> = Success(value: R) | Failure(error: E)
}
