/** Option and Result, the shapes JavaScript expresses with `undefined`/`null` and early returns. */
module Wrappers {

  datatype Option<+T> = None | Some(value: T)

  datatype Result<+R, +E> = Success(value: R) | Failure(error: E)
}
