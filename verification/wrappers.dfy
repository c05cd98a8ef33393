/** Option and Result: a value that may be absent (`null` or `undefined`), and
    a computation that either yields a value or throws an error. */
module Wrappers {

  datatype Option<+T> = None | Some(value: T)

  datatype Result<+R, +E> = Success(value: R) | Failure(error: E)
}
