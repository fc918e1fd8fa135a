/** Option and Result, used for absent values (a null argument) and for
    operations that either produce a value or fail. */
module Wrappers {

  datatype Option<+T> = None | Some(value: T)

  datatype Result<+T, +E> = Success(value: T) | Failure(error: E)
}
