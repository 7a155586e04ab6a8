/** Option and Result, used for absent values the source dereferences and for
    operations that either produce a value or fail. */
module Wrappers {

  datatype Option<+T> = None | Some(value: T)

  datatype Result<+R, +E> = Success(value: R) | Failure(error: E)
}
