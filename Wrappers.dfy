/** Option and Result: the failure-carrying values that stand in for the
    null/exit(1) paths of the front end. */
module Wrappers {

  datatype Option<+T> = None | Some(value: T)

  datatype Result<+T, +E> = Success(value: T) | Failure(error: E)
}
