/** Option and Result datatypes shared by the other modules: Option for
    JavaScript/Java/Python values that may be null or absent, Result for
    operations that either produce a value or throw. */
module Wrappers {

  datatype Option<+T> = None | Some(value: T)

  datatype Result<+R, +E> = Success(value: R) | Failure(error: E)
}
