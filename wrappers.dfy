/** Optional values (Ruby's nil) and results that may carry an error (Ruby's raise). */
module Wrappers {

  datatype Option<+T> = None | Some(value: T)

  datatype Result<+R, +E> = Success(value: R) | Failure(error: E)
}
