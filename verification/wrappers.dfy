/** Optional values and results with an error, for the absent fields and thrown errors of the source. */
module Wrappers {

  datatype Option<+T> = None | Some(value: T)

  datatype Result<+R, +E> = Success(value: R) | Failure(error: E)
}
