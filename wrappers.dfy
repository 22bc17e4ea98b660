/** Optional values and results with an error message, used for the
    replies of the cache store and of the database. */
module Wrappers {

  datatype Option<+T> = None | Some(value: T)

  datatype Result<+R, +E> = Success(value: R) | Failure(error: E)
}
