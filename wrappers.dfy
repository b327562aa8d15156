/** Optional values and success-or-error results, used for the storage slot,
    for the fields a caller may omit and for every handler's outcome. */
module Wrappers {

  datatype Option<T> = None | Some(value: T)

  datatype Result<T, E> = Success(value: T) | Failure(error: E)
}
