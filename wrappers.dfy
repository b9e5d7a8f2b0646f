/** Optional values and fallible results, used for the empty slots of the
    log history and for the capacity errors of fixed-size strings. */
module Wrappers {

  datatype Option<+T> = None | Some(value: T)

  datatype Result<+R, +E> = Success(value: R) | Failure(error: E)
}
