/** Optional values (Python's `X | None`) and results of operations that can
    raise one of the domain errors. */
module Wrappers {

  datatype Option<+T> = None | Some(value: T)

  datatype Result<+T, +E> = Success(value: T) | Failure(error: E)
}
