/** Optional values and value-or-error results, used for every fallible
    collaborator outcome in the model. */
module Wrappers {

  datatype Option<+T> = None | Some(value: T)

  datatype Result<+T, +E> = Success(value: T) | Failure(error: E)
}
