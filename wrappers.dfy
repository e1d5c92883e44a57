/** Optional values and results with an error side, used for the CRM's
    optional fields and for the user-visible errors the actions throw. */
module Wrappers {

  datatype Option<+T> = None | Some(value: T)

  datatype Result<+R, +E> = Success(value: R) | Failure(error: E)
}
