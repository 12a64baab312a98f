/** Optional values and success/failure results, standing in for JavaScript's
    `null` returns and for the rejection reasons of the handlers. */
module Wrappers {

  datatype Option<+T> = None | Some(value: T)

  datatype Result<+T, +E> = Ok(value: T) | Err(error: E)
}
