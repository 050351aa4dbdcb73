/** Optional values and results with an error, used where the tool either has a
    value or has none (a role that was not found, a call that raised). */
module Wrappers {

  datatype Option<+T> = None | Some(value: T)

  datatype Result<+T, +E> = Ok(value: T) | Err(error: E)
}
