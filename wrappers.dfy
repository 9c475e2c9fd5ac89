/** Optional values and fallible results, used where the component checks
    for a missing value (an absent track, a missing agent) or fails. */
module Wrappers {

  datatype Option<+T> = None | Some(value: T)

  datatype Result<+T, +E> = Ok(value: T) | Err(error: E)
}
