/** Optional values and results with an error, used wherever the source returns
    None or raises instead of producing a value. */
module Wrappers {

  datatype Option<+T> = None | Some(value: T)

  datatype Result<+T, +E> = Ok(value: T) | Err(error: E)
}
