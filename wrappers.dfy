/** Optional values and results with an error, used for empty board cells
    and for the error paths of the serialisers and the click handler. */
module Wrappers {
  datatype Option<+T> = None | Some(value: T)

  datatype Result<+T, +E> = Ok(value: T) | Err(error: E)
}
