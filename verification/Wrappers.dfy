/** Optional values and results, shared by the other modules. */
module Wrappers {

  /** A nullable column, a missing map entry or an absent argument. */
  datatype Option<+T> = None | Some(value: T)

  datatype Result<+T, +E> = Ok(value: T) | Err(error: E)
}
