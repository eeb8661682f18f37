/** Optional values and results with an error, shared by the two analyses. */
module Outcomes {

  /** A value that may be absent (numpy's `nan` where an input is empty). */
  datatype Option<+T> = None | Some(value: T)

  /** A value, or the reason the script would have faulted instead of producing it. */
  datatype Result<+T, +E> = Ok(value: T) | Err(error: E)
}
