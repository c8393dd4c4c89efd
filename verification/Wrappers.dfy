/** Optional values and results, in the shape of the source's pointers and (value, error) pairs. */
module Wrappers {
  /** A Go pointer to a scalar: nil or a value. */
  datatype Option<+T> = None | Some(value: T) {
    function GetOr(default: T): T {
      if Some? then value else default
    }
  }

  datatype Result<+T, +E> = Ok(value: T) | Err(error: E)
}
