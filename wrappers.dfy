/** Option and Result, the two Rust wrappers the client's data model is built on. */
module Wrappers {
  datatype Option<T> = None | Some(value: T)
  {
    /** Rust's `unwrap_or`. */
    function UnwrapOr(default: T): T
    {
      if Some? then value else default
    }
  }

  /** A fallible call; `Err` carries the error message (anyhow's error in the client). */
  datatype Result<T> = Ok(value: T) | Err(error: string)
}
