/** Optional values and fallible outcomes, used by every module of the model. */
module Wrappers {

  /** A value that may be absent: Rust's `Option`, or an optional TypeScript field. */
  datatype Option<+T> = None | Some(value: T) {

    /** Rust's `unwrap_or`: the carried value, or `default` when there is none. */
    function GetOr(default: T): T {
      if Some? then value else default
    }
  }

  /** The outcome of a fallible step: Rust's `Result<T, E>`. */
  datatype Result<+T, +E> = Ok(value: T) | Err(error: E)
}
