/** Small failure-compatible wrappers shared by the other modules. */
module Results {

  /** A value that may be absent; Python's `None` is `None` here. */
  datatype Option<+T> = None | Some(value: T) {

    /** The value, or `default` when absent (Python's `x or default` on an optional). */
    function GetOr(default: T): T {
      match this
      case Some(v) => v
      case None => default
    }
  }

  /** Either a value or the error that stopped the computation. */
  datatype Result<+T, +E> = Ok(value: T) | Err(error: E)
}
