/** Plain optional and result datatypes: `Option` stands for Go's nil-able
    pointers, `Result` for Go's `(value, error)` returns. */
module Wrappers {

  /** A value that may be absent (a nil pointer or an absent map key in the source). */
  datatype Option<+T> = None | Some(value: T) {

    /** The wrapped value, or `default` when there is none. */
    function GetOr(default: T): T {
      match this
      case Some(v) => v
      case None => default
    }
  }

  /** The outcome of an operation that returns a Go `error`. */
  datatype Result<+T, +E> = Ok(value: T) | Err(error: E)
}
