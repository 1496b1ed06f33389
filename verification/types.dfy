/** Small value types shared by every module of the model. */
module Types {

  /** An optional value, as Rust's `Option`. */
  datatype Option<+T> = None | Some(value: T) {

    /** The wrapped value, or `default` when there is none (`unwrap_or`). */
    function UnwrapOr(default: T): T {
      match this
      case Some(v) => v
      case None => default
    }
  }

  /** A success value or an error, as Rust's `Result`. */
  datatype Result<+T, +E> = Ok(value: T) | Err(error: E)

  /** A `std::time::Duration`, counted in nanoseconds. */
  type Duration = nat

  /** A `std::time::SystemTime`, counted in nanoseconds since the Unix epoch. */
  type SystemTime = nat
}
