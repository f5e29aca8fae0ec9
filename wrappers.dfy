/** Option and the result of a step that can end the process with a panic. */
module Wrappers {

  /** Rust's `Option`. */
  datatype Option<+T> = None | Some(value: T) {

    /** The value, or `default` when there is none (`Option::unwrap_or`). */
    function GetOr(default: T): T {
      match this
      case Some(v) => v
      case None => default
    }
  }

  /** The outcome of an operation that either succeeds or panics (an `unwrap`
      on `None`/`Err`, `Vec::remove` on an empty vector). */
  datatype Result<+T> = Ok(value: T) | Panic(message: string)
}
