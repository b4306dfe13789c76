/** Option and Result, the shapes of Rust's `Option<T>` and `Result<T, String>`. */
module Wrappers {

  datatype Option<+T> = None | Some(value: T)

  /** A `Result<T, String>`: the backend reports every error as a message. */
  datatype Result<+T> = Ok(value: T) | Err(error: string)
}
