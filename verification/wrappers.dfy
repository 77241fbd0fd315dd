/** Failure-carrying values shared by every module of the model. */
module Wrappers {

  /** An optional value (Rust's `Option`). */
  datatype Option<+T> = None | Some(value: T)

  /** The outcome of a fallible operation (Rust's `anyhow::Result`). The error is kept
      as the text its `to_string()` renders, which is all the server ever uses of it. */
  datatype Result<+T> = Ok(value: T) | Err(error: string)
}
