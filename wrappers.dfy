/** Option and Result: the failure-carrying values the Rust code returns. */
module Wrappers {

  datatype Option<+T> = None | Some(value: T)

  datatype Result<+T, +E> = Ok(value: T) | Err(error: E)

  /** Unit stands for Rust's `()` in `Result<(), Error>`. */
  datatype Unit = Unit
}
