/** Option, Result and Outcome: the error-carrying values the model returns
    in place of Rust's `Option`, `anyhow::Result<T>` and `anyhow::Result<()>`. */
module Wrappers {

  datatype Option<T> = None | Some(value: T)

  datatype Result<T, E> = Ok(value: T) | Err(error: E)

  /** The value of a `Result<()>`: either the run went through or it bailed with an error. */
  datatype Outcome<E> = Pass | Fail(error: E)
}
