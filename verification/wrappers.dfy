/** Failure-compatible wrappers: `Option` stands for a Java reference that may be
    null, `Result` for a computation that may end in a Java exception. */
module Wrappers {

  datatype Option<+T> = None | Some(value: T)

  datatype Result<+T, +E> = Ok(value: T) | Err(error: E)
}
