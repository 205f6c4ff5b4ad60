/** Result types shared by the model. */
module Wrappers {
  datatype Option<+T> = None | Some(value: T)

  datatype Result<+T, +E> = Ok(value: T) | Err(error: E)

  /** The outcome of code that may panic: the regex engine is used with `unwrap`. */
  datatype Checked<+T> = Value(value: T) | Panicked

  function One(b: bool): nat {
    if b then 1 else 0
  }
}
