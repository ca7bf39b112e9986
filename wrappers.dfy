/** Option and Result types shared by every module of the model. */
module Wrappers {

  /** A value that may be absent: Go's nil pointer, missing map entry or `ok == false`. */
  datatype Option<+T> = None | Some(value: T)

  /** A value or an error message: Go's `(T, error)` return pair. */
  datatype Result<+T> = Ok(value: T) | Err(error: string)
}
