/** Option and Result values for the model's partial operations. */
module Wrappers {

  /** A value that may be absent; `None` stands for JavaScript's `undefined`. */
  datatype Option<+T> = None | Some(value: T)

  /** Either a value or the error that a JavaScript `throw` would have raised. */
  datatype Result<+T, +E> = Ok(value: T) | Err(error: E)
}
