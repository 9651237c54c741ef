/** The stock carriers for absent values and refusals. */
module Wrappers {

  /** A value that may be absent: the source's `null` and `undefined`. */
  datatype Option<+T> = None | Some(value: T)

  /** A value or the reason it was refused: the source's thrown errors and `{ ok: false }` returns. */
  datatype Result<+T, +E> = Ok(value: T) | Err(error: E)
}
