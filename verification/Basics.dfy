/** The shapes every other module uses. */
module Basics {
  /** A nullable column, or a value that may be absent. */
  datatype Option<+T> = None | Some(value: T)

  /** What a call answers: a value, or the error its caller branches on. */
  datatype Result<+T, +E> = Ok(value: T) | Err(error: E)

  /** What became of a call: it never landed, it landed unheard, or it was answered. */
  datatype Fate = Lost | Unheard | Heard
}
