/** Wrappers used by the keyboard model: an optional value (the source's
    `null`/`undefined`) and a value-or-error result (a value, or the error an
    operation throws). */
module Wrappers {

  datatype Option<+T> = None | Some(value: T)

  datatype Result<+T, +E> = Ok(value: T) | Err(error: E)
}
