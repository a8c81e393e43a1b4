/** Wrappers used throughout the model: `Option` stands for a
    Go pointer that may be nil, `Result` for a Go `(value, error)` pair in which
    exactly one side is meaningful. */
module Wrappers {

  datatype Option<+T> = None | Some(value: T)

  datatype Result<+T, +E> = Ok(value: T) | Err(error: E)
}
