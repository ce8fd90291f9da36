/** Failure-compatible wrappers used throughout the model: an optional value
    and a value-or-error result standing in for the exceptions the Python
    code raises. */
module Results {

  datatype Option<+T> = None | Some(value: T)

  datatype Result<+T, +E> = Ok(value: T) | Err(error: E)
}
