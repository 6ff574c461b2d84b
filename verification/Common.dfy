/** Datatypes every module shares. */
module Common {
  datatype Option<+T> = None | Some(value: T)

  datatype Result<+T, +E> = Ok(value: T) | Err(error: E)

  /** A JSON field read with `is True` / `is False`: absent, or one of the two booleans. */
  datatype Flag = Missing | Yes | No
}
