/** Outcome types standing in for Go's `(value, error)` pairs. */
module Results {

  datatype Option<T> = None | Some(value: T)

  /** A call either produced a value or failed with the text of its Go `error`. */
  datatype Result<T> = Ok(value: T) | Err(msg: string)
}
