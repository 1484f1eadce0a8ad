/** Shared value types. */
module Common {

  datatype Option<+T> = None | Some(value: T)

  datatype Result<+T, +E> = Ok(value: T) | Err(error: E)

  /** A typed pointer to another object, as the cognition models define it. */
  datatype Reference = Reference(kind: string, id: string)
}
