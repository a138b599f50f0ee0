/** Small datatypes shared by every module. */
module Common {

  datatype Option<+T> = None | Some(value: T)

  /** A computation that delivers a value or raises. */
  datatype Res<+T, +E> = Ok(value: T) | Err(error: E)
}
