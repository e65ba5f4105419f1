/** Failure-compatible values shared by the whole project. */
module Values {
  datatype Option<+T> = None | Some(value: T)

  datatype Result<+T> = Ok(value: T) | Err
}
