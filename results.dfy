/** Option and Result values used where the source returns `null`/`undefined` or throws. */
module Results {

  datatype Option<+T> = None | Some(value: T)

  /** `Ok` is a normal return; `Err` carries what the source would throw or respond with. */
  datatype Result<+T, +E> = Ok(value: T) | Err(error: E)
}
