/** The two result shapes the source expresses with `None` and with exceptions. */
module Results {
  datatype Option<+T> = None | Some(value: T)
  datatype Result<+T, +E> = Ok(value: T) | Err(error: E)
}
