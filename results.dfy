/** Failure-carrying values shared by the whole model. */
module Results {

  /** A value that may be missing: the dashboards' optional deltas. */
  datatype Option<+T> = None | Some(value: T)

  /** The outcome of a call that may raise: `Err` carries the exception. */
  datatype Result<+T, +E> = Ok(value: T) | Err(error: E)
}
