/** Optional values and failure-carrying results shared by the pipeline stages. */
module Results {

  /** A value that may be absent: Python's `None` or an actual value. */
  datatype Option<T> = None | Some(value: T)

  /** The outcome of a computation that may raise: a value or the error it stopped with. */
  datatype Result<T, E> = Ok(value: T) | Err(error: E)
}
