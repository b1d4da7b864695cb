/** Failure-carrying values shared by the footprint modules. */
module Results {

  /** A value that may be absent: a field that does not read as a number, a missing record. */
  datatype Option<+T> = None | Some(value: T)

  /** The outcome of an operation that either produces a value or is rejected with a reason. */
  datatype Result<+T, +E> = Success(value: T) | Failure(error: E)
}
