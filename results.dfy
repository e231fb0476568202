/** Failure-compatible wrappers shared by the replay engine model. */
module Results {

  /** A value that may be absent: an optional field of a decoded JSON record. */
  datatype Option<+T> = None | Some(value: T)

  /** The outcome of an operation that can throw in the source. */
  datatype Result<+R, +E> = Success(value: R) | Failure(error: E)
}
