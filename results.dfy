/** Optional values and typed failures, in place of Java's null and exceptions. */
module Results {

  /** A value that may be absent (a nullable reference or an empty Optional). */
  datatype Option<+T> = None | Some(value: T)

  /** A computed value or the failure that stopped the computation. */
  datatype Result<+T, +E> = Success(value: T) | Failure(error: E)

  /** An operation that returns nothing on success, or fails with an error. */
  datatype Outcome<+E> = Pass | Fail(error: E)
}
