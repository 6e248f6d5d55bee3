/** Optional values (Java's nullable references) and success-or-failure results (Java's exceptions). */
module Wrappers {

  /** `None` stands for a Java `null`, `Some(v)` for a non-null reference to `v`. */
  datatype Option<+T> = None | Some(value: T)

  /** `Failure(e)` stands for an exception the Java code throws to its caller. */
  datatype Result<+R, +E> = Success(value: R) | Failure(error: E)
}
