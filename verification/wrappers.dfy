/** Optional values (Java's null) and results that carry an exception instead of a value. */
module Wrappers {

  /** `None` stands for a Java `null`. */
  datatype Option<+T> = None | Some(value: T)

  /** `Failure` stands for an exception thrown by the source. */
  datatype Result<+R, +E> = Success(value: R) | Failure(error: E)
}
