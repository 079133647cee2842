/** Identifiers, clock readings and the result shapes shared by the whole model. */
module Common {

  /** Surrogate key of a stored record (the entities' generated `Long id`). */
  type Id = nat

  /** A clock reading. Every `LocalDateTime.now()` of the application becomes an explicit parameter. */
  type Time = int

  /** A value that may be absent: Java's `null`. */
  datatype Option<T> = None | Some(value: T)

  /** A service call either returns a value or throws a `RuntimeException` carrying a message. */
  datatype Result<T> = Success(value: T) | Failure(message: string)
}
