/** Optional values and Kotlin-style results shared by every module of the model. */
module Wrappers {

  /** A nullable value: `None` stands for Kotlin's `null`. */
  datatype Option<+T> = None | Some(value: T)

  /** Kotlin's `Result<T>`: a value, or a failure carrying the exception's message. */
  datatype Result<+T> = Success(value: T) | Failure(message: string)

  /** `x ?: default` */
  function OrElse<T>(o: Option<T>, default: T): T
  {
    match o
    case Some(v) => v
    case None => default
  }
}
