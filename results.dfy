/** Optional values and the outcome of an operation that may throw. */
module Results {

  datatype Option<+T> = None | Some(value: T)

  /** The outcome of a call that either returns a value or throws an `Error`
      whose `message` is `message`. */
  datatype Result<+T> = Ok(value: T) | Err(message: string)
}
