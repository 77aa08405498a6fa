/** Optional values and success-or-failure results, used for the adapters'
    optional request bodies and for the exceptions their operations throw. */
module Results {

  /** A value that may be absent. */
  datatype Option<+T> = None | Some(value: T)

  /** The outcome of an operation that either returns a value or throws. */
  datatype Result<+T, +E> = Success(value: T) | Failure(error: E)
}
