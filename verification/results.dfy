/** Optional values and success-or-error results, used where the plugin
    leaves a property unset or throws. */
module Results {

  /** A value that may be absent, such as a property that was never set. */
  datatype Option<+T> = None | Some(value: T)

  /** The outcome of an action that either completes with a value or
      fails with an error in place of a thrown exception. */
  datatype Result<+T, +E> = Success(value: T) | Failure(error: E)
}
