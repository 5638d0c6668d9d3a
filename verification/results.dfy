/** Optional references and call outcomes, so that Java's `null` and its
    exceptions can be written as ordinary values. */
module Results {

  /** A possibly-null reference. */
  datatype Option<+T> = None | Some(value: T)

  /** The outcome of a call that may throw. */
  datatype Result<+T, +E> = Success(value: T) | Failure(error: E) {

    predicate IsFailure() {
      Failure?
    }

    function PropagateFailure<U>(): Result<U, E>
      requires Failure?
    {
      Failure(error)
    }

    function Extract(): T
      requires Success?
    {
      value
    }
  }
}
