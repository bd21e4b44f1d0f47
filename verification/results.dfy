/** Failure-compatible wrappers used to model Java's nullable values and exceptions. */
module Results {

  /** A value that may be absent; models a Java reference that may be null. */
  datatype Option<+T> = None | Some(value: T)

  /** Either a value or the error that a Java method would have thrown instead. */
  datatype Result<+T, +E> = Success(value: T) | Failure(error: E) {

    predicate IsFailure() {
      Failure?
    }

    function PropagateFailure<U>(): Result<U, E>
      requires Failure?
    {
      Failure(error)
    }

    function Extract(): T
      requires Success?
    {
      value
    }
  }
}
