/** Optional values and failure-carrying results.

    `Option` models Python's `Optional[...]` fields and `None`; `Result`
    models a computation that either produces a value or raises. Both are
    used with Dafny's `:-` operator in the run coordinator.
 */
module Options {

  /** A value that may be absent (Python's `None`). */
  datatype Option<+T> = None | Some(value: T)

  /** Either a value, or the error that stopped the computation. */
  datatype Result<+T, +E> = Success(value: T) | Failure(error: E) {

    predicate IsFailure() {
      Failure?
    }

    function PropagateFailure<U>(): Result<U, E>
      requires Failure?
    {
      Failure(error)
    }

    function Extract(): T
      requires Success?
    {
      value
    }
  }
}
