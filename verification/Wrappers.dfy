/** Failure-compatible wrappers shared by the saved-query model. */
module Wrappers {

  datatype Option<+T> = None | Some(value: T)

  /** Either a value or the error that aborted the computation
      (the model of a thrown QueryParsingException). */
  datatype Result<+T, +E> = Success(value: T) | Failure(error: E) {
    predicate IsFailure() {
      Failure?
    }

    function PropagateFailure<U>(): Result<U, E>
      requires Failure?
    {
      Failure(error)
    }

    function Extract(): T
      requires Success?
    {
      value
    }
  }
}
