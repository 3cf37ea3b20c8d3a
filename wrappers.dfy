/** Optional values and results with an error, shared by the other modules. */
module Wrappers {

  /** Swift's `Optional`: a value or nothing. */
  datatype Option<+T> = None | Some(value: T)

  /** The outcome of a throwing Swift function: a value, or the error it throws. */
  datatype Result<+T, +E> = Ok(value: T) | Err(error: E) {

    predicate IsFailure() {
      Err?
    }

    function PropagateFailure<U>(): Result<U, E>
      requires Err?
    {
      Err(error)
    }

    function Extract(): T
      requires Ok?
    {
      value
    }
  }
}
