/** Option and Result, the failure-carrying values used across the model. */
module Wrappers {

  /** `None` stands for a missing value (pandas NaN, an absent key). */
  datatype Option<+T> = None | Some(value: T)

  /** The outcome of an operation that the source lets raise; `:-` propagates the error. */
  datatype Result<+R, +E> = Ok(value: R) | Err(error: E) {
    predicate IsFailure() {
      Err?
    }

    function PropagateFailure<U>(): Result<U, E>
      requires Err?
    {
      Err(error)
    }

    function Extract(): R
      requires Ok?
    {
      value
    }
  }
}
