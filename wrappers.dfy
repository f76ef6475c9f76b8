/** Option, Result and Outcome: the failure-carrying values the rest of the model is built from. */
module Wrappers {

  /** A value that may be absent. */
  datatype Option<+T> = None | Some(value: T)

  /** A value or an error; usable with `:-` for early returns. */
  datatype Result<+T, +E> = Ok(value: T) | Err(error: E) {
    predicate IsFailure() { Err? }

    function PropagateFailure<U>(): Result<U, E>
      requires Err?
    {
      Err(error)
    }

    function Extract(): T
      requires Ok?
    {
      value
    }
  }

  /** The outcome of a foreign operation that either succeeds or fails with an error text. */
  datatype Outcome = Pass | Fail(error: string)
}
