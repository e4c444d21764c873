/**
 * Failure-carrying values shared by every module of the model.
 *
 * Each `throw fire::Exception(category, message, ...)` of the simulation
 * becomes `Err(category)`: the category string is what callers and tests of
 * the original code match on, the human-readable message is not modelled.
 */
module Wrappers {

  /** A value that may be absent (a null pointer, a missing map entry). */
  datatype Option<+T> = None | Some(value: T)

  /** The outcome of an operation that may throw. */
  datatype Result<+T> = Ok(value: T) | Err(error: string) {

    predicate IsFailure() {
      Err?
    }

    function PropagateFailure<U>(): Result<U>
      requires Err?
    {
      Err(error)
    }

    function Extract(): T
      requires Ok?
    {
      value
    }
  }
}
