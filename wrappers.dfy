/** Failure-compatible wrappers used throughout the model.
    `Result` stands for a Python computation that either returns a value or
    raises; the two exception kinds the normaliser can raise are named. */
module Wrappers {

  datatype Option<+T> = None | Some(value: T)

  /** The exceptions `build_rows_from_parsed` can raise on odd JSON shapes:
      `.get` on something that is not a dict, or iterating a number/bool/None. */
  datatype PyError = AttributeError | TypeError

  datatype Result<+T> = Ok(value: T) | Fail(error: PyError) {

    predicate IsFailure() {
      Fail?
    }

    function PropagateFailure<U>(): Result<U>
      requires Fail?
    {
      Fail(error)
    }

    function Extract(): T
      requires Ok?
    {
      value
    }
  }
}
