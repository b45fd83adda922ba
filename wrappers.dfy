/** Option and Result, the two failure-carrying shapes the model uses for Go's
    `(value, err)` returns. */
module Wrappers {

  datatype Option<+T> = None | Some(value: T)

  /** A Go pair `(value, err)`: `Ok(v)` when err == nil, `Err(e)` otherwise.
      `:-` on a Result is Go's `if err != nil { return }`. */
  datatype Result<+T, +E> = Ok(value: T) | Err(error: E) {
    predicate IsFailure() {
      Err?
    }

    function PropagateFailure<U>(): Result<U, E>
      requires Err?
    {
      Err(error)
    }

    function Extract(): T
      requires Ok?
    {
      value
    }
  }
}
