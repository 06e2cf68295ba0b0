/** Option and Result: the failure-carrying values that stand for the source's
    nulls and thrown exceptions. A Result can be unwrapped with `:-`, which
    passes an error on unchanged, as an exception propagates. */
module Wrappers {

  datatype Option<+T> = None | Some(value: T)

  datatype Result<+T, +E> = Ok(value: T) | Err(error: E) {
    predicate IsFailure() {
      Err?
    }

    function PropagateFailure<U>(): Result<U, E>
      requires Err?
    {
      Err(error)
    }

    function Extract(): T
      requires Ok?
    {
      value
    }
  }
}
