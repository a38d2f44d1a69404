/** Failure-compatible wrappers: `Option` for values that may be absent, and
    `Result` for operations that return either a value or an error (the shape of
    Rust's `anyhow::Result`). `Result` supports Dafny's `:-` operator, which plays
    the role of Rust's `?`. */
module Wrappers {

  datatype Option<+T> = None | Some(value: T)

  datatype Result<+T, +E> = Ok(value: T) | Err(error: E) {

    predicate IsFailure() {
      Err?
    }

    function PropagateFailure<U>(): Result<U, E>
      requires Err?
    {
      Err(error)
    }

    function Extract(): T
      requires Ok?
    {
      value
    }
  }
}
