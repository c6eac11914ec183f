/** Option and the unit-valued result used by the validator (Rust's `Option<T>` and `Result<()>`). */
module Wrappers {

  datatype Option<+T> = None | Some(value: T)

  /** Rust's `Result<(), E>`: success carries no value, failure carries an error.
      Failure-compatible, so `:- check; rest` plays the role of Rust's `check?; rest`. */
  datatype Outcome<+E> = Ok | Err(error: E) {

    predicate IsFailure() {
      Err?
    }

    function PropagateFailure(): Outcome<E>
      requires Err?
    {
      this
    }
  }
}
