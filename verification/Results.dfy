/** Values that stand for the program's `None` and for its raised errors. */
module Results {

  datatype Option<+T> = None | Some(value: T)

  /** A computation that either yields a value or raises one of its module's errors. */
  datatype Result<+T, +E> = Ok(value: T) | Err(error: E) {
    predicate IsFailure() {
      Err?
    }

    function PropagateFailure<U>(): Result<U, E>
      requires Err?
    {
      Err(error)
    }

    function Extract(): T
      requires Ok?
    {
      value
    }
  }
}
