/** Failure-compatible datatypes shared by every module. */
module Wrappers {

  datatype Option<+T> = None | Some(value: T)

  datatype Result<+T> = Ok(value: T) | Err(error: string) {
    predicate IsFailure() {
      Err?
    }

    function PropagateFailure<U>(): Result<U>
      requires Err?
    {
      Err(error)
    }

    function Extract(): T
      requires Ok?
    {
      value
    }
  }

  /** A raised exception as a value: `:- Need(c, m)` leaves the enclosing function with `Err(m)`. */
  function Need(condition: bool, message: string): Result<()> {
    if condition then Ok(()) else Err(message)
  }
}
