/** Failure-carrying values used by the data layer model: an optional value
    (Python's `None`) and a result that is either a value or the exception
    the Python code would raise. `Result` works with Dafny's `:-` operator. */
module Outcomes {

  /** A value that may be absent, like an optional constructor argument. */
  datatype Option<+T> = None | Some(value: T)

  /** Either the value an operation computes or the error it raises. */
  datatype Result<+T, +E> = Ok(value: T) | Err(error: E) {

    predicate IsFailure() {
      Err?
    }

    function PropagateFailure<U>(): Result<U, E>
      requires Err?
    {
      Err(error)
    }

    function Extract(): T
      requires Ok?
    {
      value
    }

    /** Translates the error of a failed result, keeping a success as it is. */
    function MapError<E2>(f: E -> E2): Result<T, E2> {
      match this
      case Ok(v) => Ok(v)
      case Err(e) => Err(f(e))
    }
  }
}
