/** Failure-compatible wrappers for the error paths of the selector: a
    Python `None`, a value-or-exception, and a success-or-exception. */
module Results {

  /** An optional value; `None` stands for Python's `None`. */
  datatype Option<T> = None | Some(value: T) {

    /** The wrapped value, or `default` when there is none. */
    function GetOr(default: T): T {
      if Some? then value else default
    }
  }

  /** A computed value, or the exception the computation raised instead. */
  datatype Result<T, E> = Success(value: T) | Failure(error: E)

  /** Normal completion, or the exception raised. */
  datatype Outcome<E> = Pass | Fail(error: E)
}
