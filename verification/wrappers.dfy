/** Option and Result, the failure-compatible wrappers the rest of the model
    uses for missing values (a key absent from a cache, an unset field) and for
    error paths (an exception that escapes, a scene that failed to import). */
module Wrappers {

  /** A value that may be absent; `None` stands for C++'s `npos`, a null
      pointer, or a field a constructor never assigned. */
  datatype Option<+T> = None | Some(value: T)

  /** Either a value or the error that stopped the computation; usable with `:-`. */
  datatype Result<+T, +E> = Ok(value: T) | Err(error: E) {

    predicate IsFailure() {
      Err?
    }

    function PropagateFailure<U>(): Result<U, E>
      requires Err?
    {
      Err(error)
    }

    function Extract(): T
      requires Ok?
    {
      value
    }
  }
}
