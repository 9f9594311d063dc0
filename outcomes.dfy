/** The exceptions the resolver can raise, and the Option/Result shapes that carry them. */
module Outcomes {

  /** A Python exception. `Raised` is an explicit `raise Exception(message)` in the resolver. */
  datatype Error =
    | Raised(message: string)
    | ValueError     // int() of a non-number; datetime.replace with a field out of range
    | KeyError       // dictionary lookup of a missing key
    | IndexError     // indexing an empty list or group
    | TypeError      // joining a non-string; replace(day=<list>)
    | OverflowError  // datetime arithmetic outside years 1..9999

  datatype Option<T> = None | Some(value: T) {
    function GetOr(default: T): T {
      if Some? then value else default
    }
  }

  /** A value, or the exception that aborted its computation; usable with `:-`. */
  datatype Result<T> = Ok(value: T) | Err(error: Error) {
    predicate IsFailure() {
      Err?
    }

    function PropagateFailure<U>(): Result<U>
      requires Err?
    {
      Err(error)
    }

    function Extract(): T
      requires Ok?
    {
      value
    }
  }
}
