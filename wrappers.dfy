/** Option and Result values, and the two ways a Python call in the pipeline can fail. */
module Wrappers {

  datatype Option<+T> = None | Some(value: T) {
    function GetOr(default: T): T {
      match this
      case Some(v) => v
      case None => default
    }
  }

  /** How a step fails.  `Raised` is a Python exception derived from `Exception`
      (a `RuntimeError`, an HTTP error); `Exit` is the program's `die()`, which calls
      `sys.exit` and therefore is NOT caught by an `except Exception` handler. */
  datatype Error = Raised(message: string) | Exit(message: string)

  datatype Result<+T> = Ok(value: T) | Err(error: Error) {
    predicate IsFailure() { Err? }
    function PropagateFailure<U>(): Result<U>
      requires Err?
    {
      Err(error)
    }
    function Extract(): T
      requires Ok?
    {
      value
    }
  }
}
