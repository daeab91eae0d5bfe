/** Failure-compatible wrappers used across the model.
    `Result` stands for a Python run that either returns a value or
    stops with an uncaught exception; the exception is named by `Crash`. */
module Wrappers {

  datatype Option<+T> = None | Some(value: T) {
    function GetOr(default: T): T {
      match this
      case Some(v) => v
      case None => default
    }
  }

  /** The uncaught Python exceptions the model keeps track of. */
  datatype Crash =
    | IndexOutOfRange     // `s[0]` or `s[-1]` on an empty string
    | SubstringNotFound   // `str.index` that finds nothing
    | BadIntLiteral       // `int("")`
    | UnboundName         // a local variable read before any assignment
    | EmptyMin            // `min` of an empty list

  datatype Result<+T> = Ok(value: T) | Err(crash: Crash) {
    predicate IsFailure() { Err? }
    function PropagateFailure<U>(): Result<U>
      requires Err?
    {
      Err(crash)
    }
    function Extract(): T
      requires Ok?
    {
      value
    }
  }
}
