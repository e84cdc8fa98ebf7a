/** Option and Result types shared by the whole model, and the shape of a thrown
    JavaScript exception. */
module Wrappers {

  datatype Option<+T> = None | Some(value: T) {
    function GetOr(default: T): T {
      match this
      case Some(v) => v
      case None => default
    }
  }

  /** A value thrown by JavaScript code: an `Error` instance (with its `name`,
      e.g. "TypeError" or "TimeoutError", and its `message`) or anything else. */
  datatype Exception = Error(name: string, message: string) | NonError

  /** The result of a computation that either returns a value or throws. */
  datatype Result<+T> = Ok(value: T) | Err(error: Exception) {
    predicate IsFailure() {
      Err?
    }

    function PropagateFailure<U>(): Result<U>
      requires Err?
    {
      Err(error)
    }

    function Extract(): T
      requires Ok?
    {
      value
    }
  }

  function TypeError(message: string): Exception {
    Error("TypeError", message)
  }

  /** `e instanceof Error ? e.message : fallback` */
  function MessageOr(e: Exception, fallback: string): string {
    if e.Error? then e.message else fallback
  }
}
