/** Results of calls into libraries the model does not open up: a Python call
    either returns or raises an exception of some class, and a JavaScript call
    either completes or throws an error carrying a message. */
module Outcomes {

  datatype Option<+T> = None | Some(value: T) {

    /** The value, or `default` when there is none (Python's `dict.get(key, default)`). */
    function GetOr(default: T): T
    {
      match this
      case Some(v) => v
      case None => default
    }
  }

  /** The exception classes the server code distinguishes in its `except` clauses. */
  datatype Exc = TemplateSyntaxError | JSONDecodeError | OtherException

  /** A Python call: the returned value, or the raised exception with `str(e)`. */
  datatype Py<+T> = Returned(value: T) | Raised(exc: Exc, message: string)

  /** A JavaScript call or promise: the value, or the thrown error's `message`. */
  datatype Js<+T> = Done(value: T) | Thrown(message: string)
}
