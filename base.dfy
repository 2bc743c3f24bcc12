/** Values shared by every part of the model: Go's nil-able values and its error values. */
module Base {

  /** A value that may be absent: a nil pointer, a nil error, a missing selection. */
  datatype Option<+T> = None | Some(value: T)

  /** Go's `error` values: an opaque message, or one wrapped with `fmt.Errorf("...%w", cause)`. */
  datatype Error = Error(text: string) | Wrapped(context: string, cause: Error)

  /** What `err.Error()` returns: the wrapping contexts prefixed to the innermost message. */
  function Message(e: Error): string
  {
    match e
    case Error(t) => t
    case Wrapped(c, cause) => c + Message(cause)
  }

  /** What `errors.Unwrap` returns. */
  function Unwrap(e: Error): (r: Option<Error>)
    ensures r.Some? <==> e.Wrapped?
    ensures e.Wrapped? ==> Message(e) == e.context + Message(r.value)
  {
    match e
    case Error(_) => None
    case Wrapped(_, cause) => Some(cause)
  }
}
