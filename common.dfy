/** Failure-carrying values shared by the components, and the shape of a thrown
    JavaScript error as far as the components inspect it. */
module Common {

  datatype Option<+T> = None | Some(value: T) {
    function GetOr(default: T): T {
      match this
      case Some(v) => v
      case None => default
    }
  }

  datatype Result<+T, +E> = Ok(value: T) | Err(error: E)

  /** A thrown error. Each field is the text of `error.reason`, `error.message`
      and `error.error.message`; a field that is absent (or any other falsy
      value) is the empty string, which is all the components can tell apart. */
  datatype JsError = JsError(reason: string, message: string, innerMessage: string)

  /** An `Error` built with `new Error(m)`: it has a message and nothing else. */
  function ErrorWithMessage(m: string): JsError {
    JsError("", m, "")
  }

  /** `error.reason || error.message || fallback`, the text both stream lists
      show after a failed contract call. */
  function ErrorText(e: JsError, fallback: string): (text: string)
    ensures e.reason != "" ==> text == e.reason
    ensures e.reason == "" && e.message != "" ==> text == e.message
    ensures e.reason == "" && e.message == "" ==> text == fallback
    ensures text == e.reason || text == e.message || text == fallback
    ensures fallback != "" ==> text != ""
  {
    if e.reason != "" then e.reason
    else if e.message != "" then e.message
    else fallback
  }
}
