/** Shared value types for the client model: optional values, the outcome of a
    request to the backend, and the snackbar notice the screens show. */
module Common {

  /** A value that may be missing (JavaScript `null` / `undefined`). */
  datatype Option<T> = None | Some(value: T) {
    function GetOr(default: T): T
    {
      match this
      case Some(v) => v
      case None => default
    }
  }

  /** The outcome of one backend request: the response data, or a failure that
      may carry the server's `message` field. */
  datatype Fetch<T> = Ok(data: T) | Err(message: Option<string>)

  datatype Severity = Info | Success | Warning | Error

  /** The snackbar notice a screen shows after a handler ran. */
  datatype Snack = Snack(msg: string, sev: Severity)

  /** JavaScript `s || fallback` on an optional string: an absent or empty
      string falls back. */
  function OrElse(s: Option<string>, fallback: string): (r: string)
    ensures s.Some? && s.value != "" ==> r == s.value
    ensures s.None? || s.value == "" ==> r == fallback
    ensures fallback != "" ==> r != ""
  {
    if s.Some? && s.value != "" then s.value else fallback
  }
}
