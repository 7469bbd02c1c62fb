/** Small value types shared by every screen: optional values, the outcome of a
    service call, and the toast notices a screen raises. */
module Basics {

  /** A value that may be absent (`undefined` / `null` in the front end). */
  datatype Option<+T> = None | Some(value: T) {
    function GetOr(default: T): T {
      match this
      case Some(v) => v
      case None => default
    }
  }

  /** The outcome of one call to a backend service: the response, or a rejection
      that may carry the server's human-readable message. */
  datatype Response<+T> = Ok(value: T) | Failed(serverMessage: Option<string>)

  /** A decision taken locally: a value, or the reason it was refused. */
  datatype Result<+T, +E> = Success(value: T) | Failure(error: E)

  /** A transient toast notice. */
  datatype Notice = SuccessNotice(text: string) | ErrorNotice(text: string)

  /** `error.response?.data?.message || fallback`: the server message when it is
      present and non-empty, the screen's fallback text otherwise. */
  function FailureText(serverMessage: Option<string>, fallback: string): (t: string)
    ensures serverMessage.Some? && serverMessage.value != "" ==> t == serverMessage.value
    ensures serverMessage.None? || serverMessage.value == "" ==> t == fallback
  {
    if serverMessage.Some? && serverMessage.value != "" then serverMessage.value else fallback
  }
}
