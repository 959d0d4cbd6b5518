/** How both fetch hooks classify what `fetch` and `response.json()` gave them:
    the `try`/`catch` that turns a non-ok status or a thrown error into the
    message stored in `error`. */
module Http {
  import opened Wrappers
  import opened Numbers

  /** What `response.json()` produced: a value, or a rejection with a message. */
  datatype Body<T> = Json(value: T) | Malformed(message: string)

  /** What the network call produced: a response with a status and a body,
      or a rejected promise whose reason is an `Error` with a message
      (`Some`) or some other thrown value (`None`). */
  datatype Response<T> = Received(status: int, body: Body<T>) | Rejected(reason: Option<string>)

  /** `response.ok`: the status is in the 2xx range. */
  predicate IsOk(status: int) {
    200 <= status <= 299
  }

  const StatusPrefix: string := "HTTP error! status: "
  const FallbackMessage: string := "An error occurred"

  /** The message of the `Error` thrown for a non-ok status. */
  function StatusError(status: int): (s: string)
    ensures |s| > |StatusPrefix| && s[..|StatusPrefix|] == StatusPrefix
  {
    StatusPrefix + IntToString(status)
  }

  /** The result the hooks act on: the parsed body, or the error message that
      `catch` stores. */
  function Outcome<T>(resp: Response<T>): (r: Result<T, string>)
    ensures r.Ok? <==> resp.Received? && IsOk(resp.status) && resp.body.Json?
    ensures r.Ok? ==> r.value == resp.body.value
    ensures resp.Received? && !IsOk(resp.status) ==> r == Err(StatusError(resp.status))
    ensures resp.Received? && IsOk(resp.status) && resp.body.Malformed? ==> r == Err(resp.body.message)
    ensures resp.Rejected? && resp.reason.Some? ==> r == Err(resp.reason.value)
    ensures resp.Rejected? && resp.reason.None? ==> r == Err(FallbackMessage)
  {
    match resp
    case Received(status, body) =>
      if !IsOk(status) then Err(StatusError(status))
      else (match body
            case Json(v) => Ok(v)
            case Malformed(m) => Err(m))
    case Rejected(reason) =>
      match reason
      case Some(m) => Err(m)
      case None => Err(FallbackMessage)
  }

  /** The status can be read back from the message of a non-ok response. */
  lemma StatusErrorNamesStatus(status: int)
    ensures ParseInt(StatusError(status)[|StatusPrefix|..]) == Some(status)
  {
    var m := StatusError(status);
    assert m[|StatusPrefix|..] == IntToString(status);
    ParseIntOfIntToString(status);
    NatToStringDigits(if status < 0 then -status else status);
  }
}
