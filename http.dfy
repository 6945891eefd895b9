/** What an awaited `axios` request can end in, as the pages and the proxy
    see it, and the catch block most pages share. */
module Http {
  import opened JsValues

  /** Why a request, or the code that handles its answer, failed. */
  datatype Error =
      /** The server answered with a non-2xx status (`error.response`). */
    | HttpError(status: int, body: Json)
      /** The request was sent and nothing came back (`error.request`). */
    | NoResponse(message: string)
      /** Anything else: an `Error` the code throws itself, or a failed
          property read on `null`. */
    | Thrown(message: string)

  /** The outcome of `await axios...`: `response.data`, or the error. */
  datatype Response = Ok(body: Json) | Failed(error: Error)

  /** `error.message`; axios writes its own for an HTTP error status. */
  function Message(e: Error): string
  {
    match e
    case HttpError(status, _) => "Request failed with status code " + IntToString(status)
    case NoResponse(m) => m
    case Thrown(m) => m
  }

  /** The message of the `TypeError` a property read on `null` throws. */
  function NullRead(key: string): string
  {
    "Cannot read properties of null (reading '" + key + "')"
  }

  /** The catch block of the profile, attendance and marks loaders:
      `error.response ? (error.response.data.error || fallback)
      : (error.message || fallback)`. `None` where that block itself
      throws: an HTTP error whose body is `null`. */
  function CatchMessage(e: Error, fallback: string): (r: Option<Json>)
    ensures r.None? <==> e.HttpError? && e.body.Null?
    ensures r.Some? && fallback != "" ==> IsTruthy(r.value)
  {
    match e
    case HttpError(_, body) => if body.Null? then None else Some(Or(Get(body, "error"), Str(fallback)))
    case NoResponse(m) => Some(Str(if m != "" then m else fallback))
    case Thrown(m) => Some(Str(if m != "" then m else fallback))
  }
}
