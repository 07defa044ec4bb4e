/**
 * The HTTP client instance's transport layer as the API client configures
 * it: which replies count as transport success, and the error the client
 * raises for everything else.
 */
module Http {
  import opened Wrappers
  import opened JsValue

  datatype Response = Response(status: int, data: Json)

  /** What a single attempt of a request produced. */
  datatype Attempt =
    | Replied(response: Response)
    | NoReply(code: Option<string>)   // timeout, abort or network failure

  /** The error object the HTTP client raises: an optional code and an optional response. */
  datatype AxiosError = AxiosError(code: Option<string>, response: Option<Response>)

  /** The code the HTTP client gives an aborted or timed-out request. */
  const TimeoutCode: string := "ECONNABORTED"

  /** Replies with these statuses are handed back to the caller instead of raised. */
  predicate ValidateStatus(status: int) {
    status >= 200 && status < 500
  }

  /** The HTTP client's code for a reply its status check refused: bad request for 4xx, bad response for 5xx. */
  function StatusErrorCode(status: int): Option<string> {
    if 400 <= status < 500 then Some("ERR_BAD_REQUEST")
    else if 500 <= status < 600 then Some("ERR_BAD_RESPONSE")
    else None
  }

  /** Turns one attempt into the value `api.get` resolves with, or the error it rejects with. */
  function Settle(a: Attempt): (r: Result<Response, AxiosError>)
    ensures r.Success? <==> a.Replied? && 200 <= a.response.status < 500
    ensures r.Success? ==> r.value == a.response
    ensures a.NoReply? ==> r == Failure(AxiosError(a.code, None))
    ensures r.Failure? && r.error.response.Some? ==>
      a.Replied? && r.error.response.value == a.response
      && (a.response.status < 200 || a.response.status >= 500)
      && r.error.code != Some(TimeoutCode)
  {
    match a
    case NoReply(code) => Failure(AxiosError(code, None))
    case Replied(resp) =>
      if ValidateStatus(resp.status) then Success(resp)
      else Failure(AxiosError(StatusErrorCode(resp.status), Some(resp)))
  }
}
