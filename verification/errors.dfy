/**
 * Error normalisation: every failure inside an endpoint's `try` block is
 * handed to one function that turns it into the single message the caller
 * sees.
 */
module ApiErrors {
  import opened Wrappers
  import opened JsValue
  import opened Http

  /** What an endpoint's `try` block can throw. */
  datatype Thrown =
    | Axios(error: AxiosError)    // raised by the HTTP client
    | Plain(message: string)      // an `Error` the endpoint throws itself
    | TypeError                   // a property read on null or undefined, or a call of a non-function

  const TimedOutMessage: string := "Request timed out. Please try again."
  const NetworkMessage: string := "Network error. Please check your connection."
  const InvalidKeyMessage: string := "Invalid API key. Please check your configuration."
  const NotFoundMessage: string := "Resource not found."
  const RateLimitMessage: string := "Rate limit exceeded. Please try again in a few minutes."
  const InvalidRequestMessage: string := "Invalid request parameters."
  const ServerErrorMessage: string := "Server error. Our team has been notified."
  const UnexpectedStatusMessage: string := "An unexpected error occurred."
  const GenericMessage: string := "An unexpected error occurred. Please try again."

  /** The endpoints' own shape-check failure, thrown inside their `try` blocks. */
  const InvalidFormatMessage: string := "Invalid response format"

  /** `new Error(data?.message || fallback).message` */
  function BodyMessageOr(data: Json, fallback: string): string {
    var m := Field(data, "message");
    if Truthy(m) then Render(m) else fallback
  }

  /** The message the normaliser throws for a status it has a fixed text for. */
  function FixedStatusMessage(status: int): Option<string> {
    if status == 401 then Some(InvalidKeyMessage)
    else if status == 404 then Some(NotFoundMessage)
    else if status == 429 then Some(RateLimitMessage)
    else if status == 500 then Some(ServerErrorMessage)
    else None
  }

  /**
   * The message of the error `handleApiError` throws for `e`; it never returns
   * normally, so this is all it produces. The checks run in a fixed order:
   * timeout code, then missing response, then the status.
   */
  function HandleApiError(e: Thrown): (message: string)
    ensures !e.Axios? ==> message == GenericMessage
    ensures e.Axios? && e.error.code == Some(TimeoutCode) ==> message == TimedOutMessage
    ensures e.Axios? && e.error.code != Some(TimeoutCode) && e.error.response.None? ==>
      message == NetworkMessage
    ensures e.Axios? && e.error.code != Some(TimeoutCode) && e.error.response.Some? ==>
      var r := e.error.response.value;
      (FixedStatusMessage(r.status).Some? ==> message == FixedStatusMessage(r.status).value)
      && (r.status == 400 ==> message == BodyMessageOr(r.data, InvalidRequestMessage))
      && (FixedStatusMessage(r.status).None? && r.status != 400 ==>
            message == BodyMessageOr(r.data, UnexpectedStatusMessage))
  {
    match e
    case Axios(err) =>
      if err.code == Some(TimeoutCode) then TimedOutMessage
      else if err.response.None? then NetworkMessage
      else
        var r := err.response.value;
        if r.status == 401 then InvalidKeyMessage
        else if r.status == 404 then NotFoundMessage
        else if r.status == 429 then RateLimitMessage
        else if r.status == 400 then BodyMessageOr(r.data, InvalidRequestMessage)
        else if r.status == 500 then ServerErrorMessage
        else BodyMessageOr(r.data, UnexpectedStatusMessage)
    case Plain(_) => GenericMessage
    case TypeError => GenericMessage
  }

  /** A timeout wins over everything else, even when a response is attached. */
  lemma TimeoutTakesPrecedence(code: Option<string>, response: Option<Response>)
    requires code == Some(TimeoutCode)
    ensures HandleApiError(Axios(AxiosError(code, response))) == TimedOutMessage
  {
  }

  /** 401, 404, 429 and 500 map to their fixed texts whatever the body says. */
  lemma FixedStatusIgnoresBody(code: Option<string>, status: int, body1: Json, body2: Json)
    requires code != Some(TimeoutCode)
    requires status in {401, 404, 429, 500}
    ensures HandleApiError(Axios(AxiosError(code, Some(Response(status, body1)))))
         == HandleApiError(Axios(AxiosError(code, Some(Response(status, body2)))))
  {
  }

  /** A 400 carries the upstream `message` when it is truthy, else the fixed text. */
  lemma BadRequestMessage(code: Option<string>, body: Json)
    requires code != Some(TimeoutCode)
    ensures var m := HandleApiError(Axios(AxiosError(code, Some(Response(400, body)))));
      (Truthy(Field(body, "message")) ==> m == Render(Field(body, "message")))
      && (!Truthy(Field(body, "message")) ==> m == InvalidRequestMessage)
  {
  }

  /** The fixed texts are pairwise distinct, so each one names exactly one branch of the classification. */
  lemma FixedMessagesDistinct()
    ensures |{TimedOutMessage, NetworkMessage, InvalidKeyMessage, NotFoundMessage, RateLimitMessage,
              InvalidRequestMessage, ServerErrorMessage, UnexpectedStatusMessage, GenericMessage}| == 9
  {
  }
}
