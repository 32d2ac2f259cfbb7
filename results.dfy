/**
 * The uniform result record and the normalisation of every outcome of an
 * HTTP call into one: `_error`, `_parse` and the exception handlers of
 * `_request` in checkbox_api.py.
 */
module Results {
  import opened Wrappers
  import opened Json

  /**
   * The dictionary every public operation returns. A successful parse carries
   * no `error` / `error_description` keys; the failure record carries both.
   * `error_description` is whatever the server put under "message", so it is
   * a JSON value rather than a string.
   */
  datatype Result = Result(
    success: bool,
    status: int,
    data: Json,
    error: Option<string>,
    errorDescription: Option<Json>)

  /** A response as the transport hands it over: status, decoded body (None when it is not JSON), raw text. */
  datatype HttpResponse = HttpResponse(status: int, json: Option<Json>, text: string)

  /**
   * What the transport did with one request: returned a response that passed
   * `raise_for_status`, raised `HTTPError` (normally with the response
   * attached), or raised another `RequestException` (no response at all).
   */
  datatype Outcome =
    | Completed(response: HttpResponse)
    | HttpError(errorResponse: Option<HttpResponse>, message: string)
    | NetworkError(reason: string)

  const HttpErrorLabel := "HTTP error"
  const NetworkErrorLabel := "Network error"
  const BadRequestLabel := "Bad request"

  /** `(payload or {})`: a falsy or missing payload is replaced by the empty object. */
  function OrEmpty(payload: Option<Json>): (j: Json)
    ensures payload.Some? && Truthy(payload.value) ==> j == payload.value
    ensures !(payload.Some? && Truthy(payload.value)) ==> j == JObj(map[])
  {
    if payload.Some? && Truthy(payload.value) then payload.value else JObj(map[])
  }

  /** The server's explanation: a truthy "message" in an object payload. */
  function Message(payload: Option<Json>): (msg: Option<Json>)
    ensures msg.Some? <==> payload.Some? && payload.value.JObj? && "message" in payload.value.fields
                           && Truthy(payload.value.fields["message"])
    ensures msg.Some? ==> msg.value == payload.value.fields["message"] && Truthy(msg.value)
  {
    match OrEmpty(payload)
    case JObj(m) => if "message" in m && Truthy(m["message"]) then Some(m["message"]) else None
    case _ => None
  }

  /**
   * The failure record (`_error`), total on every payload: a payload that is
   * not an object contributes no message.
   */
  function Error(status: int, kind: string, payload: Option<Json>): (r: Result)
    ensures !r.success && r.status == status && r.error == Some(kind)
    ensures r.errorDescription.Some?
    ensures Message(payload).Some? ==> r.errorDescription == Message(payload)
    ensures Message(payload).None? ==> r.errorDescription == Some(JStr(kind))
    ensures kind != "" ==> Truthy(r.errorDescription.value)
    ensures payload.Some? && Truthy(payload.value) ==> r.data == payload.value
    ensures !(payload.Some? && Truthy(payload.value)) ==> r.data == JObj(map[])
  {
    var description := match Message(payload) case Some(m) => m case None => JStr(kind);
    Result(false, status, OrEmpty(payload), Some(kind), Some(description))
  }

  /** `_parse`: the decoded body, or `{"raw": text}` when it does not decode. */
  function Parse(response: HttpResponse): (r: Result)
    ensures r.success <==> 200 <= response.status < 300
    ensures r.status == response.status
    ensures response.json.Some? ==> r.data == response.json.value
    ensures response.json.None? ==> r.data == Single("raw", JStr(response.text))
    ensures r.error.None? && r.errorDescription.None?
  {
    var data := match response.json case Some(j) => j case None => Single("raw", JStr(response.text));
    Result(200 <= response.status < 300, response.status, data, None, None)
  }

  /**
   * The payload of an `HTTPError`: the response's decoded body, else
   * `{"raw": <response text>}`, else, with no response attached,
   * `{"raw": str(e)}`.
   */
  function HttpErrorPayload(response: Option<HttpResponse>, message: string): (p: Json)
    ensures response.Some? && response.value.json.Some? ==> p == response.value.json.value
    ensures response.Some? && response.value.json.None? ==> p == Single("raw", JStr(response.value.text))
    ensures response.None? ==> p == Single("raw", JStr(message))
  {
    match response
    case None => Single("raw", JStr(message))
    case Some(resp) => match resp.json case Some(j) => j case None => Single("raw", JStr(resp.text))
  }

  /** `getattr(e.response, "status_code", 400)`. */
  function HttpErrorStatus(response: Option<HttpResponse>): (status: int)
    ensures response.Some? ==> status == response.value.status
    ensures response.None? ==> status == 400
  {
    match response
    case None => 400
    case Some(resp) => resp.status
  }

  /** The result `_request` returns for an outcome, with the failure record made total. */
  function Normalise(o: Outcome): (r: Result)
    ensures r.success ==> o.Completed?
    ensures o.Completed? ==> r == Parse(o.response)
    ensures o.HttpError? ==> !r.success && r.error == Some(HttpErrorLabel)
    ensures o.HttpError? && o.errorResponse.Some? ==> r.status == o.errorResponse.value.status
    ensures o.HttpError? && o.errorResponse.None? ==> r.status == 400
    ensures o.HttpError? ==> r == Error(HttpErrorStatus(o.errorResponse), HttpErrorLabel,
                                        Some(HttpErrorPayload(o.errorResponse, o.message)))
    ensures o.NetworkError? ==> r == Result(false, 400, Single("detail", JStr(o.reason)),
                                            Some(NetworkErrorLabel), Some(JStr(NetworkErrorLabel)))
  {
    match o
    case Completed(resp) => Parse(resp)
    case HttpError(resp, msg) => Error(HttpErrorStatus(resp), HttpErrorLabel, Some(HttpErrorPayload(resp, msg)))
    case NetworkError(reason) => Error(400, NetworkErrorLabel, Some(Single("detail", JStr(reason))))
  }

  /** The failure kind is readable from the `error` field alone. */
  lemma FailureKinds(o: Outcome)
    ensures Normalise(o).error.None? <==> o.Completed?
    ensures Normalise(o).error == Some(HttpErrorLabel) <==> o.HttpError?
    ensures Normalise(o).error == Some(NetworkErrorLabel) <==> o.NetworkError?
  {
  }

  /** A failure outcome is never reported as a success, whatever its status. */
  lemma FailuresNeverSucceed(o: Outcome)
    requires !o.Completed?
    ensures !Normalise(o).success && Normalise(o).errorDescription.Some?
  {
  }

  /** A 2xx response with a JSON body comes back as that body, marked successful. */
  lemma SuccessCarriesBody(response: HttpResponse, body: Json)
    requires 200 <= response.status < 300 && response.json == Some(body)
    ensures Normalise(Completed(response)) == Result(true, response.status, body, None, None)
  {
  }

  // ---- `_error` as written, which can raise ----

  /** A value or a Python exception escaping to the caller. */
  datatype Raising<T> = Returns(value: T) | Raises(exception: string)

  /**
   * `_error` as written: `(payload or {}).get("message")` assumes the payload
   * is an object; any truthy non-object payload raises `AttributeError`.
   */
  function ErrorAsWritten(status: int, kind: string, payload: Option<Json>): (r: Raising<Result>)
    ensures r.Raises? <==> payload.Some? && Truthy(payload.value) && !payload.value.JObj?
    ensures r.Returns? ==> r.value == Error(status, kind, payload)
  {
    match OrEmpty(payload)
    case JObj(m) =>
      var description := if "message" in m && Truthy(m["message"]) then m["message"] else JStr(kind);
      Returns(Result(false, status, JObj(m), Some(kind), Some(description)))
    case _ => Raises("AttributeError")
  }

  /** `_request`'s outcome mapping as written, with the raising `_error`. */
  function NormaliseAsWritten(o: Outcome): (r: Raising<Result>)
    ensures r.Raises? <==> o.HttpError? && o.errorResponse.Some? && o.errorResponse.value.json.Some?
                           && Truthy(o.errorResponse.value.json.value) && !o.errorResponse.value.json.value.JObj?
    ensures r.Returns? ==> r.value == Normalise(o)
  {
    match o
    case Completed(resp) => Returns(Parse(resp))
    case HttpError(resp, msg) => ErrorAsWritten(HttpErrorStatus(resp), HttpErrorLabel, Some(HttpErrorPayload(resp, msg)))
    case NetworkError(reason) => ErrorAsWritten(400, NetworkErrorLabel, Some(Single("detail", JStr(reason))))
  }

  /**
   * A 500 whose body is the JSON list `["busy"]` makes `_request` raise
   * instead of returning a result.
   */
  lemma AsWrittenRaisesOnListBody()
    ensures NormaliseAsWritten(HttpError(Some(HttpResponse(500, Some(JArr([JStr("busy")])), "[\"busy\"]")),
                                         "500 Server Error")).Raises?
  {
  }

  /** The corrected mapping returns a failure record for that same response. */
  lemma CorrectedReturnsOnListBody()
    ensures Normalise(HttpError(Some(HttpResponse(500, Some(JArr([JStr("busy")])), "[\"busy\"]")),
                                "500 Server Error"))
            == Result(false, 500, JArr([JStr("busy")]), Some(HttpErrorLabel), Some(JStr(HttpErrorLabel)))
  {
  }
}
