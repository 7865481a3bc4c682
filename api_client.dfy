/** The interceptors of the shared HTTP client. The transport itself (axios,
    base URL, headers, the 10 s timeout) is outside the model: a response or a
    failure is an input, and each interceptor is a function of it that either
    passes it on or turns it into the value the awaiting caller sees thrown. */
module ApiClient {
  import opened JsValues
  import opened ApiErrors

  /** The fixed texts the error interceptor falls back on. */
  const NoResponseMessage: string := "서버에서 응답이 없습니다."
  const UnknownErrorMessage: string := "알 수 없는 오류가 발생했습니다."

  /** The body of a response, `response.data`: `null`/`undefined`, the empty
      string an empty body gives, or a value with the `success`, `message` and
      `errorCode` properties the backend's envelope carries (`None` where a
      property is undefined; `success` is `None` unless it is a boolean). */
  datatype Payload =
    | Nullish
    | EmptyText
    | Body(success: Option<bool>, message: Option<string>, errorCode: Option<string>)

  datatype Response = Response(status: int, data: Payload)

  /** What the interceptor makes of a response: it passes it on, or rejects. */
  datatype Settled = Resolved(response: Response) | Rejected(error: Thrown)

  /** What reaches the error interceptor: an axios error with the response the
      server gave (if any) and whether a request went out, or anything else
      that was thrown on the way, with its `message`. */
  datatype Failure =
    | AxiosFailure(response: Option<Response>, requestSent: bool, message: Option<string>)
    | OtherFailure(message: Option<string>)

  /** The request interceptor hands every configuration on untouched. */
  function OnRequest<C>(config: C): (r: C)
    ensures r == config
  {
    config
  }

  /** The response interceptor for a 2xx response: an envelope that says
      `success: false` is rejected as an `ApiError` carrying the envelope's
      message and code and the HTTP status; everything else passes unchanged. */
  function OnResponse(r: Response): (s: Settled)
    ensures s.Rejected? <==> r.data.Body? && r.data.success == Some(false)
    ensures s.Resolved? ==> s.response == r
    ensures s.Rejected? ==> s.error.ApiErr? && s.error.api.statusCode == Some(r.status)
    ensures s.Rejected? ==> s.error.api.errorCode == r.data.errorCode
    ensures s.Rejected? && r.data.message.Some? ==> s.error.api.message == r.data.message.value
    ensures s.Rejected? ==> s.error == ApiErr(NewApiError(r.data.message, r.data.errorCode, Some(r.status)))
  {
    match r.data
    case Body(Some(false), message, errorCode) => Rejected(ApiErr(NewApiError(message, errorCode, Some(r.status))))
    case _ => Resolved(r)
  }

  /** The response interceptor for a failed request. A server response gives
      an `ApiError` with the body's `message` and `errorCode` and the status;
      a request that got no response gives the fixed no-response message; any
      other failure keeps its own message, or the fixed fallback when that is
      empty. Destructuring `error.response.data` when it is `null` or
      `undefined` throws, so that one case rejects with a `TypeError`. */
  function OnError(f: Failure): (t: Thrown)
    ensures t.ApiErr? <==> !(f.AxiosFailure? && f.response.Some? && f.response.value.data.Nullish?)
    ensures t.ApiErr? ==> t.api.name == "ApiError"
    ensures t.ApiErr? ==> (t.api.statusCode.Some? <==> f.AxiosFailure? && f.response.Some?)
    ensures t.ApiErr? && f.AxiosFailure? && f.response.Some? ==>
      t.api.statusCode == Some(f.response.value.status)
      && (f.response.value.data.Body? ==> t.api.errorCode == f.response.value.data.errorCode)
    ensures f.AxiosFailure? && f.response.Some? && f.response.value.data.Body? ==>
      t == ApiErr(NewApiError(f.response.value.data.message, f.response.value.data.errorCode, Some(f.response.value.status)))
    ensures f.AxiosFailure? && f.response.Some? && f.response.value.data.Nullish? ==> t == TypeError
    ensures f.AxiosFailure? && f.response.Some? && f.response.value.data.EmptyText? ==>
      t == ApiErr(NewApiError(None, None, Some(f.response.value.status))) && t.api.message == ""
    ensures f.AxiosFailure? && f.response.None? && f.requestSent ==>
      t == ApiErr(ApiError("ApiError", NoResponseMessage, None, None))
    ensures !(f.AxiosFailure? && (f.response.Some? || f.requestSent)) ==>
      t.ApiErr? && t.api.errorCode.None? && t.api.statusCode.None?
      && t.api.message == (if Truthy(f.message) then f.message.value else UnknownErrorMessage)
  {
    match f
    case AxiosFailure(Some(response), _, _) =>
      (match response.data
       case Nullish => TypeError
       case EmptyText => ApiErr(NewApiError(None, None, Some(response.status)))
       case Body(_, message, errorCode) => ApiErr(NewApiError(message, errorCode, Some(response.status))))
    case AxiosFailure(None, true, _) => ApiErr(NewApiError(Some(NoResponseMessage), None, None))
    case _ => ApiErr(NewApiError(Some(if Truthy(f.message) then f.message.value else UnknownErrorMessage), None, None))
  }

  /** Every rejection the client produces is an `ApiError`, except when the
      server answered with a null body to a failed request. */
  lemma RejectionsAreApiErrors(r: Response, f: Failure)
    ensures OnResponse(r).Rejected? ==> IsApiError(OnResponse(r).error)
    ensures IsApiError(OnError(f)) || (f.AxiosFailure? && f.response.Some? && f.response.value.data.Nullish?)
  {
  }

  /** A failure without a server response always carries a message the user
      can read: it is never empty. */
  lemma NoResponseMessageNonEmpty(f: Failure)
    requires !(f.AxiosFailure? && f.response.Some?)
    ensures OnError(f).ApiErr? && OnError(f).api.message != ""
  {
  }
}
