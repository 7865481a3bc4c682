/** The `ApiError` class of the dashboard's API layer and the values a failed
    call can throw. An `ApiError` is an `Error` carrying the backend's error
    code and the HTTP status; its fields are set once by the constructor and
    never changed, so it is a value here. */
module ApiErrors {
  import opened JsValues

  /** An instance of `ApiError`: `name`, `message` (from `Error`), and the
      optional `errorCode` and `statusCode`. */
  datatype ApiError = ApiError(name: string, message: string, errorCode: Option<string>, statusCode: Option<int>)

  /** A value a rejected promise carries, as callers can tell it apart with
      `instanceof`: an `ApiError`, the `TypeError` the engine raises when an
      absent value is destructured (its message text is engine-specific and not
      modelled), or any other thrown value with its `message` property. */
  datatype Thrown = ApiErr(api: ApiError) | TypeError | OtherError(message: Option<string>)

  /** The outcome of awaiting a call: its value, or what it threw. */
  datatype Fetched<+T> = Done(value: T) | Threw(error: Thrown)

  /** `new ApiError(message, errorCode?, statusCode?)`. `super(message)` with an
      undefined message leaves the `message` that `Error` gives, the empty string. */
  function NewApiError(message: Option<string>, errorCode: Option<string>, statusCode: Option<int>): (e: ApiError)
    ensures e.name == "ApiError"
    ensures message.Some? ==> e.message == message.value
    ensures message.None? ==> e.message == ""
    ensures e.errorCode == errorCode && e.statusCode == statusCode
  {
    ApiError("ApiError", if message.Some? then message.value else "", errorCode, statusCode)
  }

  /** `t instanceof ApiError`. */
  predicate IsApiError(t: Thrown)
  {
    t.ApiErr?
  }

  /** The constructor loses nothing that was passed to it: two errors built
      from different arguments differ. */
  lemma NewApiErrorInjective(m1: string, c1: Option<string>, s1: Option<int>,
                             m2: string, c2: Option<string>, s2: Option<int>)
    requires NewApiError(Some(m1), c1, s1) == NewApiError(Some(m2), c2, s2)
    ensures m1 == m2 && c1 == c2 && s1 == s2
  {
  }
}
