/**
 * The console's request helper `apiClient`, as far as its callers see it: the response's
 * status decides whether the returned promise rejects with an `ApiError` or resolves, and a
 * resolved promise carries the already parsed JSON body (or `null` for 204), not the
 * `Response` object.
 */
module Api {
  import opened JsText

  /** Why an awaited call threw. */
  datatype Failure =
      /** `new ApiError(status, statusText, data)` */
    | ApiError(status: int, statusText: string)
      /** `new Error(message)` */
    | ThrownError(message: string)
      /** A property read on `null`, or a call of a property that is not a function. */
    | TypeError

  /** How an awaited call ends. */
  datatype Outcome<T> = Returned(value: T) | Threw(failure: Failure)

  /** A parsed JSON body: `null`, or an object carrying the payload `content`; `okTruthy`
      says whether the object happens to have a truthy `ok` property. */
  datatype Body<T> = Null | Object(content: T, okTruthy: bool)

  /** `response.ok` */
  predicate OkStatus(status: int) {
    200 <= status <= 299
  }

  /** `apiClient(endpoint, options)` once the server has answered `status` with a JSON body
      that parses to `body`. */
  function ApiClient<T>(status: int, statusText: string, body: Body<T>): (r: Outcome<Body<T>>)
    ensures r.Threw? <==> !OkStatus(status)
    ensures r.Threw? ==> r.failure == ApiError(status, statusText)
    ensures r.Returned? ==> r.value == if status == 204 then Null else body
  {
    if status == 401 then Threw(ApiError(status, statusText))
    else if !OkStatus(status) then Threw(ApiError(status, statusText))
    else if status == 204 then Returned(Null)
    else Returned(body)
  }

  /** Whether `apiClient` removes the stored token: only on a 401. */
  predicate DropsToken(status: int) {
    status == 401
  }

  /** `(await apiClient(...)).json()`: the value in hand is the parsed body, so `null` has no
      property to read and an object has no `json` method; either way a `TypeError` is thrown. */
  function JsonOfBody<T>(b: Body<T>): (r: Outcome<T>)
    ensures r == Threw(TypeError)
  {
    match b
    case Null => Threw(TypeError)
    case Object(_, _) => Threw(TypeError)
  }

  /** `if (!response.ok) throw new Error(message)` on the parsed body: reading `ok` on `null`
      is a `TypeError`, an object without a truthy `ok` throws the page's own error, and one
      with it passes. */
  function OkGuard<T>(b: Body<T>, message: string): (r: Outcome<Body<T>>)
    ensures r.Returned? <==> b.Object? && b.okTruthy
    ensures r.Returned? ==> r.value == b
    ensures b.Object? && !b.okTruthy ==> r == Threw(ThrownError(message))
  {
    match b
    case Null => Threw(TypeError)
    case Object(_, ok) => if ok then Returned(b) else Threw(ThrownError(message))
  }

  /** `if (!response.ok) throw new Error(message); return response.json();` on the parsed body
      `apiClient` resolves to: a body with a truthy `ok` passes the guard and then has no `json`
      method, so the call never returns a value, whatever the server answered. */
  function GuardedJson<T, U>(reply: Outcome<Body<T>>, message: string): (r: Outcome<U>)
    ensures r.Threw?
    ensures reply.Threw? ==> r.failure == reply.failure
    ensures reply.Returned? && reply.value.Object? && !reply.value.okTruthy ==>
      r.failure == ThrownError(message)
    ensures reply.Returned? && (reply.value.Null? || reply.value.okTruthy) ==> r.failure == TypeError
  {
    match reply
    case Threw(f) => Threw(f)
    case Returned(b) =>
      match OkGuard(b, message)
      case Threw(f) => Threw(f)
      case Returned(b2) =>
        match JsonOfBody(b2)
        case Threw(f) => Threw(f)
  }
}
