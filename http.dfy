/**
 * The HTTP client the SDK configures (src/index.ts:20-54): which statuses count
 * as success, and the response interceptor that turns every failure into an
 * `SDKError`. The network and the server are a function from the request and
 * its position among the client's requests to what came back.
 */
module Http {
  import opened Wrappers
  import opened Errors
  import opened Json
  import RunRequests

  /** A request, relative to the client's base URL; a POST carries the validated run request. */
  datatype HttpRequest = GetRequest(path: string) | PostRequest(path: string, body: RunRequests.RunRequest)

  /** What one request produced: a response with its decoded body, or no response at all. */
  datatype Outcome = Response(status: int, data: Json) | NoResponse(message: string)

  /** `validateStatus`: 2xx and 3xx responses resolve; every other status fails. */
  predicate IsSuccessStatus(status: int) {
    200 <= status && status < 400
  }

  /** `v || fallback`, where `v` is a property read that may be undefined. */
  function OrFallback(v: Option<Json>, fallback: string): (m: string)
    ensures v.Some? && v.value.JString? && v.value.s != "" ==> m == v.value.s
    ensures v.None? || !Truthy(v.value) ==> m == fallback
  {
    if v.Some? && Truthy(v.value) then ToJsString(v.value) else fallback
  }

  /** `data.error?.message` on a body that is not null. */
  function NestedErrorMessage(data: Json): Option<Json>
    requires !data.JNull?
  {
    var e := Get(data, "error");
    if e.None? || e.value.JNull? then None else Get(e.value, "message")
  }

  /** The body's `error.message` when it is present and truthy, else `fallback`; a null body has none. */
  function BodyMessageOr(data: Json, fallback: string): string {
    if data.JNull? then fallback else OrFallback(NestedErrorMessage(data), fallback)
  }

  /** The statuses with a kind of their own; every other failing status is an `ApiError`. */
  const STATUS_KINDS: map<int, SDKErrorType> :=
    map[401 := Unauthorized, 402 := PaymentRequired, 404 := NotFound, 400 := BadRequest, 429 := RateLimitExceeded]

  /**
   * The interceptor's error for a response outside the success window. Four
   * statuses carry fixed messages; 400 and the rest take the body's message or a
   * fallback.
   */
  function MapResponse(status: int, data: Json): (e: SDKError)
    ensures e.kind == if status in STATUS_KINDS then STATUS_KINDS[status] else ApiError
    ensures status == 401 ==> e.message == Some("Invalid API key")
    ensures status == 402 ==> e.message == Some("Payment required")
    ensures status == 404 ==> e.message == Some("Resource not found")
    ensures status == 429 ==> e.message == Some("Rate limit exceeded")
    ensures status == 400 ==> e.message == Some(BodyMessageOr(data, "Bad request"))
    ensures status !in STATUS_KINDS ==> e.message == Some(BodyMessageOr(data, "API error"))
  {
    if status == 401 then SDKError(Unauthorized, Some("Invalid API key"))
    else if status == 402 then SDKError(PaymentRequired, Some("Payment required"))
    else if status == 404 then SDKError(NotFound, Some("Resource not found"))
    else if status == 400 then SDKError(BadRequest, Some(BodyMessageOr(data, "Bad request")))
    else if status == 429 then SDKError(RateLimitExceeded, Some("Rate limit exceeded"))
    else SDKError(ApiError, Some(BodyMessageOr(data, "API error")))
  }

  /** The interceptor's error for any failure: no response at all is `Unknown`. */
  function MapFailure(o: Outcome): (e: SDKError)
    requires !(o.Response? && IsSuccessStatus(o.status))
    ensures e.kind != ValidationError
    ensures e.kind == Unknown <==> o.NoResponse?
    ensures o.NoResponse? ==> e.message == Some(if o.message == "" then "Network error" else o.message)
  {
    match o
    case Response(status, data) => MapResponse(status, data)
    case NoResponse(message) => SDKError(Unknown, Some(if message == "" then "Network error" else message))
  }

  /**
   * What a request through the configured client yields: the body of a response
   * in the success window, and otherwise a rejection with an SDK error.
   */
  function Settle(o: Outcome): (r: Result<Json, Thrown>)
    ensures r.Success? <==> o.Response? && IsSuccessStatus(o.status)
    ensures r.Success? ==> r.value == o.data
    ensures r.Failure? ==> IsSdkError(r.error) && r.error.error.kind != ValidationError
    ensures r.Failure? ==> r.error == Sdk(MapFailure(o))
  {
    if o.Response? && IsSuccessStatus(o.status) then Success(o.data) else Failure(Sdk(MapFailure(o)))
  }

  /** A 2xx or 3xx response resolves to its body, whatever the body holds. */
  lemma {:induction false} SuccessWindow(status: int, data: Json)
    ensures Settle(Response(status, data)) == (
      if 200 <= status < 400 then Success(data) else Failure(Sdk(MapResponse(status, data))))
  {
  }

  /** A 400 takes a non-empty `error.message` from the body, and "Bad request" without one. */
  lemma {:induction false} BadRequestMessage(text: string)
    ensures text != "" ==>
      MapResponse(400, JObject(map["error" := JObject(map["message" := JString(text)])]))
        == SDKError(BadRequest, Some(text))
    ensures MapResponse(400, JObject(map["error" := JObject(map["message" := JString("")])]))
        == SDKError(BadRequest, Some("Bad request"))
    ensures MapResponse(400, JObject(map[])) == SDKError(BadRequest, Some("Bad request"))
  {
    var withText := JObject(map["error" := JObject(map["message" := JString(text)])]);
    assert NestedErrorMessage(withText) == Some(JString(text));
  }

  // ---------------------------------------------------------------------------
  // The interceptor as written reads `data.error` without `?.` on `data`: a body
  // that decodes to JSON `null` makes the 400 and catch-all branches throw a
  // `TypeError`, which reaches the caller instead of an SDK error.

  const NULL_READ: Thrown := TypeError("Cannot read properties of null (reading 'error')")

  /** The interceptor as written: a `null` body makes the message lookup itself throw. */
  function MapResponseAsWritten(status: int, data: Json): (r: Thrown)
    ensures r.TypeError? <==> data.JNull? && status !in {401, 402, 404, 429}
    ensures r.Sdk? || r == NULL_READ
  {
    if status == 401 then Sdk(SDKError(Unauthorized, Some("Invalid API key")))
    else if status == 402 then Sdk(SDKError(PaymentRequired, Some("Payment required")))
    else if status == 404 then Sdk(SDKError(NotFound, Some("Resource not found")))
    else if status == 400 then
      if data.JNull? then NULL_READ else Sdk(SDKError(BadRequest, Some(OrFallback(NestedErrorMessage(data), "Bad request"))))
    else if status == 429 then Sdk(SDKError(RateLimitExceeded, Some("Rate limit exceeded")))
    else
      if data.JNull? then NULL_READ else Sdk(SDKError(ApiError, Some(OrFallback(NestedErrorMessage(data), "API error"))))
  }

  /** A 500 (or 400) response whose body is `null` escapes the error taxonomy. */
  lemma NullBodyEscapesAsWritten()
    ensures !IsSdkError(MapResponseAsWritten(500, JNull))
    ensures !IsSdkError(MapResponseAsWritten(400, JNull))
  {
  }

  /** On every other body the code as written and `MapResponse` agree. */
  lemma {:induction false} AsWrittenAgreesOnNonNullBodies(status: int, data: Json)
    requires !data.JNull?
    ensures MapResponseAsWritten(status, data) == Sdk(MapResponse(status, data))
  {
  }

  /**
   * The configured client. `server(i, req)` is what the network produced for the
   * `i`-th request; `log` records every request issued, in order.
   */
  class Client {
    const baseUrl: string
    const headers: map<string, string>
    const server: (nat, HttpRequest) -> Outcome
    var count: nat
    ghost var log: seq<HttpRequest>

    ghost predicate Valid()
      reads this
    {
      count == |log|
    }

    constructor (baseUrl: string, headers: map<string, string>, server: (nat, HttpRequest) -> Outcome)
      ensures Valid() && log == []
      ensures this.baseUrl == baseUrl && this.headers == headers && this.server == server
    {
      this.baseUrl := baseUrl;
      this.headers := headers;
      this.server := server;
      count := 0;
      log := [];
    }

    /** Issue one request and settle its outcome. */
    method Request(req: HttpRequest) returns (r: Result<Json, Thrown>)
      requires Valid()
      modifies this
      ensures Valid() && log == old(log) + [req]
      ensures r == Settle(server(old(count), req))
    {
      r := Settle(server(count, req));
      count := count + 1;
      log := log + [req];
    }
  }
}
