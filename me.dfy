/**
 * The `me` endpoint (src/endpoints/me.ts): it never rejects; a failure becomes
 * an error object telling an invalid key apart from everything else.
 */
module Me {
  import opened Wrappers
  import opened Errors
  import opened Json
  import Http

  /** The object `me` returns in place of a failure. */
  function ErrorBody(text: string): (body: Json)
    ensures body.JObject? && body.fields.Keys == {"status", "error"}
    ensures body.fields["status"] == JString("error") && body.fields["error"] == JString(text)
  {
    JObject(map["status" := JString("error"), "error" := JString(text)])
  }

  const INVALID_API_KEY: Json := ErrorBody("Invalid API key")
  const INTERNAL_SERVER_ERROR: Json := ErrorBody("Internal server error")

  /** What `me` returns for the settled outcome of its request. */
  function MeResult(outcome: Result<Json, Thrown>): (body: Json)
    ensures outcome.Success? ==> body == outcome.value
    ensures outcome.Failure? ==>
      body == (if outcome.error.Sdk? && outcome.error.error.kind == Unauthorized
               then INVALID_API_KEY else INTERNAL_SERVER_ERROR)
  {
    match outcome
    case Success(data) => data
    case Failure(Sdk(SDKError(Unauthorized, _))) => INVALID_API_KEY
    case Failure(_) => INTERNAL_SERVER_ERROR
  }

  /**
   * Through the configured client, a failed request reports an invalid key
   * exactly when the server answered 401, and never names an organization.
   */
  lemma {:induction false} MeOnFailure(o: Http.Outcome)
    requires !(o.Response? && Http.IsSuccessStatus(o.status))
    ensures MeResult(Http.Settle(o)) == INVALID_API_KEY <==> o.Response? && o.status == 401
    ensures MeResult(Http.Settle(o)) == INTERNAL_SERVER_ERROR <==> !(o.Response? && o.status == 401)
    ensures "orgName" !in MeResult(Http.Settle(o)).fields
  {
    var r := Http.Settle(o);
    assert r.Failure?;
    assert r.error.error == Http.MapFailure(o);
    assert INVALID_API_KEY.fields["error"] != INTERNAL_SERVER_ERROR.fields["error"];
  }

  /** `MeEndpoints` over the shared client. */
  class MeEndpoints {
    const client: Http.Client

    constructor (client: Http.Client)
      ensures this.client == client
    {
      this.client := client;
    }

    /** `me`: one GET for `/me`, whose outcome is never rethrown. */
    method Me() returns (body: Json)
      requires client.Valid()
      modifies client
      ensures client.Valid()
      ensures client.log == old(client.log) + [Http.GetRequest("/me")]
      ensures body == MeResult(Http.Settle(client.server(old(client.count), Http.GetRequest("/me"))))
    {
      var outcome := client.Request(Http.GetRequest("/me"));
      body := MeResult(outcome);
    }
  }
}
