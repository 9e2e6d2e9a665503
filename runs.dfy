/**
 * The agent-run endpoints (src/endpoints/agents/runs.ts): validate the caller's
 * parameters, issue the request, and turn the validator's error into an SDK
 * `ValidationError` whose message lists every issue.
 */
module Runs {
  import opened Wrappers
  import opened Zod
  import opened Errors
  import Text
  import Json
  import RunRequests
  import Http

  /** A path element as `Array.prototype.join` renders it: keys as they are, indices in decimal. */
  function SegmentText(s: Segment): string {
    match s
    case Key(name) => name
    case Index(position) => Text.NatToString(position)
  }

  /** Two positions in an array render as the same path element only if they are the same position. */
  lemma {:induction false} IndexSegmentsDistinct(i: nat, j: nat)
    ensures SegmentText(Index(i)) == SegmentText(Index(j)) ==> i == j
  {
    if SegmentText(Index(i)) == SegmentText(Index(j)) {
      Text.NatToStringInjective(i, j);
    }
  }

  /** `issue.path.join(".")`. */
  function PathText(p: Path): string {
    Text.Join(seq(|p|, i requires 0 <= i < |p| => SegmentText(p[i])), ".")
  }

  /** `issue.message`: the schema's own text, or the library's default for the code. */
  function IssueText(ext: Foreign, m: IssueMessage): string {
    match m
    case Custom(text) => text
    case Library(code) => ext.libraryText(code)
  }

  /** One issue as the endpoints render it: `path: message`. */
  function RenderIssue(ext: Foreign, issue: Issue): string {
    PathText(issue.path) + ": " + IssueText(ext, issue.message)
  }

  const VALIDATION_PREFIX: string := "Invalid request data: "

  /** The message of the `ValidationError`: the prefix, then every rendered issue. */
  function ValidationMessage(ext: Foreign, issues: seq<Issue>): (m: string)
    ensures |m| >= |VALIDATION_PREFIX| && m[..|VALIDATION_PREFIX|] == VALIDATION_PREFIX
    ensures forall i :: 0 <= i < |issues| ==> Text.Occurs(m, RenderIssue(ext, issues[i]))
  {
    var rendered := seq(|issues|, i requires 0 <= i < |issues| => RenderIssue(ext, issues[i]));
    var joined := Text.Join(rendered, ", ");
    assert forall i :: 0 <= i < |issues| ==> Text.Occurs(VALIDATION_PREFIX + joined, RenderIssue(ext, issues[i])) by {
      forall i | 0 <= i < |issues| ensures Text.Occurs(VALIDATION_PREFIX + joined, RenderIssue(ext, issues[i])) {
        Text.JoinContainsParts(rendered, ", ", i);
        Text.OccursAfterPrefix(VALIDATION_PREFIX, joined, rendered[i]);
      }
    }
    VALIDATION_PREFIX + joined
  }

  /**
   * The endpoints' `catch`: a thrown value named "ZodError" becomes a
   * `ValidationError`; anything else is rethrown as it is.
   */
  function Translate(ext: Foreign, t: Thrown): (r: Thrown)
    ensures !r.ZodError?
    ensures t.ZodError? ==> r == Sdk(SDKError(ValidationError, Some(ValidationMessage(ext, t.issues))))
    ensures !t.ZodError? ==> r == t
  {
    if ErrorName(t) == "ZodError" then
      Sdk(SDKError(ValidationError, Some(ValidationMessage(ext, t.issues))))
    else t
  }

  /** The path of one run, relative to the client's base URL. */
  function RunPath(run: string): (p: string)
    ensures |p| == |"/agents/runs/"| + |run| && p[|"/agents/runs/"|..] == run
  {
    "/agents/runs/" + run
  }

  /** Distinct run identifiers address distinct paths. */
  lemma {:induction false} RunPathInjective(a: string, b: string)
    requires RunPath(a) == RunPath(b)
    ensures a == b
  {
    assert a == RunPath(a)[|"/agents/runs/"|..];
  }

  const CREATE_PATH: string := "/agents/runs"

  /** `client.agents.runs`: the two endpoints over the shared client. */
  class AgentRunsEndpoints {
    const client: Http.Client
    const ext: Foreign

    constructor (client: Http.Client, ext: Foreign)
      ensures this.client == client && this.ext == ext
    {
      this.client := client;
      this.ext := ext;
    }

    /**
     * `get`: invalid parameters fail with a `ValidationError` before any request;
     * valid ones issue one GET for the run and yield the response body as it is.
     */
    method Get(params: RunRequests.GetRunRequestInput) returns (r: Result<Json.Json, Thrown>)
      requires client.Valid()
      modifies client
      ensures client.Valid()
      ensures r.Failure? ==> IsSdkError(r.error)
      ensures RunRequests.ValidateGetRunRequest(params).Failure? ==>
        client.log == old(client.log) && client.count == old(client.count) &&
        r == Failure(Sdk(SDKError(ValidationError,
          Some(ValidationMessage(ext, RunRequests.ValidateGetRunRequest(params).error)))))
      ensures RunRequests.ValidateGetRunRequest(params).Success? ==>
        var req := Http.GetRequest(RunPath(params.run.value));
        client.log == old(client.log) + [req] && r == Http.Settle(client.server(old(client.count), req))
    {
      var validated := RunRequests.ValidateGetRunRequest(params);
      if validated.Failure? {
        r := Failure(Translate(ext, ZodError(validated.error)));
        return;
      }
      var response := client.Request(Http.GetRequest(RunPath(validated.value.run)));
      if response.Failure? {
        r := Failure(Translate(ext, response.error));
      } else {
        r := response;
      }
    }

    /**
     * `create`: invalid data fails with a `ValidationError` before any request;
     * valid data is POSTed as the validator returned it, and the response body is
     * yielded as it is, `_status` included.
     */
    method Create(data: RunRequests.RunRequestInput) returns (r: Result<Json.Json, Thrown>)
      requires client.Valid()
      modifies client
      ensures client.Valid()
      ensures r.Failure? ==> IsSdkError(r.error)
      ensures RunRequests.ValidateRunRequest(ext, data).Failure? ==>
        client.log == old(client.log) && client.count == old(client.count) &&
        r == Failure(Sdk(SDKError(ValidationError,
          Some(ValidationMessage(ext, RunRequests.ValidateRunRequest(ext, data).error)))))
      ensures RunRequests.ValidateRunRequest(ext, data).Success? ==>
        var req := Http.PostRequest(CREATE_PATH, RunRequests.ValidateRunRequest(ext, data).value);
        client.log == old(client.log) + [req] && r == Http.Settle(client.server(old(client.count), req))
    {
      var validated := RunRequests.ValidateRunRequest(ext, data);
      if validated.Failure? {
        r := Failure(Translate(ext, ZodError(validated.error)));
        return;
      }
      var response := client.Request(Http.PostRequest(CREATE_PATH, validated.value));
      if response.Failure? {
        r := Failure(Translate(ext, response.error));
      } else {
        r := response;
      }
    }
  }
}
