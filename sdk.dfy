/**
 * The `UtopianLabs` facade (src/index.ts): the base URL and headers it derives
 * from its configuration, and the endpoints it builds over one client.
 */
module Sdk {
  import opened Wrappers
  import Zod
  import Http
  import Runs

  /** `UtopianLabsConfig`: the API key, and an optional base URL and version. */
  datatype Config = Config(apiKey: string, baseUrl: Option<string>, version: Option<string>)

  const DEFAULT_BASE_URL: string := "https://api.utopianlabs.ai"
  const DEFAULT_VERSION: string := "v1"

  /** `v || fallback` for an optional string: absent and empty both fall back. */
  function OrDefault(v: Option<string>, fallback: string): (r: string)
    ensures v.Some? && v.value != "" ==> r == v.value
    ensures v.None? || v.value == "" ==> r == fallback
  {
    if v.Some? && v.value != "" then v.value else fallback
  }

  /** The client's base URL: `${baseURL}/${version}`. */
  function BaseUrl(c: Config): string {
    OrDefault(c.baseUrl, DEFAULT_BASE_URL) + "/" + OrDefault(c.version, DEFAULT_VERSION)
  }

  /** Without a base URL or version, requests go to the production `v1` API; an empty string counts as none. */
  lemma {:induction false} DefaultBaseUrl(key: string, base: Option<string>, version: Option<string>)
    requires base == None || base == Some("")
    requires version == None || version == Some("")
    ensures BaseUrl(Config(key, base, version)) == "https://api.utopianlabs.ai/v1"
  {
  }

  /** A given base URL and version are kept, separated by one slash. */
  lemma {:induction false} GivenBaseUrl(key: string, base: string, version: string)
    requires base != "" && version != ""
    ensures var u := BaseUrl(Config(key, Some(base), Some(version)));
      |u| == |base| + 1 + |version| && u[..|base|] == base && u[|base|] == '/' && u[|base| + 1..] == version
  {
  }

  const BEARER: string := "Bearer "

  /** The headers every request carries. */
  function Headers(c: Config): (h: map<string, string>)
    ensures h.Keys == {"Authorization", "Content-Type"}
    ensures h["Content-Type"] == "application/json"
  {
    map["Authorization" := BEARER + c.apiKey, "Content-Type" := "application/json"]
  }

  /** The key in a bearer `Authorization` value. */
  function BearerToken(header: string): (r: Option<string>)
    ensures r.Some? ==> header == BEARER + r.value
  {
    if |header| >= |BEARER| && header[..|BEARER|] == BEARER then Some(header[|BEARER|..]) else None
  }

  /** The `Authorization` header hands the server exactly the configured key. */
  lemma {:induction false} AuthorizationCarriesKey(c: Config)
    ensures BearerToken(Headers(c)["Authorization"]) == Some(c.apiKey)
  {
    var h := BEARER + c.apiKey;
    assert h[..|BEARER|] == BEARER;
    assert h[|BEARER|..] == c.apiKey;
  }

  /**
   * `UtopianLabs`: one client, configured from `config`, shared by the run
   * endpoints (`agents.runs`).
   */
  class UtopianLabs {
    const client: Http.Client
    const runs: Runs.AgentRunsEndpoints

    constructor (config: Config, server: (nat, Http.HttpRequest) -> Http.Outcome, ext: Zod.Foreign)
      ensures fresh(client) && client.Valid() && client.log == []
      ensures client.baseUrl == BaseUrl(config) && client.headers == Headers(config) && client.server == server
      ensures runs.client == client && runs.ext == ext
    {
      var c := new Http.Client(BaseUrl(config), Headers(config), server);
      client := c;
      runs := new Runs.AgentRunsEndpoints(c, ext);
    }
  }
}
