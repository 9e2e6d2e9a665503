# Utopian Labs SDK — a Dafny model

This project models the core of the Utopian Labs TypeScript SDK:

- **Run-request schemas.** These cover the ten agent tags in five families, with per-family fields: copywriting's `language` and `sequence_length` with their defaults, and classification's `options`. The model includes every inclusive length and range bound, the domain-or-URL check, and the `callback_url` allow/deny substring policy. Lengths are counted in UTF-16 code units. A validator returns either the defaulted value or a non-empty list of issues.
- **Get-run request and response.** The request requires `run` and accepts an optional known `agent`. The response is a union on `status`, and its result-bearing branch is selected by the agent family.
- **Error taxonomy.** Eight error kinds with their wire codes; the `SDKError` record (kind plus optional message, always named "UtopianLabsError"); and `isSDKError`.
- **Client configuration.** Base URL and version defaulting, where an empty string falls back like a missing one, the bearer `Authorization` header, and the `validateStatus` success window of 200..399. The response interceptor maps each failing status, and a missing response, to exactly one error kind and message. As written, a 400 or catch-all response whose body is `null` throws a `TypeError` instead (see "## Findings"); the client and the endpoints use the corrected mapping.
- **Agent-run endpoints.** Validation comes first, and no request is sent when it fails. `get` issues one GET on `/agents/runs/<run>`. `create` issues one POST of the validated value. A validator error becomes a `ValidationError` whose message is "Invalid request data: " followed by every issue rendered as `path: message`. Any other error is rethrown unchanged.
- **`me` endpoint.** It never rejects: an invalid key gives one error object, and every other failure gives another.

Behaviour that lives outside the SDK is passed in as a value of type `Zod.Foreign`:

- the URL parser (`new URL`, `z.string().url()`);
- the validator's e-mail check;
- the validator's default message texts.

The network and the server are a function `(nat, HttpRequest) -> Outcome`, from the request and its position among the client's requests to the outcome. The client (`Http.Client`) counts requests and keeps a log of every request it issued.

Files: `wrappers.dfy` (Option/Result), `text.dfy` (UTF-16 length, lower-casing, `includes`, `join`, decimal rendering), `json.dfy` (decoded bodies, JS truthiness and `String(v)`), `zod.dfy` (issues and foreign behaviour), `errors.dfy`, `agents.dfy`, `fields.dfy` (language codes, URL check, callback policy), `requests.dfy`, `responses.dfy`, `http.dfy`, `runs.dfy`, `me.dfy`, `sdk.dfy`.

`create` is typed `Omit<PostAgentRunResponse, "_status">` but returns the body as received, `_status` included; so does `Runs.AgentRunsEndpoints.Create`.

String bounds count UTF-16 code units, as JavaScript's `.length` does (`Text.Utf16Length`): a character outside the Basic Multilingual Plane counts twice.

## Model

| member | source | states |
|---|---|---|
| Errors.Code | src/errors.ts:2-11 | the wire code of each kind; its inverse is `Errors.FromCode` |
| Errors.IsSdkError | src/errors.ts:25-27 | `isSDKError`: true exactly for SDK errors; characterized by `Errors.ZodNameIdentifiesValidatorErrors` |
| Errors.FromCode | src/errors.ts:2-11 | inverse of the wire codes: a returned kind has exactly that code; a string that is no kind's code yields nothing |
| Errors.FromCodeOfCode | src/errors.ts:2-11 | reading back the code of any kind gives that kind |
| Errors.EightDistinctKinds | src/errors.ts:2-11 | there are exactly eight kinds and no two share a wire code |
| Errors.ZodNameIdentifiesValidatorErrors | src/errors.ts:16-27 | the name "ZodError" belongs to validator errors alone; `isSDKError` holds exactly for errors named "UtopianLabsError" |
| Agents.ParseAgent | src/schemas.ts:168-188 | a string is one of the ten agent tags iff it parses, and it parses to the kind with that tag |
| Agents.ParseAgentOfTag | src/schemas.ts:168-188 | every kind's tag parses back to that kind |
| Agents.FamiliesPartitionTags | src/schemas.ts:168-188 | a tag is in a family's two-tag list iff it parses to a kind of that family; each list holds two distinct tags |
| Agents.FamilyTagsDisjoint | src/schemas.ts:200-209 | no tag is in two families' lists, so a request matches at most one variant |
| FieldRules.ListedFromIsMembership | src/schemas.ts:58-61 | comparing a value with the listed entries in order finds it iff it is in the list |
| FieldRules.LanguageCodesFacts | src/schemas.ts:9-61 | the language list has 44 entries; the default "en-US" is a language code; a value is a language code iff it is listed |
| FieldRules.IsValidDomainOrUrl | src/schemas.ts:63-77 | accepted iff the value parses as a URL or parses with "https://" in front; a value that parses on its own is accepted |
| FieldRules.CallbackAllowed | src/schemas.ts:145-163 | the refinement on `callback_url`: an allowed pattern wins, otherwise no blocked pattern may occur; characterized by `FieldRules.CallbackPolicy` |
| FieldRules.SomePatternIncluded | src/schemas.ts:155-162 | true iff the lower-cased URL contains the lower-cased form of some pattern |
| FieldRules.PatternsAreLowerCase | src/schemas.ts:146-154 | every allowed and blocked pattern is already lower case |
| FieldRules.CallbackPolicy | src/schemas.ts:145-163 | a callback URL passes the policy iff its lower-cased form contains "https://integrations.utopianlabs.ai" or contains none of the six blocked patterns |
| FieldRules.AllowedPatternWins | src/schemas.ts:146-158 | a URL containing the allowed pattern also contains the blocked "utopianlabs", and it is allowed nonetheless |
| FieldRules.BlockedPatternRejects | src/schemas.ts:147-162 | without the allowed pattern, a URL whose lower-cased form contains any blocked pattern is refused |
| FieldRules.CallbackIgnoresCase | src/schemas.ts:155-162 | the policy's verdict depends only on the lower-cased URL |
| FieldRules.AllowedPatternAnywhere | src/schemas.ts:155-158 | the allowed pattern is found anywhere in the URL, with any text before or after it: a substring test, not a prefix test |
| Text.Utf16Length | src/schemas.ts:80-139 | JavaScript's `.length`, which `.min` and `.max` compare: at least the number of characters and at most twice it |
| Text.Utf16LengthIsLengthOnPlaneZero | src/schemas.ts:80-139 | the code-unit length equals the character count iff every character lies in the Basic Multilingual Plane |
| Text.AstralRunLength | src/schemas.ts:80-139 | `k` copies of a character at or above U+10000 take `2 * k` code units |
| Text.Includes | src/schemas.ts:157 | `includes` is true iff the needle occurs at some offset of the text |
| Text.Lower | src/schemas.ts:157 | lower-casing keeps the length and lower-cases each character in place |
| Text.LowerIdempotent | src/schemas.ts:157 | lower-casing twice is lower-casing once |
| Text.JoinContainsParts | src/endpoints/agents/runs.ts:30 | each part of a join occurs in the joined string |
| Text.NatToString | src/endpoints/agents/runs.ts:30 | a path index renders as a non-empty string of decimal digits |
| Text.DecimalRoundTrip | src/endpoints/agents/runs.ts:30 | reading a rendered index back in decimal gives the index |
| Text.NatToStringInjective | src/endpoints/agents/runs.ts:30 | distinct indices render differently |
| Runs.IndexSegmentsDistinct | src/endpoints/agents/runs.ts:30 | two array positions in an issue path render as the same element only if they are the same position |
| Json.ToJsString | src/errors.ts:17 | a string message is kept as it is when an error is built from it |
| RunRequests.MaxLength | src/schemas.ts:79-139 | no issue iff an optional string is absent or its UTF-16 length is within the inclusive bound |
| RunRequests.NumberRange | src/schemas.ts:140-141 | no issue iff an optional number is absent or within its inclusive range |
| RunRequests.DomainOrUrlIssues | src/schemas.ts:101-103 | no issue iff the value passes the domain-or-URL check |
| RunRequests.AstralFullNameRefused | src/schemas.ts:80-83 | a full name of 100 characters outside the Basic Multilingual Plane is 200 code units and is refused |
| RunRequests.FullNameIssues | src/schemas.ts:80-83 | no issue iff the full name is present with 1 to 100 UTF-16 code units; 100 itself is accepted |
| RunRequests.LinkedinIssues | src/schemas.ts:84-88 | no issue iff an absent linkedin URL, or one of at most 500 UTF-16 code units that passes the domain-or-URL check |
| RunRequests.EmailIssues | src/schemas.ts:89-93 | no issue iff an absent e-mail, or one that is an e-mail address of at most 100 UTF-16 code units |
| RunRequests.PersonIssues | src/schemas.ts:79-98 | no issue iff the person has its required keys and the validated person keeps every bound |
| RunRequests.CompanyIssues | src/schemas.ts:100-112 | no issue iff the website is present and passes, and name and description keep their bounds; the website has no length bound |
| RunRequests.PartyIssues | src/schemas.ts:115-124 | no issue iff the company is present and fits and any person fits |
| RunRequests.EventIssues | src/schemas.ts:127-132 | no issue iff the event has a description of at most 10,000 UTF-16 code units |
| RunRequests.EventItemsIssues | src/schemas.ts:126-133 | no issue iff every event from the given position on has a description of at most 10,000 UTF-16 code units |
| RunRequests.EventsIssues | src/schemas.ts:125-135 | no issue iff there are at most 100 events and each one is well formed |
| RunRequests.CallbackUrlIssues | src/schemas.ts:142-164 | no issue iff the callback URL parses as a URL and passes the allow/deny policy |
| RunRequests.PartiesIssues | src/schemas.ts:115-124 | no issue iff `lead` is present and both parties are complete and fit |
| RunRequests.ExtrasIssues | src/schemas.ts:125-164 | no issue iff events, context, both step bounds and the callback URL keep their bounds |
| RunRequests.BaseFitsSplits | src/schemas.ts:114-166 | a base request is complete and fits iff its parties and its other shared keys do |
| RunRequests.BaseIssues | src/schemas.ts:114-166 | no issue iff the shared keys are complete and the validated base request keeps every bound; the two step bounds are not related |
| RunRequests.LanguageIssues | src/schemas.ts:58-61 | no issue iff the language, defaulted to "en-US", is one of the 44 codes |
| RunRequests.ChoiceItemsIssues | src/schemas.ts:190-195 | no issue iff every option from the given position on has a non-empty name |
| RunRequests.OptionsIssues | src/schemas.ts:189-197 | no issue iff options are present, between 2 and 10 of them, each with a non-empty name |
| RunRequests.FamilyIssues | src/schemas.ts:168-198 | no issue iff the fields of the family's own variant are valid; other families check no extra field |
| RunRequests.RunRequestIssues | src/schemas.ts:200-213 | no issue iff the input is complete and its validated value is well formed; an unknown agent yields exactly the discriminator issue |
| RunRequests.WellFormedSplits | src/schemas.ts:200-213 | a request with a known agent is valid iff its base keys and its family's keys are valid |
| RunRequests.WellFormed | src/schemas.ts:114-213 | a request the schema accepts: its variant matches its agent's family and every bound holds |
| RunRequests.ToRunRequest | src/schemas.ts:176-180 | the validated value keeps the caller's agent tag and metadata, and its variant is the agent's family |
| RunRequests.ValidateRunRequest | src/schemas.ts:200-213 | success iff the input is complete and well formed; the value carries the caller's tag and metadata; a failure lists at least one issue; an unknown agent is refused |
| RunRequests.ValidateAsInput | src/schemas.ts:114-213 | every well-formed request, written back as input, validates to itself |
| RunRequests.ValidateIdempotent | src/schemas.ts:114-213 | validating the output of validation gives the same output |
| RunRequests.CopywritingDefaults | src/schemas.ts:176-180 | only copywriting requests carry `language` and `sequence_length`, and a missing one becomes "en-US" or 1 |
| RunRequests.CopywritingKeysDropped | src/schemas.ts:168-198 | for any other family, `language` and `sequence_length` have no effect on the result |
| RunRequests.OptionsKeyDropped | src/schemas.ts:168-198 | for any family other than classification, `options` has no effect on the result |
| RunRequests.StepBoundsIndependent | src/schemas.ts:140-141 | any minimum in 0..20 and maximum in 0..100 are accepted together, including a minimum above the maximum |
| RunRequests.MissingWebsiteReported | src/schemas.ts:101-103 | a company without a website is refused, with a required-key issue at `lead.company.website` |
| RunRequests.EmptyWebsiteReported | src/schemas.ts:101-103 | an empty website is refused with the schema's message when neither "" nor "https://" parses |
| RunRequests.TooFewOptionsReported | src/schemas.ts:196 | a classification request with fewer than two options is refused with "you must provide at least 2 options" |
| RunRequests.BlockedCallbackReported | src/schemas.ts:145-163 | a callback URL containing a blocked pattern and not the allowed one is refused with "This callback URL is not allowed" |
| RunRequests.ValidateGetRunRequest | src/schemas.ts:217-233 | success iff `run` is present and any given agent is one of the ten tags; the value keeps the run and the agent's tag |
| RunRequests.ValidateGetRunRequestRoundTrip | src/schemas.ts:217-233 | every get-run request, written back as input, validates to itself |
| RunResponses.WellFormed | src/schemas.ts:240-391 | a result-bearing response carries a result of its own agent's family |
| RunResponses.BranchFor | src/schemas.ts:240-391 | the branches are exclusive by `status` (queued, failed, or completed/running); a result-bearing body's agent selects its family; an unknown agent or status matches none |
| RunResponses.ResponseInItsBranch | src/schemas.ts:240-391 | every well-formed response sits in the branch its own status and agent select, with a result of its agent's family |
| Http.IsSuccessStatus | src/index.ts:26-28 | `validateStatus`: a status in 200..399 |
| Http.OrFallback | src/index.ts:45 | a non-empty string message is used; an absent or falsy one gives the fallback |
| Http.MapResponse | src/index.ts:38-49 | 401, 402, 404, 400 and 429 map to their kinds and every other status to `ApiError`; four fixed messages; 400 and the rest take the body's message or "Bad request" / "API error" |
| Http.MapFailure | src/index.ts:34-53 | no failure maps to `ValidationError`; `Unknown` is exactly a missing response, with its message or "Network error" |
| Http.Settle | src/index.ts:26-53 | success iff a response with status 200..399, including 3xx, which yields the body; every failure is the SDK error the corrected interceptor maps the outcome to, never a `ValidationError` |
| Http.SuccessWindow | src/index.ts:26-28 | a response resolves to its body when its status is in 200..399 and is otherwise rejected with the mapped error |
| Http.BadRequestMessage | src/index.ts:44-45 | a 400 uses a non-empty `error.message` from the body, else "Bad request" |
| Http.MapResponseAsWritten | src/index.ts:38-50 | the interceptor as written: it throws a `TypeError` exactly for a `null` body with a status other than 401, 402, 404 and 429, and otherwise an SDK error |
| Http.NullBodyEscapesAsWritten | src/index.ts:45-49 | as written, a 400 or 500 with a `null` body throws something that is not an SDK error |
| Http.AsWrittenAgreesOnNonNullBodies | src/index.ts:34-50 | on every non-null body, the code as written and the corrected mapping agree |
| Http.Client.constructor | src/index.ts:20-29 | a new client keeps its base URL, headers and server, and has issued no request |
| Http.Client.Request | src/index.ts:20-53 | one request is appended to the log, and the result is the settled outcome of that request |
| Runs.ValidationMessage | src/endpoints/agents/runs.ts:30 | the message starts with "Invalid request data: " and contains every issue rendered as `path: message` |
| Runs.Translate | src/endpoints/agents/runs.ts:27-33 | a validator error becomes a `ValidationError` with that message; everything else is rethrown unchanged; no validator error escapes |
| Runs.RunPath | src/endpoints/agents/runs.ts:25 | the path is "/agents/runs/" followed by exactly the run identifier |
| Runs.RunPathInjective | src/endpoints/agents/runs.ts:25 | distinct runs address distinct paths |
| Runs.AgentRunsEndpoints.constructor | src/endpoints/agents/runs.ts:11-13 | the endpoints keep the shared client |
| Runs.AgentRunsEndpoints.Get | src/endpoints/agents/runs.ts:20-34 | invalid parameters issue no request and fail with the `ValidationError`; valid ones issue exactly one GET on the run's path and yield the settled outcome, body unvalidated; every failure is an SDK error |
| Runs.AgentRunsEndpoints.Create | src/endpoints/agents/runs.ts:41-55 | invalid data issues no request and fails with the `ValidationError`; valid data issues exactly one POST of the defaulted value and yields the body as received, `_status` included |
| Me.ErrorBody | src/endpoints/me.ts:26-34 | an error result has exactly the keys `status` ("error") and `error` |
| Me.MeResult | src/endpoints/me.ts:17-36 | a success returns the body unchanged; an `Unauthorized` SDK error gives "Invalid API key"; any other failure gives "Internal server error" |
| Me.MeOnFailure | src/endpoints/me.ts:22-34 | through the client, a failure reports an invalid key iff the server answered 401, and never carries `orgName` |
| Me.MeEndpoints.constructor | src/endpoints/me.ts:9-11 | the endpoint keeps the shared client |
| Me.MeEndpoints.Me | src/endpoints/me.ts:17-36 | one GET on `/me`, whose settled outcome is mapped and never rethrown |
| Sdk.OrDefault | src/index.ts:17-18 | a non-empty value is kept; an absent or empty one falls back |
| Sdk.BaseUrl | src/index.ts:17-21 | the client's base URL, the defaulted base and version joined by a slash; characterized by `Sdk.DefaultBaseUrl` and `Sdk.GivenBaseUrl` |
| Sdk.DefaultBaseUrl | src/index.ts:17-21 | with no base URL and no version, or empty ones, the base is "https://api.utopianlabs.ai/v1" |
| Sdk.GivenBaseUrl | src/index.ts:17-21 | a given base URL and version are kept, joined by one slash |
| Sdk.Headers | src/index.ts:22-25 | exactly the `Authorization` and `Content-Type: application/json` headers |
| Sdk.BearerToken | src/index.ts:23 | a token read from a header is what follows "Bearer " |
| Sdk.AuthorizationCarriesKey | src/index.ts:23 | the `Authorization` header hands back exactly the configured API key |
| Sdk.UtopianLabs.constructor | src/index.ts:16-58 | a fresh client with the derived base URL and headers and an empty log, shared by the run endpoints |

## Left out

- The axios transport, Promises and the interceptor registration machinery are not modelled. The transport is a function from request to outcome, and the interceptor is a function applied to each outcome.
- How axios combines the base URL with a request path is not modelled. A request is logged with the path relative to the base URL.
- URL parsing and the validator's e-mail syntax are foreign. They are passed in as predicates.
- The validator's default message texts are foreign. They are passed in as a function of the issue code.
- The validator's issue order is not modelled. The model lists issues in field declaration order; only membership and non-emptiness are stated.
- The validator's key stripping and the merging of the `.and(...)` intersection are not modelled. Unknown keys are not represented at all.
- Type mismatches are not modelled, e.g. a number where a string is expected. Inputs are typed records in which any key except `agent` may be absent. An absent `agent` is represented by any string that is not one of the ten tags, which yields the same discriminator issue.
- Non-integer numbers are not modelled. `min_research_steps`, `max_research_steps` and `timestamp_ms` are integers here, though the schema accepts fractions.
- `metadata` values are opaque.
- `null` and an absent key are not distinguished for the response's `.nullish()` fields.
- `RunResponses.BranchFor`: it describes which branch a body can match. It does not validate a body element by element, because `get` returns bodies unvalidated.
- `zGetMeResponse` and `zPostAgentRunResponse` are not modelled. Bodies are kept as decoded JSON values.
- Lower-casing covers ASCII letters only. Full Unicode case mapping is not modelled.
- Rendering a number as a string covers integers only, in plain decimal. Exponent notation for very large numbers is not modelled.
- An object body message renders as "[object Object]", as it would with the default `toString`. An object that overrides `toString` is not modelled.
- `Object.setPrototypeOf` and `instanceof` are not modelled. The thrown values are a closed datatype.
- `src/types.ts` is not part of this model. It holds only type aliases.
- `src/endpoints/agents/index.ts` only constructs the run endpoints. `Sdk.UtopianLabs` holds those endpoints directly as `runs`, standing for `agents.runs`.
- `Me.MeEndpoints` is not reachable from `Sdk.UtopianLabs`, because the facade builds only the agent endpoints.
- Http.Settle: uses the corrected mapping of the Findings row, so "every failure is an SDK error" holds for the corrected interceptor; the code as written is `Http.MapResponseAsWritten`, which throws a `TypeError` on a `null` body.
- Http.Client.Request: settles each outcome with the corrected mapping of `Http.Settle`, not the interceptor as written.
- Runs.AgentRunsEndpoints.Get: its "every failure is an SDK error" rests on the corrected mapping of `Http.Settle`.
- Runs.AgentRunsEndpoints.Create: its "every failure is an SDK error" rests on the corrected mapping of `Http.Settle`.
- FieldRules.LanguageCodesFacts: does not state that the 44 codes are pairwise distinct, because that check is too costly for the solver.

## Findings

| source | as written | input that shows it | evidently intended | confidence | as-written member | corrected member |
|---|---|---|---|---|---|---|
| src/index.ts:45 | `data.error?.message` guards `error` but not `data`, so a `null` body throws a `TypeError` in the interceptor (also at line 49) | a response with status 400 or 500 whose body is JSON `null` | an SDK error with "Bad request" / "API error", as for a body without a message, since callers are meant to see only the SDK's own errors | not executed | Http.NullBodyEscapesAsWritten | Http.Settle |
