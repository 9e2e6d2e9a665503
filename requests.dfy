/**
 * The run-request schemas (src/schemas.ts:79-233): what a caller passes, the
 * validated value with defaults applied, the bounds every field must keep, and
 * the validator that collects one issue per violated check.
 */
module RunRequests {
  import opened Wrappers
  import opened Zod
  import opened Agents
  import Json
  import Text
  import FieldRules

  type Metadata = map<string, Json.Json>

  // ---------------------------------------------------------------------------
  // What the caller passes: every key may be absent.

  datatype PersonInput = PersonInput(
    fullName: Option<string>, linkedinUrl: Option<string>, email: Option<string>, jobTitle: Option<string>)

  datatype CompanyInput = CompanyInput(website: Option<string>, name: Option<string>, description: Option<string>)

  datatype PartyInput = PartyInput(company: Option<CompanyInput>, person: Option<PersonInput>)

  datatype EventInput = EventInput(description: Option<string>, timestampMs: Option<int>)

  datatype ChoiceInput = ChoiceInput(name: Option<string>, description: Option<string>)

  datatype RunRequestInput = RunRequestInput(
    agent: string,
    lead: Option<PartyInput>,
    user: Option<PartyInput>,
    events: Option<seq<EventInput>>,
    context: Option<string>,
    minResearchSteps: Option<int>,
    maxResearchSteps: Option<int>,
    callbackUrl: Option<string>,
    useMemory: Option<bool>,
    language: Option<string>,
    sequenceLength: Option<int>,
    options: Option<seq<ChoiceInput>>,
    metadata: Option<Metadata>)

  // ---------------------------------------------------------------------------
  // The validated request: one variant per agent family.

  datatype Person = Person(
    fullName: string, linkedinUrl: Option<string>, email: Option<string>, jobTitle: Option<string>)

  datatype Company = Company(website: string, name: Option<string>, description: Option<string>)

  datatype Party = Party(company: Company, person: Option<Person>)

  datatype Event = Event(description: string, timestampMs: Option<int>)

  datatype Choice = Choice(name: string, description: Option<string>)

  datatype BaseRequest = BaseRequest(
    lead: Party,
    user: Option<Party>,
    events: Option<seq<Event>>,
    context: Option<string>,
    minResearchSteps: Option<int>,
    maxResearchSteps: Option<int>,
    callbackUrl: Option<string>,
    useMemory: Option<bool>)

  datatype RunRequest =
    | ResearchRun(agent: AgentKind, base: BaseRequest, metadata: Option<Metadata>)
    | QualificationRun(agent: AgentKind, base: BaseRequest, metadata: Option<Metadata>)
    | CopywritingRun(agent: AgentKind, base: BaseRequest, language: string, sequenceLength: int,
                     metadata: Option<Metadata>)
    | TimingRun(agent: AgentKind, base: BaseRequest, metadata: Option<Metadata>)
    | ClassificationRun(agent: AgentKind, base: BaseRequest, options: seq<Choice>, metadata: Option<Metadata>)

  /** The family whose variant `r` is. */
  function VariantFamily(r: RunRequest): Family {
    match r
    case ResearchRun(_, _, _) => Research
    case QualificationRun(_, _, _) => Qualification
    case CopywritingRun(_, _, _, _, _) => Copywriting
    case TimingRun(_, _, _) => Timing
    case ClassificationRun(_, _, _, _) => Classification
  }

  // ---------------------------------------------------------------------------
  // The bounds a validated request keeps. All bounds are inclusive.

  predicate AtMost(v: Option<string>, n: nat) {
    v.Some? ==> Text.Utf16Length(v.value) <= n
  }

  predicate Within(v: Option<int>, lo: int, hi: int) {
    v.Some? ==> lo <= v.value <= hi
  }

  predicate PersonFits(ext: Foreign, p: Person) {
    && 1 <= Text.Utf16Length(p.fullName) <= 100
    && (p.linkedinUrl.Some? ==>
          Text.Utf16Length(p.linkedinUrl.value) <= 500 && FieldRules.IsValidDomainOrUrl(ext, p.linkedinUrl.value))
    && (p.email.Some? ==> ext.isEmail(p.email.value) && Text.Utf16Length(p.email.value) <= 100)
    && AtMost(p.jobTitle, 100)
  }

  /** The website has no length bound. */
  predicate CompanyFits(ext: Foreign, c: Company) {
    && FieldRules.IsValidDomainOrUrl(ext, c.website)
    && AtMost(c.name, 100)
    && AtMost(c.description, 10_000)
  }

  predicate PartyFits(ext: Foreign, p: Party) {
    CompanyFits(ext, p.company) && (p.person.Some? ==> PersonFits(ext, p.person.value))
  }

  predicate EventFits(e: Event) {
    Text.Utf16Length(e.description) <= 10_000
  }

  /** A callback URL must parse as a URL and pass the allow/deny policy. */
  predicate CallbackUrlFits(ext: Foreign, url: string) {
    ext.parsesAsUrl(url) && FieldRules.CallbackAllowed(url)
  }

  /** No relation between the two step bounds is required. */
  predicate BaseFits(ext: Foreign, b: BaseRequest) {
    && PartyFits(ext, b.lead)
    && (b.user.Some? ==> PartyFits(ext, b.user.value))
    && (b.events.Some? ==>
          |b.events.value| <= 100 && forall i :: 0 <= i < |b.events.value| ==> EventFits(b.events.value[i]))
    && AtMost(b.context, 10_000)
    && Within(b.minResearchSteps, 0, 20)
    && Within(b.maxResearchSteps, 0, 100)
    && (b.callbackUrl.Some? ==> CallbackUrlFits(ext, b.callbackUrl.value))
  }

  predicate ChoicesFit(options: seq<Choice>) {
    2 <= |options| <= 10 && forall i :: 0 <= i < |options| ==> Text.Utf16Length(options[i].name) >= 1
  }

  /** A request the schema accepts: its variant agrees with its agent's family, and every bound holds. */
  predicate WellFormed(ext: Foreign, r: RunRequest) {
    && VariantFamily(r) == FamilyOf(r.agent)
    && BaseFits(ext, r.base)
    && (r.CopywritingRun? ==> FieldRules.IsLanguageCode(r.language) && 1 <= r.sequenceLength <= 10)
    && (r.ClassificationRun? ==> ChoicesFit(r.options))
  }

  // ---------------------------------------------------------------------------
  // Required keys, and the conversion from input to validated value.

  predicate PersonComplete(p: PersonInput) {
    p.fullName.Some?
  }

  predicate CompanyComplete(c: CompanyInput) {
    c.website.Some?
  }

  predicate PartyComplete(p: PartyInput) {
    && p.company.Some? && CompanyComplete(p.company.value)
    && (p.person.Some? ==> PersonComplete(p.person.value))
  }

  predicate EventsComplete(es: seq<EventInput>) {
    forall i :: 0 <= i < |es| ==> es[i].description.Some?
  }

  predicate ChoicesComplete(os: seq<ChoiceInput>) {
    forall i :: 0 <= i < |os| ==> os[i].name.Some?
  }

  predicate BaseComplete(x: RunRequestInput) {
    && x.lead.Some? && PartyComplete(x.lead.value)
    && (x.user.Some? ==> PartyComplete(x.user.value))
    && (x.events.Some? ==> EventsComplete(x.events.value))
  }

  /** The agent tag is known and every key its variant requires is present. */
  predicate Complete(x: RunRequestInput) {
    && ParseAgent(x.agent).Some?
    && BaseComplete(x)
    && (FamilyOf(ParseAgent(x.agent).value) == Classification ==>
          x.options.Some? && ChoicesComplete(x.options.value))
  }

  function ToPerson(p: PersonInput): Person
    requires PersonComplete(p)
  {
    Person(p.fullName.value, p.linkedinUrl, p.email, p.jobTitle)
  }

  function ToCompany(c: CompanyInput): Company
    requires CompanyComplete(c)
  {
    Company(c.website.value, c.name, c.description)
  }

  function ToParty(p: PartyInput): Party
    requires PartyComplete(p)
  {
    Party(ToCompany(p.company.value), if p.person.Some? then Some(ToPerson(p.person.value)) else None)
  }

  function ToEvents(es: seq<EventInput>): (r: seq<Event>)
    requires EventsComplete(es)
    ensures |r| == |es|
    ensures forall i :: 0 <= i < |es| ==> r[i] == Event(es[i].description.value, es[i].timestampMs)
  {
    seq(|es|, i requires 0 <= i < |es| => Event(es[i].description.value, es[i].timestampMs))
  }

  function ToChoices(os: seq<ChoiceInput>): (r: seq<Choice>)
    requires ChoicesComplete(os)
    ensures |r| == |os|
    ensures forall i :: 0 <= i < |os| ==> r[i] == Choice(os[i].name.value, os[i].description)
  {
    seq(|os|, i requires 0 <= i < |os| => Choice(os[i].name.value, os[i].description))
  }

  function ToBase(x: RunRequestInput): BaseRequest
    requires BaseComplete(x)
  {
    BaseRequest(
      ToParty(x.lead.value),
      if x.user.Some? then Some(ToParty(x.user.value)) else None,
      if x.events.Some? then Some(ToEvents(x.events.value)) else None,
      x.context, x.minResearchSteps, x.maxResearchSteps, x.callbackUrl, x.useMemory)
  }

  /**
   * The parsed value: the variant of the agent's family, with `language` defaulting
   * to "en-US" and `sequence_length` to 1 for copywriting, and the keys of other
   * families dropped.
   */
  function ToRunRequest(x: RunRequestInput): (r: RunRequest)
    requires Complete(x)
    ensures Tag(r.agent) == x.agent
    ensures VariantFamily(r) == FamilyOf(r.agent)
    ensures r.metadata == x.metadata
  {
    var k := ParseAgent(x.agent).value;
    var b := ToBase(x);
    match FamilyOf(k)
    case Research => ResearchRun(k, b, x.metadata)
    case Qualification => QualificationRun(k, b, x.metadata)
    case Copywriting =>
      CopywritingRun(k, b, x.language.GetOr(FieldRules.DEFAULT_LANGUAGE), x.sequenceLength.GetOr(1), x.metadata)
    case Timing => TimingRun(k, b, x.metadata)
    case Classification => ClassificationRun(k, b, ToChoices(x.options.value), x.metadata)
  }

  // ---------------------------------------------------------------------------
  // The schema's own messages.

  const URL_OR_DOMAIN_MESSAGE: string := "Please enter a valid URL or domain"
  const FULL_NAME_REQUIRED_MESSAGE: string := "full name is required"
  const FULL_NAME_LENGTH_MESSAGE: string := "full name must be less than 100 characters"
  const LINKEDIN_LENGTH_MESSAGE: string := "linkedin url must be less than 500 characters"
  const EMAIL_LENGTH_MESSAGE: string := "email must be less than 100 characters"
  const JOB_TITLE_LENGTH_MESSAGE: string := "job title must be less than 100 characters"
  const COMPANY_NAME_LENGTH_MESSAGE: string := "company name must be less than 100 characters"
  const COMPANY_DESCRIPTION_LENGTH_MESSAGE: string := "company description must be less than 10,000 characters"
  const EVENT_DESCRIPTION_LENGTH_MESSAGE: string := "event description must be less than 10,000 characters"
  const TOO_MANY_EVENTS_MESSAGE: string := "you can only provide up to 100 events"
  const CALLBACK_NOT_ALLOWED_MESSAGE: string := "This callback URL is not allowed"
  const CONTEXT_LENGTH_MESSAGE: string := "context must be less than 10,000 characters"
  const TOO_FEW_OPTIONS_MESSAGE: string := "you must provide at least 2 options"
  const TOO_MANY_OPTIONS_MESSAGE: string := "you can only provide up to 10 options"

  // ---------------------------------------------------------------------------
  // The issues each check reports.

  function MaxLength(v: Option<string>, n: nat, at: Path, text: string): (r: seq<Issue>)
    ensures r == [] <==> AtMost(v, n)
  {
    if v.Some? && Text.Utf16Length(v.value) > n then [Issue(at, Custom(text))] else []
  }

  /** `z.number().min(lo).max(hi).optional()`: both checks use the library's messages. */
  function NumberRange(v: Option<int>, lo: int, hi: int, at: Path): (r: seq<Issue>)
    ensures r == [] <==> Within(v, lo, hi)
  {
    if v.None? then []
    else if v.value < lo then [Issue(at, Library(TooSmall(lo)))]
    else if v.value > hi then [Issue(at, Library(TooBig(hi)))]
    else []
  }

  function DomainOrUrlIssues(ext: Foreign, v: string, at: Path): (r: seq<Issue>)
    ensures r == [] <==> FieldRules.IsValidDomainOrUrl(ext, v)
  {
    if FieldRules.IsValidDomainOrUrl(ext, v) then [] else [Issue(at, Custom(URL_OR_DOMAIN_MESSAGE))]
  }

  /** `full_name`: required, then `.min(1)` and `.max(100)`. */
  function FullNameIssues(fullName: Option<string>, at: Path): (r: seq<Issue>)
    ensures r == [] <==> fullName.Some? && 1 <= Text.Utf16Length(fullName.value) <= 100
  {
    if fullName.None? then [Issue(at, Library(Required))]
    else
      (if Text.Utf16Length(fullName.value) < 1 then [Issue(at, Custom(FULL_NAME_REQUIRED_MESSAGE))] else [])
      + MaxLength(fullName, 100, at, FULL_NAME_LENGTH_MESSAGE)
  }

  /**
   * The bound counts code units, not characters: a hundred characters outside
   * the Basic Multilingual Plane are two hundred units, over the limit of 100.
   */
  lemma {:induction false} AstralFullNameRefused()
    ensures |seq(100, _ => '\U{1F600}')| == 100
    ensures FullNameIssues(Some(seq(100, _ => '\U{1F600}')), []) != []
  {
    Text.AstralRunLength('\U{1F600}', 100);
  }

  /** `linkedin_url`: `.max(500)`, then the domain-or-URL refinement, which runs even after a failed bound. */
  function LinkedinIssues(ext: Foreign, url: Option<string>, at: Path): (r: seq<Issue>)
    ensures r == [] <==> (url.Some? ==> Text.Utf16Length(url.value) <= 500 && FieldRules.IsValidDomainOrUrl(ext, url.value))
  {
    if url.None? then []
    else
      MaxLength(url, 500, at, LINKEDIN_LENGTH_MESSAGE)
      + DomainOrUrlIssues(ext, url.value, at)
  }

  /** `email`: `.email()`, then `.max(100)`. */
  function EmailIssues(ext: Foreign, email: Option<string>, at: Path): (r: seq<Issue>)
    ensures r == [] <==> (email.Some? ==> ext.isEmail(email.value) && Text.Utf16Length(email.value) <= 100)
  {
    if email.None? then []
    else
      (if ext.isEmail(email.value) then [] else [Issue(at, Library(InvalidEmail))])
      + MaxLength(email, 100, at, EMAIL_LENGTH_MESSAGE)
  }

  function PersonIssues(ext: Foreign, p: PersonInput, at: Path): (r: seq<Issue>)
    ensures r == [] <==> PersonComplete(p) && PersonFits(ext, ToPerson(p))
  {
    FullNameIssues(p.fullName, at + [Key("full_name")])
    + LinkedinIssues(ext, p.linkedinUrl, at + [Key("linkedin_url")])
    + EmailIssues(ext, p.email, at + [Key("email")])
    + MaxLength(p.jobTitle, 100, at + [Key("job_title")], JOB_TITLE_LENGTH_MESSAGE)
  }

  function CompanyIssues(ext: Foreign, c: CompanyInput, at: Path): (r: seq<Issue>)
    ensures r == [] <==> CompanyComplete(c) && CompanyFits(ext, ToCompany(c))
  {
    var website :=
      if c.website.None? then [Issue(at + [Key("website")], Library(Required))]
      else DomainOrUrlIssues(ext, c.website.value, at + [Key("website")]);
    website
    + MaxLength(c.name, 100, at + [Key("name")], COMPANY_NAME_LENGTH_MESSAGE)
    + MaxLength(c.description, 10_000, at + [Key("description")],
                COMPANY_DESCRIPTION_LENGTH_MESSAGE)
  }

  /** The `lead` and `user` objects. */
  function PartyIssues(ext: Foreign, p: PartyInput, at: Path): (r: seq<Issue>)
    ensures r == [] <==> PartyComplete(p) && PartyFits(ext, ToParty(p))
  {
    var company :=
      if p.company.None? then [Issue(at + [Key("company")], Library(Required))]
      else CompanyIssues(ext, p.company.value, at + [Key("company")]);
    var person := if p.person.None? then [] else PersonIssues(ext, p.person.value, at + [Key("person")]);
    company + person
  }

  function EventIssues(e: EventInput, at: Path): (r: seq<Issue>)
    ensures r == [] <==> e.description.Some? && Text.Utf16Length(e.description.value) <= 10_000
  {
    if e.description.None? then [Issue(at + [Key("description")], Library(Required))]
    else MaxLength(e.description, 10_000, at + [Key("description")],
                   EVENT_DESCRIPTION_LENGTH_MESSAGE)
  }

  /** The issues of events `i..`, each under its own index. */
  function EventItemsIssues(es: seq<EventInput>, at: Path, i: nat): (r: seq<Issue>)
    requires i <= |es|
    ensures r == [] <==> forall j :: i <= j < |es| ==> es[j].description.Some? && Text.Utf16Length(es[j].description.value) <= 10_000
    decreases |es| - i
  {
    if i == |es| then []
    else
      EventIssues(es[i], at + [Index(i)]) + EventItemsIssues(es, at, i + 1)
  }

  /** The array's length check runs, and so does every element's. */
  function EventsIssues(es: seq<EventInput>, at: Path): (r: seq<Issue>)
    ensures r == [] <==> EventsComplete(es) && |es| <= 100 && forall i :: 0 <= i < |es| ==> EventFits(ToEvents(es)[i])
  {
    var r := (if |es| > 100 then [Issue(at, Custom(TOO_MANY_EVENTS_MESSAGE))] else [])
      + EventItemsIssues(es, at, 0);
    assert EventsComplete(es) ==> forall i :: 0 <= i < |es| ==> ToEvents(es)[i].description == es[i].description.value;
    r
  }

  /** `.url()` and the allow/deny refinement both run, so both can report. */
  function CallbackUrlIssues(ext: Foreign, url: string, at: Path): (r: seq<Issue>)
    ensures r == [] <==> CallbackUrlFits(ext, url)
  {
    (if ext.parsesAsUrl(url) then [] else [Issue(at, Library(InvalidUrl))])
    + (if FieldRules.CallbackAllowed(url) then [] else [Issue(at, Custom(CALLBACK_NOT_ALLOWED_MESSAGE))])
  }

  /** `lead` is required and both parties are complete and fit. */
  predicate PartiesFit(ext: Foreign, x: RunRequestInput) {
    && x.lead.Some? && PartyComplete(x.lead.value) && PartyFits(ext, ToParty(x.lead.value))
    && (x.user.Some? ==> PartyComplete(x.user.value) && PartyFits(ext, ToParty(x.user.value)))
  }

  function PartiesIssues(ext: Foreign, x: RunRequestInput): (r: seq<Issue>)
    ensures r == [] <==> PartiesFit(ext, x)
  {
    var lead :=
      if x.lead.None? then [Issue([Key("lead")], Library(Required))]
      else PartyIssues(ext, x.lead.value, [Key("lead")]);
    var user := if x.user.None? then [] else PartyIssues(ext, x.user.value, [Key("user")]);
    lead + user
  }

  /** The shared keys other than the parties keep their bounds. */
  predicate ExtrasFit(ext: Foreign, x: RunRequestInput) {
    && (x.events.Some? ==>
          && EventsComplete(x.events.value) && |x.events.value| <= 100
          && forall i :: 0 <= i < |x.events.value| ==> EventFits(ToEvents(x.events.value)[i]))
    && AtMost(x.context, 10_000)
    && Within(x.minResearchSteps, 0, 20)
    && Within(x.maxResearchSteps, 0, 100)
    && (x.callbackUrl.Some? ==> CallbackUrlFits(ext, x.callbackUrl.value))
  }

  function ExtrasIssues(ext: Foreign, x: RunRequestInput): (r: seq<Issue>)
    ensures r == [] <==> ExtrasFit(ext, x)
  {
    var events := if x.events.None? then [] else EventsIssues(x.events.value, [Key("events")]);
    var callback := if x.callbackUrl.None? then [] else CallbackUrlIssues(ext, x.callbackUrl.value, [Key("callback_url")]);
    events
    + MaxLength(x.context, 10_000, [Key("context")], CONTEXT_LENGTH_MESSAGE)
    + NumberRange(x.minResearchSteps, 0, 20, [Key("min_research_steps")])
    + NumberRange(x.maxResearchSteps, 0, 100, [Key("max_research_steps")])
    + callback
  }

  /** The base request is complete and fits exactly when its parties and its other keys do. */
  lemma BaseFitsSplits(ext: Foreign, x: RunRequestInput)
    ensures BaseComplete(x) && BaseFits(ext, ToBase(x)) <==> PartiesFit(ext, x) && ExtrasFit(ext, x)
  {
  }

  function BaseIssues(ext: Foreign, x: RunRequestInput): (r: seq<Issue>)
    ensures r == [] <==> BaseComplete(x) && BaseFits(ext, ToBase(x))
  {
    BaseFitsSplits(ext, x);
    PartiesIssues(ext, x) + ExtrasIssues(ext, x)
  }

  const LANGUAGE_MESSAGE: string :=
    "Language not recognized or supported; please contact support in case you'd like to add support for a language."

  function LanguageIssues(language: Option<string>): (r: seq<Issue>)
    ensures r == [] <==> FieldRules.IsLanguageCode(language.GetOr(FieldRules.DEFAULT_LANGUAGE))
  {
    FieldRules.LanguageCodesFacts();
    if language.None? || FieldRules.IsLanguageCode(language.value) then []
    else [Issue([Key("language")], Custom(LANGUAGE_MESSAGE))]
  }

  function ChoiceItemsIssues(os: seq<ChoiceInput>, at: Path, i: nat): (r: seq<Issue>)
    requires i <= |os|
    ensures r == [] <==> forall j :: i <= j < |os| ==> os[j].name.Some? && Text.Utf16Length(os[j].name.value) >= 1
    decreases |os| - i
  {
    if i == |os| then []
    else
      var name := at + [Index(i), Key("name")];
      var here :=
        if os[i].name.None? then [Issue(name, Library(Required))]
        else if Text.Utf16Length(os[i].name.value) < 1 then [Issue(name, Library(TooShort(1)))]
        else [];
      here + ChoiceItemsIssues(os, at, i + 1)
  }

  /** `options` is required, holds 2 to 10 entries, and every entry needs a non-empty name. */
  function OptionsIssues(options: Option<seq<ChoiceInput>>): (r: seq<Issue>)
    ensures r == [] <==> options.Some? && ChoicesComplete(options.value) && ChoicesFit(ToChoices(options.value))
  {
    var at := [Key("options")];
    if options.None? then [Issue(at, Library(Required))]
    else
      var os := options.value;
      (if |os| < 2 then [Issue(at, Custom(TOO_FEW_OPTIONS_MESSAGE))] else [])
      + (if |os| > 10 then [Issue(at, Custom(TOO_MANY_OPTIONS_MESSAGE))] else [])
      + ChoiceItemsIssues(os, at, 0)
  }

  /** The bounds on the fields only one family has, with copywriting's defaults in place. */
  predicate FamilyFieldsFit(f: Family, x: RunRequestInput) {
    match f
    case Copywriting =>
      FieldRules.IsLanguageCode(x.language.GetOr(FieldRules.DEFAULT_LANGUAGE)) && Within(x.sequenceLength, 1, 10)
    case Classification =>
      x.options.Some? && ChoicesComplete(x.options.value) && ChoicesFit(ToChoices(x.options.value))
    case _ => true
  }

  /** The checks of the fields only one family has; the other families drop those keys. */
  function FamilyIssues(f: Family, x: RunRequestInput): (r: seq<Issue>)
    ensures r == [] <==> FamilyFieldsFit(f, x)
  {
    match f
    case Copywriting =>
      LanguageIssues(x.language) + NumberRange(x.sequenceLength, 1, 10, [Key("sequence_length")])
    case Classification => OptionsIssues(x.options)
    case _ => []
  }

  const UNKNOWN_AGENT: seq<Issue> := [Issue([Key("agent")], Library(InvalidDiscriminator))]

  /**
   * All issues of a request: an unknown tag is the single issue; otherwise the
   * issues of the shared fields and of the family's own fields.
   */
  function RunRequestIssues(ext: Foreign, x: RunRequestInput): (r: seq<Issue>)
    ensures r == [] <==> Complete(x) && WellFormed(ext, ToRunRequest(x))
    ensures ParseAgent(x.agent).None? ==> r == UNKNOWN_AGENT
  {
    match ParseAgent(x.agent)
    case None => UNKNOWN_AGENT
    case Some(k) =>
      var r := BaseIssues(ext, x) + FamilyIssues(FamilyOf(k), x);
      WellFormedSplits(ext, x);
      r
  }

  /** A complete input is well formed exactly when its shared fields and its family's fields fit. */
  lemma WellFormedSplits(ext: Foreign, x: RunRequestInput)
    requires ParseAgent(x.agent).Some?
    ensures Complete(x) && WellFormed(ext, ToRunRequest(x)) <==>
      BaseComplete(x) && BaseFits(ext, ToBase(x)) && FamilyFieldsFit(FamilyOf(ParseAgent(x.agent).value), x)
  {
  }

  /**
   * `zPostAgentRunRequest.parse`: the validated request with defaults applied, or
   * every issue found; the open `metadata` map passes through as given.
   */
  function ValidateRunRequest(ext: Foreign, x: RunRequestInput): (r: Result<RunRequest, seq<Issue>>)
    ensures r.Success? <==> Complete(x) && WellFormed(ext, ToRunRequest(x))
    ensures r.Success? ==> r.value == ToRunRequest(x) && WellFormed(ext, r.value)
    ensures r.Success? ==> Tag(r.value.agent) == x.agent && r.value.metadata == x.metadata
    ensures r.Failure? ==> |r.error| > 0
    ensures ParseAgent(x.agent).None? ==> r == Failure(UNKNOWN_AGENT)
  {
    var issues := RunRequestIssues(ext, x);
    if issues == [] then Success(ToRunRequest(x)) else Failure(issues)
  }

  // ---------------------------------------------------------------------------
  // Properties of the validator.

  function PersonAsInput(p: Person): PersonInput {
    PersonInput(Some(p.fullName), p.linkedinUrl, p.email, p.jobTitle)
  }

  function PartyAsInput(p: Party): PartyInput {
    PartyInput(
      Some(CompanyInput(Some(p.company.website), p.company.name, p.company.description)),
      if p.person.Some? then Some(PersonAsInput(p.person.value)) else None)
  }

  function EventsAsInput(es: seq<Event>): (r: seq<EventInput>)
    ensures |r| == |es|
    ensures forall i :: 0 <= i < |es| ==> r[i] == EventInput(Some(es[i].description), es[i].timestampMs)
  {
    seq(|es|, i requires 0 <= i < |es| => EventInput(Some(es[i].description), es[i].timestampMs))
  }

  function ChoicesAsInput(os: seq<Choice>): (r: seq<ChoiceInput>)
    ensures |r| == |os|
    ensures forall i :: 0 <= i < |os| ==> r[i] == ChoiceInput(Some(os[i].name), os[i].description)
  {
    seq(|os|, i requires 0 <= i < |os| => ChoiceInput(Some(os[i].name), os[i].description))
  }

  /** A validated request written back as caller input: the body `create` sends. */
  function AsInput(r: RunRequest): RunRequestInput {
    var b := r.base;
    RunRequestInput(
      Tag(r.agent),
      Some(PartyAsInput(b.lead)),
      if b.user.Some? then Some(PartyAsInput(b.user.value)) else None,
      if b.events.Some? then Some(EventsAsInput(b.events.value)) else None,
      b.context, b.minResearchSteps, b.maxResearchSteps, b.callbackUrl, b.useMemory,
      if r.CopywritingRun? then Some(r.language) else None,
      if r.CopywritingRun? then Some(r.sequenceLength) else None,
      if r.ClassificationRun? then Some(ChoicesAsInput(r.options)) else None,
      r.metadata)
  }

  lemma PartyRoundTrip(p: Party)
    ensures PartyComplete(PartyAsInput(p)) && ToParty(PartyAsInput(p)) == p
  {
  }

  lemma EventsRoundTrip(es: seq<Event>)
    ensures EventsComplete(EventsAsInput(es)) && ToEvents(EventsAsInput(es)) == es
  {
    assert ToEvents(EventsAsInput(es)) == es;
  }

  lemma ChoicesRoundTrip(os: seq<Choice>)
    ensures ChoicesComplete(ChoicesAsInput(os)) && ToChoices(ChoicesAsInput(os)) == os
  {
    assert ToChoices(ChoicesAsInput(os)) == os;
  }

  /**
   * Every request the schema accepts is accepted again, unchanged, when passed in
   * as input: parsing a parsed value is the identity, and nothing is lost from it.
   */
  lemma {:induction false} ValidateAsInput(ext: Foreign, r: RunRequest)
    requires WellFormed(ext, r)
    ensures ValidateRunRequest(ext, AsInput(r)) == Success(r)
  {
    var x := AsInput(r);
    ParseAgentOfTag(r.agent);
    PartyRoundTrip(r.base.lead);
    if r.base.user.Some? { PartyRoundTrip(r.base.user.value); }
    if r.base.events.Some? { EventsRoundTrip(r.base.events.value); }
    if r.ClassificationRun? { ChoicesRoundTrip(r.options); }
    assert Complete(x);
    assert ToBase(x) == r.base;
    assert ToRunRequest(x) == r;
  }

  /** Validating the output of validation gives the same output. */
  lemma {:induction false} ValidateIdempotent(ext: Foreign, x: RunRequestInput)
    requires ValidateRunRequest(ext, x).Success?
    ensures ValidateRunRequest(ext, AsInput(ValidateRunRequest(ext, x).value)) == ValidateRunRequest(ext, x)
  {
    ValidateAsInput(ext, ValidateRunRequest(ext, x).value);
  }

  /**
   * Only copywriting requests carry `language` and `sequence_length`; when the
   * caller leaves them out they become "en-US" and 1.
   */
  lemma {:induction false} CopywritingDefaults(ext: Foreign, x: RunRequestInput)
    requires ValidateRunRequest(ext, x).Success?
    ensures var r := ValidateRunRequest(ext, x).value;
      && (r.CopywritingRun? <==> FamilyOf(r.agent) == Copywriting)
      && (r.CopywritingRun? ==> r.language == x.language.GetOr("en-US"))
      && (r.CopywritingRun? ==> r.sequenceLength == x.sequenceLength.GetOr(1))
  {
  }

  /** Families other than copywriting drop `language` and `sequence_length`. */
  lemma {:induction false} CopywritingKeysDropped(ext: Foreign, x: RunRequestInput)
    requires ParseAgent(x.agent).Some? && FamilyOf(ParseAgent(x.agent).value) != Copywriting
    ensures ValidateRunRequest(ext, x) == ValidateRunRequest(ext, x.(language := None, sequenceLength := None))
  {
    var f := FamilyOf(ParseAgent(x.agent).value);
    var y := x.(language := None, sequenceLength := None);
    assert BaseIssues(ext, y) == BaseIssues(ext, x);
    assert FamilyIssues(f, y) == FamilyIssues(f, x);
    assert RunRequestIssues(ext, y) == RunRequestIssues(ext, x);
    if Complete(x) {
      assert ToBase(y) == ToBase(x);
      assert ToRunRequest(y) == ToRunRequest(x);
    }
  }

  /** Families other than classification drop `options`. */
  lemma {:induction false} OptionsKeyDropped(ext: Foreign, x: RunRequestInput)
    requires ParseAgent(x.agent).Some? && FamilyOf(ParseAgent(x.agent).value) != Classification
    ensures ValidateRunRequest(ext, x) == ValidateRunRequest(ext, x.(options := None))
  {
    var f := FamilyOf(ParseAgent(x.agent).value);
    var y := x.(options := None);
    assert BaseIssues(ext, y) == BaseIssues(ext, x);
    assert FamilyIssues(f, y) == FamilyIssues(f, x);
    assert RunRequestIssues(ext, y) == RunRequestIssues(ext, x);
    if Complete(x) {
      assert ToBase(y) == ToBase(x);
      assert ToRunRequest(y) == ToRunRequest(x);
    }
  }

  /**
   * The two step bounds are checked separately: any in-range pair is accepted,
   * also one whose minimum exceeds its maximum.
   */
  lemma {:induction false} StepBoundsIndependent(ext: Foreign, x: RunRequestInput, lo: int, hi: int)
    requires ValidateRunRequest(ext, x).Success?
    requires 0 <= lo <= 20 && 0 <= hi <= 100
    ensures ValidateRunRequest(ext, x.(minResearchSteps := Some(lo), maxResearchSteps := Some(hi))).Success?
  {
    var y := x.(minResearchSteps := Some(lo), maxResearchSteps := Some(hi));
    assert Complete(x);
    var f := FamilyOf(ParseAgent(x.agent).value);
    WellFormedSplits(ext, x);
    WellFormedSplits(ext, y);
    BaseFitsSplits(ext, x);
    BaseFitsSplits(ext, y);
    assert PartiesFit(ext, y) == PartiesFit(ext, x);
    assert ExtrasFit(ext, y);
    assert FamilyFieldsFit(f, y) == FamilyFieldsFit(f, x);
  }

  /** A missing company website is reported at `lead.company.website`. */
  lemma {:induction false} MissingWebsiteReported(ext: Foreign, x: RunRequestInput)
    requires ParseAgent(x.agent).Some?
    requires x.lead.Some? && x.lead.value.company.Some? && x.lead.value.company.value.website.None?
    ensures ValidateRunRequest(ext, x).Failure?
    ensures Issue([Key("lead"), Key("company"), Key("website")], Library(Required)) in ValidateRunRequest(ext, x).error
  {
    var issue := Issue([Key("lead"), Key("company"), Key("website")], Library(Required));
    assert [Key("lead")] + [Key("company")] == [Key("lead"), Key("company")];
    assert [Key("lead"), Key("company")] + [Key("website")] == issue.path;
    var company := CompanyIssues(ext, x.lead.value.company.value, [Key("lead"), Key("company")]);
    assert issue in company;
    assert issue in PartyIssues(ext, x.lead.value, [Key("lead")]);
    assert issue in PartiesIssues(ext, x);
    assert issue in BaseIssues(ext, x);
  }

  /** An empty website is reported at the same path, since neither "" nor "https://" parses. */
  lemma {:induction false} EmptyWebsiteReported(ext: Foreign, x: RunRequestInput)
    requires !ext.parsesAsUrl("") && !ext.parsesAsUrl("https://")
    requires ParseAgent(x.agent).Some?
    requires x.lead.Some? && x.lead.value.company.Some? && x.lead.value.company.value.website == Some("")
    ensures ValidateRunRequest(ext, x).Failure?
    ensures Issue([Key("lead"), Key("company"), Key("website")], Custom(URL_OR_DOMAIN_MESSAGE))
      in ValidateRunRequest(ext, x).error
  {
    var issue := Issue([Key("lead"), Key("company"), Key("website")], Custom(URL_OR_DOMAIN_MESSAGE));
    assert "https://" + "" == "https://";
    assert [Key("lead")] + [Key("company")] == [Key("lead"), Key("company")];
    assert [Key("lead"), Key("company")] + [Key("website")] == issue.path;
    var company := CompanyIssues(ext, x.lead.value.company.value, [Key("lead"), Key("company")]);
    assert issue in company;
    assert issue in PartyIssues(ext, x.lead.value, [Key("lead")]);
    assert issue in PartiesIssues(ext, x);
    assert issue in BaseIssues(ext, x);
  }

  /** A classification request with fewer than two options fails with the schema's message. */
  lemma {:induction false} TooFewOptionsReported(ext: Foreign, x: RunRequestInput)
    requires ParseAgent(x.agent).Some? && FamilyOf(ParseAgent(x.agent).value) == Classification
    requires x.options.Some? && |x.options.value| < 2
    ensures ValidateRunRequest(ext, x).Failure?
    ensures Issue([Key("options")], Custom(TOO_FEW_OPTIONS_MESSAGE)) in ValidateRunRequest(ext, x).error
  {
    var issue := Issue([Key("options")], Custom(TOO_FEW_OPTIONS_MESSAGE));
    assert issue in OptionsIssues(x.options);
    assert issue in FamilyIssues(Classification, x);
  }

  /**
   * A callback URL that does not contain the allowed pattern but contains a
   * blocked one, "localhost" say, fails with the policy's message.
   */
  lemma {:induction false} BlockedCallbackReported(ext: Foreign, x: RunRequestInput, p: string)
    requires ParseAgent(x.agent).Some?
    requires x.callbackUrl.Some?
    requires !Text.Occurs(Text.Lower(x.callbackUrl.value), "https://integrations.utopianlabs.ai")
    requires p in FieldRules.BLOCKED_CALLBACK_PATTERNS && Text.Occurs(Text.Lower(x.callbackUrl.value), p)
    ensures ValidateRunRequest(ext, x).Failure?
    ensures Issue([Key("callback_url")], Custom(CALLBACK_NOT_ALLOWED_MESSAGE)) in ValidateRunRequest(ext, x).error
  {
    var issue := Issue([Key("callback_url")], Custom(CALLBACK_NOT_ALLOWED_MESSAGE));
    FieldRules.BlockedPatternRejects(x.callbackUrl.value, p);
    assert issue in CallbackUrlIssues(ext, x.callbackUrl.value, [Key("callback_url")]);
    assert issue in ExtrasIssues(ext, x);
    assert issue in BaseIssues(ext, x);
  }

  // ---------------------------------------------------------------------------
  // The get-run request (src/schemas.ts:217-233).

  datatype GetRunRequestInput = GetRunRequestInput(agent: Option<string>, run: Option<string>)

  datatype GetRunRequest = GetRunRequest(agent: Option<AgentKind>, run: string)

  /** `zGetAgentRunRequest.parse`: `run` is required; `agent`, when given, must be one of the ten tags. */
  function ValidateGetRunRequest(x: GetRunRequestInput): (r: Result<GetRunRequest, seq<Issue>>)
    ensures r.Success? <==> x.run.Some? && (x.agent.Some? ==> ParseAgent(x.agent.value).Some?)
    ensures r.Success? ==> r.value.run == x.run.value
    ensures r.Success? ==> (r.value.agent.Some? <==> x.agent.Some?)
    ensures r.Success? && x.agent.Some? ==> Tag(r.value.agent.value) == x.agent.value
    ensures r.Failure? ==> |r.error| > 0
  {
    var agent :=
      if x.agent.Some? && ParseAgent(x.agent.value).None? then [Issue([Key("agent")], Library(InvalidEnumValue))]
      else [];
    var run := if x.run.None? then [Issue([Key("run")], Library(Required))] else [];
    if agent + run == [] then
      Success(GetRunRequest(if x.agent.Some? then ParseAgent(x.agent.value) else None, x.run.value))
    else Failure(agent + run)
  }

  /** A parsed get-run request, passed in again, parses to itself. */
  lemma {:induction false} ValidateGetRunRequestRoundTrip(g: GetRunRequest)
    ensures ValidateGetRunRequest(GetRunRequestInput(
      if g.agent.Some? then Some(Tag(g.agent.value)) else None, Some(g.run))) == Success(g)
  {
    if g.agent.Some? { ParseAgentOfTag(g.agent.value); }
  }
}
