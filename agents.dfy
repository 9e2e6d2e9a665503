/** The ten agent tags and the five families they fall into (src/schemas.ts:168-233). */
module Agents {
  import opened Wrappers

  datatype AgentKind =
    | R1 | R1Light
    | R1Qualification | R1QualificationLight
    | R1Copywriting | R1CopywritingLight
    | R1Timing | R1TimingLight
    | R1Classification | R1ClassificationLight

  datatype Family = Research | Qualification | Copywriting | Timing | Classification

  function Tag(k: AgentKind): string {
    match k
    case R1 => "r1"
    case R1Light => "r1-light"
    case R1Qualification => "r1-qualification"
    case R1QualificationLight => "r1-qualification-light"
    case R1Copywriting => "r1-copywriting"
    case R1CopywritingLight => "r1-copywriting-light"
    case R1Timing => "r1-timing"
    case R1TimingLight => "r1-timing-light"
    case R1Classification => "r1-classification"
    case R1ClassificationLight => "r1-classification-light"
  }

  function FamilyOf(k: AgentKind): Family {
    match k
    case R1 | R1Light => Research
    case R1Qualification | R1QualificationLight => Qualification
    case R1Copywriting | R1CopywritingLight => Copywriting
    case R1Timing | R1TimingLight => Timing
    case R1Classification | R1ClassificationLight => Classification
  }

  /** The `agent` enum of each request variant, as the schema lists it. */
  function FamilyTags(f: Family): seq<string> {
    match f
    case Research => ["r1", "r1-light"]
    case Qualification => ["r1-qualification", "r1-qualification-light"]
    case Copywriting => ["r1-copywriting", "r1-copywriting-light"]
    case Timing => ["r1-timing", "r1-timing-light"]
    case Classification => ["r1-classification", "r1-classification-light"]
  }

  /** The agent a tag names, if it names one of the ten. */
  function ParseAgent(s: string): (r: Option<AgentKind>)
    ensures r.Some? ==> Tag(r.value) == s
    ensures r.None? ==> forall k :: Tag(k) != s
  {
    if s == "r1" then Some(R1)
    else if s == "r1-light" then Some(R1Light)
    else if s == "r1-qualification" then Some(R1Qualification)
    else if s == "r1-qualification-light" then Some(R1QualificationLight)
    else if s == "r1-copywriting" then Some(R1Copywriting)
    else if s == "r1-copywriting-light" then Some(R1CopywritingLight)
    else if s == "r1-timing" then Some(R1Timing)
    else if s == "r1-timing-light" then Some(R1TimingLight)
    else if s == "r1-classification" then Some(R1Classification)
    else if s == "r1-classification-light" then Some(R1ClassificationLight)
    else None
  }

  lemma ParseAgentOfTag(k: AgentKind)
    ensures ParseAgent(Tag(k)) == Some(k)
  {
  }

  /**
   * The five variants' enums partition the ten tags into disjoint pairs: a tag is
   * in the enum of family `f` exactly when it names an agent of family `f`. So a
   * tag matches at most one request variant, and a tag outside the ten matches none.
   */
  lemma FamiliesPartitionTags(s: string, f: Family)
    ensures s in FamilyTags(f) <==> ParseAgent(s).Some? && FamilyOf(ParseAgent(s).value) == f
    ensures |FamilyTags(f)| == 2 && FamilyTags(f)[0] != FamilyTags(f)[1]
  {
  }

  /** A tag selects at most one family. */
  lemma FamilyTagsDisjoint(s: string, f: Family, g: Family)
    requires s in FamilyTags(f) && s in FamilyTags(g)
    ensures f == g
  {
    FamiliesPartitionTags(s, f);
    FamiliesPartitionTags(s, g);
  }
}
