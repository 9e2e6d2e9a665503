/**
 * The get-run response schema (src/schemas.ts:235-391): a union on `status`
 * (queued, failed, or result-bearing), whose result-bearing branch is a union on
 * the agent family. Fields the schema marks `.nullish()` are `Option`s here:
 * `null` and an absent key both read as `None`.
 */
module RunResponses {
  import opened Wrappers
  import opened Agents
  import Json

  type Metadata = map<string, Json.Json>

  datatype Score = High | Medium | Low

  datatype ResearchStep = ResearchStep(action: string, outcome: Option<string>)

  datatype ResearchLog = ResearchLog(steps: seq<ResearchStep>, conclusion: Option<string>)

  /** A qualification or timing verdict. */
  datatype Assessment = Assessment(score: Score, reason: string)

  datatype MessageBody = MessageBody(markdown: string, html: string)

  datatype Message = Message(body: Option<MessageBody>, subject: Option<string>)

  /** `choice` is "unknown" when the agent could not choose. */
  datatype Verdict = Verdict(choice: string, reason: string)

  /** The `result` object: optional research, plus the field of the run's family. */
  datatype RunResult =
    | ResearchResult(research: Option<ResearchLog>)
    | QualificationResult(research: Option<ResearchLog>, qualification: Option<Assessment>)
    | CopywritingResult(research: Option<ResearchLog>, message: Option<Message>, sequence: Option<seq<Message>>)
    | TimingResult(research: Option<ResearchLog>, timing: Option<Assessment>)
    | ClassificationResult(research: Option<ResearchLog>, classification: Option<Verdict>)

  function ResultFamily(r: RunResult): Family {
    match r
    case ResearchResult(_) => Research
    case QualificationResult(_, _) => Qualification
    case CopywritingResult(_, _, _) => Copywriting
    case TimingResult(_, _) => Timing
    case ClassificationResult(_, _) => Classification
  }

  datatype ResultStatus = Completed | Running

  /**
   * A get-run response. Every branch carries `id`, `agent`, `created_at` and the
   * optional `metadata` and `_status` marker.
   */
  datatype GetRunResponse =
    | QueuedRun(id: string, agent: AgentKind, metadata: Option<Metadata>, createdAt: int, marker: Option<int>)
    | FailedRun(id: string, agent: AgentKind, error: Option<string>, metadata: Option<Metadata>, createdAt: int,
                marker: Option<int>)
    | RunWithResult(id: string, agent: AgentKind, status: ResultStatus, result: RunResult,
                    metadata: Option<Metadata>, createdAt: int, marker: Option<int>)

  /** The `result` of a result-bearing response has the shape of the agent's family. */
  predicate WellFormed(r: GetRunResponse) {
    r.RunWithResult? ==> ResultFamily(r.result) == FamilyOf(r.agent)
  }

  function StatusTag(r: GetRunResponse): string {
    match r
    case QueuedRun(_, _, _, _, _) => "queued"
    case FailedRun(_, _, _, _, _, _) => "failed"
    case RunWithResult(_, _, status, _, _, _, _) => if status == Completed then "completed" else "running"
  }

  /** The branches of the union. */
  datatype Branch = QueuedBranch | FailedBranch | ResultBranch(family: Family)

  function BranchOf(r: GetRunResponse): Branch {
    match r
    case QueuedRun(_, _, _, _, _) => QueuedBranch
    case FailedRun(_, _, _, _, _, _) => FailedBranch
    case RunWithResult(_, agent, _, _, _, _, _) => ResultBranch(FamilyOf(agent))
  }

  /**
   * The branch that a body with these `status` and `agent` values can match. The
   * branches are exclusive by `status`; a result-bearing body's `agent` selects
   * the family's `result` shape; an unknown agent matches no branch.
   */
  function BranchFor(status: string, agent: string): (b: Option<Branch>)
    ensures b.Some? <==> ParseAgent(agent).Some? && status in {"queued", "failed", "completed", "running"}
    ensures b.Some? ==> (b.value == QueuedBranch <==> status == "queued")
    ensures b.Some? ==> (b.value == FailedBranch <==> status == "failed")
    ensures b.Some? && b.value.ResultBranch? ==> b.value.family == FamilyOf(ParseAgent(agent).value)
  {
    match ParseAgent(agent)
    case None => None
    case Some(k) =>
      if status == "queued" then Some(QueuedBranch)
      else if status == "failed" then Some(FailedBranch)
      else if status == "completed" || status == "running" then Some(ResultBranch(FamilyOf(k)))
      else None
  }

  /** Every well-formed response sits in the branch its own `status` and `agent` select. */
  lemma {:induction false} ResponseInItsBranch(r: GetRunResponse)
    requires WellFormed(r)
    ensures BranchFor(StatusTag(r), Tag(r.agent)) == Some(BranchOf(r))
    ensures r.RunWithResult? ==> BranchOf(r) == ResultBranch(ResultFamily(r.result))
  {
    ParseAgentOfTag(r.agent);
  }
}
