/** The shared vocabulary of the orchestrator: its enumerations, and the records that are
    stored, exchanged and persisted as dictionaries (task contracts, gates, gate options and
    responses, review results, decisions, artifacts, builder manifests, project health).
    Each record has a `...ToDict` / `...FromDict` pair; `FromDict` reads only the record's own
    field names, so keys outside them are ignored, and it inverts `ToDict`. */
module Models {
  import opened Wrappers
  import opened Values

  // ---------------------------------------------------------------------------
  // Enumerations and their string values
  // ---------------------------------------------------------------------------

  /** Project lifecycle phase. */
  datatype Phase = VisionIntake | SystemDesign | DetailedDesign | BuildDecomposition | BuildSupervision | Validation {
    function Value(): string {
      match this
      case VisionIntake => "vision_intake"
      case SystemDesign => "system_design"
      case DetailedDesign => "detailed_design"
      case BuildDecomposition => "build_decomposition"
      case BuildSupervision => "build_supervision"
      case Validation => "validation"
    }
  }

  function PhaseFromValue(s: string): (r: Option<Phase>)
    ensures r.Some? ==> r.value.Value() == s
  {
    if s == "vision_intake" then Some(VisionIntake)
    else if s == "system_design" then Some(SystemDesign)
    else if s == "detailed_design" then Some(DetailedDesign)
    else if s == "build_decomposition" then Some(BuildDecomposition)
    else if s == "build_supervision" then Some(BuildSupervision)
    else if s == "validation" then Some(Validation)
    else None
  }

  lemma PhaseValueRoundTrip(p: Phase)
    ensures PhaseFromValue(p.Value()) == Some(p)
  {
  }

  datatype GateType = VisionConfirmed | SystemDesignGate | DetailedDesignGate | TierComplete | ScopeChange | ConstitutionalException | FinalDelivery {
    function Value(): string {
      match this
      case VisionConfirmed => "vision_confirmed"
      case SystemDesignGate => "system_design"
      case DetailedDesignGate => "detailed_design"
      case TierComplete => "tier_complete"
      case ScopeChange => "scope_change"
      case ConstitutionalException => "constitutional"
      case FinalDelivery => "final"
    }
  }

  function GateTypeFromValue(s: string): (r: Option<GateType>)
    ensures r.Some? ==> r.value.Value() == s
  {
    if s == "vision_confirmed" then Some(VisionConfirmed)
    else if s == "system_design" then Some(SystemDesignGate)
    else if s == "detailed_design" then Some(DetailedDesignGate)
    else if s == "tier_complete" then Some(TierComplete)
    else if s == "scope_change" then Some(ScopeChange)
    else if s == "constitutional" then Some(ConstitutionalException)
    else if s == "final" then Some(FinalDelivery)
    else None
  }

  lemma GateTypeValueRoundTrip(t: GateType)
    ensures GateTypeFromValue(t.Value()) == Some(t)
  {
  }

  const PENDING := "pending"
  const APPROVED := "approved"
  const REJECTED := "rejected"
  const DEFERRED := "deferred"

  /** GateStatus values. */
  const GateStatuses: seq<string> := [PENDING, APPROVED, REJECTED, DEFERRED]

  const ACCEPT := "accept"
  const REJECT := "reject"
  const REVISE := "revise"
  const ESCALATE := "escalate"

  /** ReviewVerdict values. */
  const Verdicts: seq<string> := [ACCEPT, REJECT, REVISE, ESCALATE]

  /** TaskType values. */
  const TaskTypes: seq<string> :=
    ["state_schema", "flow", "constraint", "failure_recovery", "dependency_cascade", "ux_layer", "general"]

  const GENERAL := "general"

  /** TaskStatus values. */
  const DISPATCHED := "dispatched"
  const IN_PROGRESS := "in_progress"
  const COMPLETED := "completed"
  const REVISION_REQUESTED := "revision_requested"
  const TaskStatuses: seq<string> := [PENDING, DISPATCHED, IN_PROGRESS, COMPLETED, REJECTED, REVISION_REQUESTED]

  /** GateResponseType values: the six ways a human can answer a gate. */
  const CHOOSE := "choose"
  const CHOOSE_WITH_MODIFICATIONS := "choose_with_modifications"
  const COMBINE := "combine"
  const REVISE_AND_PROCEED := "revise_and_proceed"
  const EXPLORE_DIFFERENTLY := "explore_differently"
  const REJECT_RESPONSE := "reject"
  const GateResponseTypes: seq<string> :=
    [CHOOSE, CHOOSE_WITH_MODIFICATIONS, COMBINE, REVISE_AND_PROCEED, EXPLORE_DIFFERENTLY, REJECT_RESPONSE]

  /** The string-valued enumerations have pairwise distinct values. */
  lemma EnumValuesDistinct()
    ensures forall i, j :: 0 <= i < j < |GateStatuses| ==> GateStatuses[i] != GateStatuses[j]
    ensures forall i, j :: 0 <= i < j < |Verdicts| ==> Verdicts[i] != Verdicts[j]
    ensures forall i, j :: 0 <= i < j < |TaskTypes| ==> TaskTypes[i] != TaskTypes[j]
    ensures forall i, j :: 0 <= i < j < |TaskStatuses| ==> TaskStatuses[i] != TaskStatuses[j]
    ensures forall i, j :: 0 <= i < j < |GateResponseTypes| ==> GateResponseTypes[i] != GateResponseTypes[j]
  {
  }

  // ---------------------------------------------------------------------------
  // Builder task contract
  // ---------------------------------------------------------------------------

  /** A scoped task dispatched to a builder; `dependsOn` and `parallelGroup` are set by the decomposer. */
  datatype Task = Task(
    taskId: string,
    taskName: string,
    buildTier: int,
    subsystem: string,
    taskType: string,
    objective: string,
    inputs: seq<string>,
    scopeMustBuild: seq<string>,
    scopeMustNotTouch: seq<string>,
    schemaToImplement: string,
    rulesToImplement: seq<string>,
    constraintsToEnforce: seq<string>,
    verbsUsed: seq<string>,
    interfacesReceives: seq<string>,
    interfacesProduces: seq<string>,
    testCriteria: seq<string>,
    status: string,
    assignedProvider: string,
    createdAt: string,
    completedAt: string,
    dependsOn: seq<string>,
    parallelGroup: int)

  /** A task with every field at its dataclass default. */
  function DefaultTask(): (t: Task)
    ensures t.status == PENDING && t.taskType == GENERAL && t.buildTier == 1
    ensures t.dependsOn == [] && t.parallelGroup == 0
  {
    Task("", "", 1, "", GENERAL, "", [], [], [], "", [], [], [], [], [], [], PENDING, "", "", "", [], 0)
  }

  const TaskKeys: seq<string> := [
    "task_id", "task_name", "build_tier", "subsystem", "task_type", "objective", "inputs",
    "scope_must_build", "scope_must_not_touch", "schema_to_implement", "rules_to_implement",
    "constraints_to_enforce", "verbs_used", "interfaces_receives", "interfaces_produces",
    "test_criteria", "status", "assigned_provider", "created_at", "completed_at",
    "depends_on", "parallel_group"]

  function TaskFieldValues(t: Task): (r: seq<Value>)
    ensures |r| == |TaskKeys|
  {
    [Str(t.taskId), Str(t.taskName), Int(t.buildTier), Str(t.subsystem), Str(t.taskType),
     Str(t.objective), StrList(t.inputs), StrList(t.scopeMustBuild), StrList(t.scopeMustNotTouch),
     Str(t.schemaToImplement), StrList(t.rulesToImplement), StrList(t.constraintsToEnforce),
     StrList(t.verbsUsed), StrList(t.interfacesReceives), StrList(t.interfacesProduces),
     StrList(t.testCriteria), Str(t.status), Str(t.assignedProvider), Str(t.createdAt),
     Str(t.completedAt), StrList(t.dependsOn), Int(t.parallelGroup)]
  }

  /** `BuilderTaskContract.to_dict()` */
  function TaskToDict(t: Task): Value {
    Record(TaskKeys, TaskFieldValues(t))
  }

  function TaskFromFields(f: seq<Option<Value>>): Task
    requires |f| == |TaskKeys|
  {
    Task(
      AsStr(f[0], ""), AsStr(f[1], ""), AsInt(f[2], 1), AsStr(f[3], ""), AsStr(f[4], GENERAL),
      AsStr(f[5], ""), AsStrListOpt(f[6]), AsStrListOpt(f[7]), AsStrListOpt(f[8]), AsStr(f[9], ""),
      AsStrListOpt(f[10]), AsStrListOpt(f[11]), AsStrListOpt(f[12]), AsStrListOpt(f[13]),
      AsStrListOpt(f[14]), AsStrListOpt(f[15]), AsStr(f[16], PENDING), AsStr(f[17], ""),
      AsStr(f[18], ""), AsStr(f[19], ""), AsStrListOpt(f[20]), AsInt(f[21], 0))
  }

  /** `BuilderTaskContract.from_dict(data)`: each field read under its own key, in `TaskKeys` order. */
  function TaskFromDict(d: Value): Task {
    TaskFromFields(Lookup(d, TaskKeys))
  }

  lemma TaskFieldsRoundTrip(t: Task)
    ensures TaskFromFields(Somes(TaskFieldValues(t))) == t
  {
  }

  lemma TaskRoundTrip(t: Task)
    ensures TaskFromDict(TaskToDict(t)) == t
  {
    assert DistinctStrings(TaskKeys);
    LookupRecord(TaskKeys, TaskFieldValues(t));
    TaskFieldsRoundTrip(t);
  }

  /** Keys that are not task fields do not influence `TaskFromDict`. */
  lemma TaskFromDictIgnoresUnknownKeys(d1: Value, d2: Value)
    requires AgreeOn(d1, d2, set k | k in TaskKeys)
    ensures TaskFromDict(d1) == TaskFromDict(d2)
  {
    LookupAgree(d1, d2, TaskKeys);
  }

  /** An empty dictionary reads as the default task. */
  lemma TaskFromEmptyDict()
    ensures TaskFromDict(Dict([], map[])) == DefaultTask()
  {
  }

  // ---------------------------------------------------------------------------
  // Gates: options, responses and the gate record
  // ---------------------------------------------------------------------------

  /** One option of a gate card. */
  datatype GateOption = GateOption(
    letter: string,
    name: string,
    isRecommended: bool,
    summary: string,
    keyCharacteristics: seq<string>,
    optimizesFor: string,
    costs: string,
    consequence1st: string,
    consequence2nd: string,
    consequence3rd: string,
    subsystems: int,
    builderTasks: string,
    estimatedCost: string,
    timeline: string,
    risk: string,
    recommendationRationale: string)

  const GateOptionKeys: seq<string> := [
    "letter", "name", "is_recommended", "summary", "key_characteristics", "optimizes_for", "costs",
    "consequence_1st", "consequence_2nd", "consequence_3rd", "subsystems", "builder_tasks",
    "estimated_cost", "timeline", "risk", "recommendation_rationale"]

  function GateOptionFieldValues(o: GateOption): (r: seq<Value>)
    ensures |r| == |GateOptionKeys|
  {
    [Str(o.letter), Str(o.name), Bool(o.isRecommended), Str(o.summary), StrList(o.keyCharacteristics),
     Str(o.optimizesFor), Str(o.costs), Str(o.consequence1st), Str(o.consequence2nd),
     Str(o.consequence3rd), Int(o.subsystems), Str(o.builderTasks), Str(o.estimatedCost),
     Str(o.timeline), Str(o.risk), Str(o.recommendationRationale)]
  }

  function GateOptionToDict(o: GateOption): Value {
    Record(GateOptionKeys, GateOptionFieldValues(o))
  }

  function GateOptionFromFields(f: seq<Option<Value>>): GateOption
    requires |f| == |GateOptionKeys|
  {
    GateOption(
      AsStr(f[0], ""), AsStr(f[1], ""), AsBool(f[2], false), AsStr(f[3], ""), AsStrListOpt(f[4]),
      AsStr(f[5], ""), AsStr(f[6], ""), AsStr(f[7], ""), AsStr(f[8], ""), AsStr(f[9], ""),
      AsInt(f[10], 0), AsStr(f[11], ""), AsStr(f[12], ""), AsStr(f[13], ""), AsStr(f[14], ""),
      AsStr(f[15], ""))
  }

  function GateOptionFromDict(d: Value): GateOption {
    GateOptionFromFields(Lookup(d, GateOptionKeys))
  }

  lemma GateOptionFieldsRoundTrip(o: GateOption)
    ensures GateOptionFromFields(Somes(GateOptionFieldValues(o))) == o
  {
  }

  lemma GateOptionRoundTrip(o: GateOption)
    ensures GateOptionFromDict(GateOptionToDict(o)) == o
  {
    assert DistinctStrings(GateOptionKeys);
    LookupRecord(GateOptionKeys, GateOptionFieldValues(o));
    GateOptionFieldsRoundTrip(o);
  }

  /** A human's answer to a gate; which text field matters depends on `responseType`. */
  datatype GateResponse = GateResponse(
    responseType: string,
    chosenOption: string,
    modifications: string,
    combineInstructions: string,
    revisionFeedback: string,
    redirectInstructions: string,
    rejectionReason: string,
    respondedAt: string)

  const GateResponseKeys: seq<string> := [
    "response_type", "chosen_option", "modifications", "combine_instructions",
    "revision_feedback", "redirect_instructions", "rejection_reason", "responded_at"]

  function GateResponseFieldValues(r: GateResponse): (v: seq<Value>)
    ensures |v| == |GateResponseKeys|
  {
    [Str(r.responseType), Str(r.chosenOption), Str(r.modifications), Str(r.combineInstructions),
     Str(r.revisionFeedback), Str(r.redirectInstructions), Str(r.rejectionReason), Str(r.respondedAt)]
  }

  function GateResponseToDict(r: GateResponse): Value {
    Record(GateResponseKeys, GateResponseFieldValues(r))
  }

  function GateResponseFromFields(f: seq<Option<Value>>): GateResponse
    requires |f| == |GateResponseKeys|
  {
    GateResponse(AsStr(f[0], ""), AsStr(f[1], ""), AsStr(f[2], ""), AsStr(f[3], ""),
                 AsStr(f[4], ""), AsStr(f[5], ""), AsStr(f[6], ""), AsStr(f[7], ""))
  }

  function GateResponseFromDict(d: Value): GateResponse {
    GateResponseFromFields(Lookup(d, GateResponseKeys))
  }

  lemma GateResponseFieldsRoundTrip(r: GateResponse)
    ensures GateResponseFromFields(Somes(GateResponseFieldValues(r))) == r
  {
  }

  lemma GateResponseRoundTrip(r: GateResponse)
    ensures GateResponseFromDict(GateResponseToDict(r)) == r
  {
    assert DistinctStrings(GateResponseKeys);
    LookupRecord(GateResponseKeys, GateResponseFieldValues(r));
    GateResponseFieldsRoundTrip(r);
  }

  /** An approval checkpoint. `humanResponse` is None until the gate is answered. */
  datatype Gate = Gate(
    gateId: string,
    gateType: string,
    phase: string,
    trigger: string,
    status: string,
    summary: string,
    architectRawResponse: string,
    artifacts: seq<string>,
    decisionsMade: seq<Value>,
    questions: seq<string>,
    options: seq<GateOption>,
    humanResponse: Option<GateResponse>,
    approvedAt: Option<string>,
    conditions: seq<string>,
    recommendedOption: string,
    createdAt: string)

  const GateKeys: seq<string> := [
    "gate_id", "gate_type", "phase", "trigger", "status", "summary", "architect_raw_response",
    "artifacts", "decisions_made", "questions", "options", "human_response", "approved_at",
    "conditions", "recommended_option", "created_at"]

  function GateFieldValues(g: Gate): (r: seq<Value>)
    ensures |r| == |GateKeys|
  {
    [Str(g.gateId), Str(g.gateType), Str(g.phase), Str(g.trigger), Str(g.status), Str(g.summary),
     Str(g.architectRawResponse), StrList(g.artifacts), List(g.decisionsMade), StrList(g.questions),
     EncodeList(g.options, GateOptionToDict),
     (match g.humanResponse case Some(r) => GateResponseToDict(r) case None => Null),
     OptStr(g.approvedAt), StrList(g.conditions), Str(g.recommendedOption), Str(g.createdAt)]
  }

  function GateToDict(g: Gate): Value {
    Record(GateKeys, GateFieldValues(g))
  }

  function GateFromFields(f: seq<Option<Value>>): Gate
    requires |f| == |GateKeys|
  {
    Gate(
      AsStr(f[0], ""), AsStr(f[1], "vision_confirmed"), AsStr(f[2], ""), AsStr(f[3], ""),
      AsStr(f[4], PENDING), AsStr(f[5], ""), AsStr(f[6], ""), AsStrListOpt(f[7]), AsList(f[8]),
      AsStrListOpt(f[9]), DecodeList(List(AsList(f[10])), GateOptionFromDict),
      (if f[11].Some? && f[11].value.Dict? then Some(GateResponseFromDict(f[11].value)) else None),
      AsOptStr(f[12]), AsStrListOpt(f[13]), AsStr(f[14], ""), AsStr(f[15], ""))
  }

  function GateFromDict(d: Value): Gate {
    GateFromFields(Lookup(d, GateKeys))
  }

  lemma GateOptionListRoundTrip(os: seq<GateOption>)
    ensures DecodeList(EncodeList(os, GateOptionToDict), GateOptionFromDict) == os
  {
    forall o: GateOption ensures GateOptionFromDict(GateOptionToDict(o)) == o {
      GateOptionRoundTrip(o);
    }
    ListRoundTrip(os, GateOptionToDict, GateOptionFromDict);
  }

  lemma GateFieldsRoundTrip(g: Gate)
    ensures GateFromFields(Somes(GateFieldValues(g))) == g
  {
    GateOptionListRoundTrip(g.options);
    if g.humanResponse.Some? {
      GateResponseRoundTrip(g.humanResponse.value);
    }
  }

  lemma GateRoundTrip(g: Gate)
    ensures GateFromDict(GateToDict(g)) == g
  {
    assert DistinctStrings(GateKeys);
    LookupRecord(GateKeys, GateFieldValues(g));
    GateFieldsRoundTrip(g);
  }

  lemma GateFromDictIgnoresUnknownKeys(d1: Value, d2: Value)
    requires AgreeOn(d1, d2, set k | k in GateKeys)
    ensures GateFromDict(d1) == GateFromDict(d2)
  {
    LookupAgree(d1, d2, GateKeys);
  }

  // ---------------------------------------------------------------------------
  // Review results
  // ---------------------------------------------------------------------------

  datatype CheckResult = CheckResult(checkName: string, passed: bool, message: string)

  const CheckResultKeys: seq<string> := ["check_name", "passed", "message"]

  function CheckResultFieldValues(c: CheckResult): (v: seq<Value>)
    ensures |v| == |CheckResultKeys|
  {
    [Str(c.checkName), Bool(c.passed), Str(c.message)]
  }

  function CheckResultToDict(c: CheckResult): Value {
    Record(CheckResultKeys, CheckResultFieldValues(c))
  }

  function CheckResultFromFields(f: seq<Option<Value>>): CheckResult
    requires |f| == |CheckResultKeys|
  {
    CheckResult(AsStr(f[0], ""), AsBool(f[1], true), AsStr(f[2], ""))
  }

  function CheckResultFromDict(d: Value): CheckResult {
    CheckResultFromFields(Lookup(d, CheckResultKeys))
  }

  lemma CheckResultFieldsRoundTrip(c: CheckResult)
    ensures CheckResultFromFields(Somes(CheckResultFieldValues(c))) == c
  {
  }

  lemma CheckResultRoundTrip(c: CheckResult)
    ensures CheckResultFromDict(CheckResultToDict(c)) == c
  {
    assert DistinctStrings(CheckResultKeys);
    LookupRecord(CheckResultKeys, CheckResultFieldValues(c));
    CheckResultFieldsRoundTrip(c);
  }

  /** Outcome of the three-stage review of one task. */
  datatype ReviewResult = ReviewResult(
    reviewId: string,
    taskId: string,
    verdict: string,
    automatedChecks: seq<CheckResult>,
    architectNotes: string,
    integrationIssues: seq<string>,
    revisionInstructions: Option<string>,
    escalationReason: Option<string>,
    reviewedAt: string)

  const ReviewResultKeys: seq<string> := [
    "review_id", "task_id", "verdict", "automated_checks", "architect_notes", "integration_issues",
    "revision_instructions", "escalation_reason", "reviewed_at"]

  function ReviewResultFieldValues(r: ReviewResult): (v: seq<Value>)
    ensures |v| == |ReviewResultKeys|
  {
    [Str(r.reviewId), Str(r.taskId), Str(r.verdict), EncodeList(r.automatedChecks, CheckResultToDict),
     Str(r.architectNotes), StrList(r.integrationIssues), OptStr(r.revisionInstructions),
     OptStr(r.escalationReason), Str(r.reviewedAt)]
  }

  function ReviewResultToDict(r: ReviewResult): Value {
    Record(ReviewResultKeys, ReviewResultFieldValues(r))
  }

  function ReviewResultFromFields(f: seq<Option<Value>>): ReviewResult
    requires |f| == |ReviewResultKeys|
  {
    ReviewResult(
      AsStr(f[0], ""), AsStr(f[1], ""), AsStr(f[2], ACCEPT),
      DecodeList(List(AsList(f[3])), CheckResultFromDict), AsStr(f[4], ""), AsStrListOpt(f[5]),
      AsOptStr(f[6]), AsOptStr(f[7]), AsStr(f[8], ""))
  }

  function ReviewResultFromDict(d: Value): ReviewResult {
    ReviewResultFromFields(Lookup(d, ReviewResultKeys))
  }

  lemma ReviewResultFieldsRoundTrip(r: ReviewResult)
    ensures ReviewResultFromFields(Somes(ReviewResultFieldValues(r))) == r
  {
    forall c: CheckResult ensures CheckResultFromDict(CheckResultToDict(c)) == c {
      CheckResultRoundTrip(c);
    }
    ListRoundTrip(r.automatedChecks, CheckResultToDict, CheckResultFromDict);
  }

  lemma ReviewResultRoundTrip(r: ReviewResult)
    ensures ReviewResultFromDict(ReviewResultToDict(r)) == r
  {
    assert DistinctStrings(ReviewResultKeys);
    LookupRecord(ReviewResultKeys, ReviewResultFieldValues(r));
    ReviewResultFieldsRoundTrip(r);
  }

  // ---------------------------------------------------------------------------
  // Lineage records
  // ---------------------------------------------------------------------------

  /** A design decision: `madeBy` is "human", "architect" or "builder". */
  datatype Decision = Decision(
    decisionId: string,
    timestamp: string,
    madeBy: string,
    decisionType: string,
    description: string,
    rationale: string,
    visionReference: Option<string>,
    constitutionalBasis: string)

  const DecisionKeys: seq<string> := [
    "decision_id", "timestamp", "made_by", "decision_type", "description", "rationale",
    "vision_reference", "constitutional_basis"]

  function DecisionFieldValues(x: Decision): (v: seq<Value>)
    ensures |v| == |DecisionKeys|
  {
    [Str(x.decisionId), Str(x.timestamp), Str(x.madeBy), Str(x.decisionType), Str(x.description),
     Str(x.rationale), OptStr(x.visionReference), Str(x.constitutionalBasis)]
  }

  function DecisionToDict(x: Decision): Value {
    Record(DecisionKeys, DecisionFieldValues(x))
  }

  function DecisionFromFields(f: seq<Option<Value>>): Decision
    requires |f| == |DecisionKeys|
  {
    Decision(AsStr(f[0], ""), AsStr(f[1], ""), AsStr(f[2], ""), AsStr(f[3], ""), AsStr(f[4], ""),
             AsStr(f[5], ""), AsOptStr(f[6]), AsStr(f[7], ""))
  }

  function DecisionFromDict(d: Value): Decision {
    DecisionFromFields(Lookup(d, DecisionKeys))
  }

  lemma DecisionFieldsRoundTrip(x: Decision)
    ensures DecisionFromFields(Somes(DecisionFieldValues(x))) == x
  {
  }

  lemma DecisionRoundTrip(x: Decision)
    ensures DecisionFromDict(DecisionToDict(x)) == x
  {
    assert DistinctStrings(DecisionKeys);
    LookupRecord(DecisionKeys, DecisionFieldValues(x));
    DecisionFieldsRoundTrip(x);
  }

  /** A produced file and the chain of ids it traces back through. */
  datatype Artifact = Artifact(
    artifactId: string,
    filePath: string,
    producedBy: string,
    taskId: Option<string>,
    tier: int,
    subsystem: Option<string>,
    reviewId: string,
    lineage: seq<string>)

  const ArtifactKeys: seq<string> := [
    "artifact_id", "file_path", "produced_by", "task_id", "tier", "subsystem", "review_id", "lineage"]

  function ArtifactFieldValues(a: Artifact): (v: seq<Value>)
    ensures |v| == |ArtifactKeys|
  {
    [Str(a.artifactId), Str(a.filePath), Str(a.producedBy), OptStr(a.taskId), Int(a.tier),
     OptStr(a.subsystem), Str(a.reviewId), StrList(a.lineage)]
  }

  function ArtifactToDict(a: Artifact): Value {
    Record(ArtifactKeys, ArtifactFieldValues(a))
  }

  function ArtifactFromFields(f: seq<Option<Value>>): Artifact
    requires |f| == |ArtifactKeys|
  {
    Artifact(AsStr(f[0], ""), AsStr(f[1], ""), AsStr(f[2], ""), AsOptStr(f[3]), AsInt(f[4], 1),
             AsOptStr(f[5]), AsStr(f[6], ""), AsStrListOpt(f[7]))
  }

  function ArtifactFromDict(d: Value): Artifact {
    ArtifactFromFields(Lookup(d, ArtifactKeys))
  }

  lemma ArtifactFieldsRoundTrip(a: Artifact)
    ensures ArtifactFromFields(Somes(ArtifactFieldValues(a))) == a
  {
  }

  lemma ArtifactRoundTrip(a: Artifact)
    ensures ArtifactFromDict(ArtifactToDict(a)) == a
  {
    assert DistinctStrings(ArtifactKeys);
    LookupRecord(ArtifactKeys, ArtifactFieldValues(a));
    ArtifactFieldsRoundTrip(a);
  }

  // ---------------------------------------------------------------------------
  // Builder output
  // ---------------------------------------------------------------------------

  datatype TokenUsage = TokenUsage(input: int, output: int, provider: string, model: string)

  const TokenUsageKeys: seq<string> := ["input", "output", "provider", "model"]

  function TokenUsageFieldValues(u: TokenUsage): (v: seq<Value>)
    ensures |v| == |TokenUsageKeys|
  {
    [Int(u.input), Int(u.output), Str(u.provider), Str(u.model)]
  }

  function TokenUsageToDict(u: TokenUsage): Value {
    Record(TokenUsageKeys, TokenUsageFieldValues(u))
  }

  function TokenUsageFromFields(f: seq<Option<Value>>): TokenUsage
    requires |f| == |TokenUsageKeys|
  {
    TokenUsage(AsInt(f[0], 0), AsInt(f[1], 0), AsStr(f[2], ""), AsStr(f[3], ""))
  }

  function TokenUsageFromDict(d: Value): TokenUsage {
    TokenUsageFromFields(Lookup(d, TokenUsageKeys))
  }

  lemma TokenUsageFieldsRoundTrip(u: TokenUsage)
    ensures TokenUsageFromFields(Somes(TokenUsageFieldValues(u))) == u
  {
  }

  lemma TokenUsageRoundTrip(u: TokenUsage)
    ensures TokenUsageFromDict(TokenUsageToDict(u)) == u
  {
    assert DistinctStrings(TokenUsageKeys);
    LookupRecord(TokenUsageKeys, TokenUsageFieldValues(u));
    TokenUsageFieldsRoundTrip(u);
  }

  /** A builder's output manifest. `artifacts` and `incomplete` hold whatever entries the builder
      produced (normally dictionaries with "file"/"implements" and "item" keys). */
  datatype Manifest = Manifest(
    taskId: string,
    builderSessionId: string,
    completedAt: string,
    artifacts: seq<Value>,
    incomplete: seq<Value>,
    questionsForArchitect: seq<string>,
    tokenUsage: TokenUsage)

  const ManifestKeys: seq<string> := [
    "task_id", "builder_session_id", "completed_at", "artifacts", "incomplete",
    "questions_for_architect", "token_usage"]

  function ManifestFieldValues(m: Manifest): (v: seq<Value>)
    ensures |v| == |ManifestKeys|
  {
    [Str(m.taskId), Str(m.builderSessionId), Str(m.completedAt), List(m.artifacts),
     List(m.incomplete), StrList(m.questionsForArchitect), TokenUsageToDict(m.tokenUsage)]
  }

  function ManifestToDict(m: Manifest): Value {
    Record(ManifestKeys, ManifestFieldValues(m))
  }

  function ManifestFromFields(f: seq<Option<Value>>): Manifest
    requires |f| == |ManifestKeys|
  {
    Manifest(AsStr(f[0], ""), AsStr(f[1], ""), AsStr(f[2], ""), AsList(f[3]), AsList(f[4]),
             AsStrListOpt(f[5]), TokenUsageFromDict(if f[6].Some? then f[6].value else Null))
  }

  /** `BuilderOutputManifest.from_dict(data)` */
  function ManifestFromDict(d: Value): Manifest {
    ManifestFromFields(Lookup(d, ManifestKeys))
  }

  lemma ManifestFieldsRoundTrip(m: Manifest)
    ensures ManifestFromFields(Somes(ManifestFieldValues(m))) == m
  {
    TokenUsageRoundTrip(m.tokenUsage);
  }

  lemma ManifestRoundTrip(m: Manifest)
    ensures ManifestFromDict(ManifestToDict(m)) == m
  {
    assert DistinctStrings(ManifestKeys);
    LookupRecord(ManifestKeys, ManifestFieldValues(m));
    ManifestFieldsRoundTrip(m);
  }

  lemma ManifestFromDictIgnoresUnknownKeys(d1: Value, d2: Value)
    requires AgreeOn(d1, d2, set k | k in ManifestKeys)
    ensures ManifestFromDict(d1) == ManifestFromDict(d2)
  {
    LookupAgree(d1, d2, ManifestKeys);
  }

  /** The "file" entry of a manifest artifact: `art.get("file", "")` for a dict, else "". */
  function ArtifactFile(art: Value): string {
    GetStr(art, "file", "")
  }

  // ---------------------------------------------------------------------------
  // Project health
  // ---------------------------------------------------------------------------

  datatype Health = Health(totalTasks: int, completedTasks: int, rejectedTasks: int, pendingGates: int)

  const HealthKeys: seq<string> := ["total_tasks", "completed_tasks", "rejected_tasks", "pending_gates"]

  function HealthFieldValues(h: Health): (v: seq<Value>)
    ensures |v| == |HealthKeys|
  {
    [Int(h.totalTasks), Int(h.completedTasks), Int(h.rejectedTasks), Int(h.pendingGates)]
  }

  function HealthToDict(h: Health): Value {
    Record(HealthKeys, HealthFieldValues(h))
  }

  function HealthFromFields(f: seq<Option<Value>>): Health
    requires |f| == |HealthKeys|
  {
    Health(AsInt(f[0], 0), AsInt(f[1], 0), AsInt(f[2], 0), AsInt(f[3], 0))
  }

  function HealthFromDict(d: Value): Health {
    HealthFromFields(Lookup(d, HealthKeys))
  }

  lemma HealthFieldsRoundTrip(h: Health)
    ensures HealthFromFields(Somes(HealthFieldValues(h))) == h
  {
  }

  lemma HealthRoundTrip(h: Health)
    ensures HealthFromDict(HealthToDict(h)) == h
  {
    assert DistinctStrings(HealthKeys);
    LookupRecord(HealthKeys, HealthFieldValues(h));
    HealthFieldsRoundTrip(h);
  }
}
