/** Decision recording, artifact lineage chains and project health: the in-memory effects of
    the lineage functions. The JSONL files they also append to are not modelled. */
module Lineage {
  import opened Wrappers
  import opened Text
  import opened Values
  import opened Models
  import opened Project

  // ---------------------------------------------------------------------------
  // Decisions
  // ---------------------------------------------------------------------------

  /** `record_phase_decision`: a new decision with the given id and timestamp (the values
      `generate_id("dec")` and the clock would supply), appended to the decision log. */
  function RecordPhaseDecision(p: Project, decisionId: string, timestamp: string, decisionType: string,
                               description: string, rationale: string, madeBy: string,
                               visionReference: Option<string>, constitutionalBasis: string): (r: (Project, Decision))
    ensures r.0.decisionLog == p.decisionLog + [r.1]
    ensures r.0 == p.(decisionLog := r.0.decisionLog)
    ensures r.1.decisionId == decisionId && r.1.timestamp == timestamp && r.1.madeBy == madeBy
    ensures r.1.decisionType == decisionType && r.1.description == description && r.1.rationale == rationale
    ensures r.1.visionReference == visionReference && r.1.constitutionalBasis == constitutionalBasis
  {
    var d := Decision(decisionId, timestamp, madeBy, decisionType, description, rationale,
                      visionReference, constitutionalBasis);
    (p.(decisionLog := p.decisionLog + [d]), d)
  }

  /** The detail a gate decision records for each response type; "" for an unknown type. */
  function GateDecisionDetail(resp: GateResponse): string {
    var t := resp.responseType;
    if t == CHOOSE then "Chose option " + resp.chosenOption
    else if t == CHOOSE_WITH_MODIFICATIONS then
      "Chose option " + resp.chosenOption + " with modifications: " + resp.modifications
    else if t == COMBINE then "Combined options: " + resp.combineInstructions
    else if t == REVISE_AND_PROCEED then "Revise and proceed: " + resp.revisionFeedback
    else if t == EXPLORE_DIFFERENTLY then "Explore differently: " + resp.redirectInstructions
    else if t == REJECT_RESPONSE then "Rejected: " + resp.rejectionReason
    else ""
  }

  /** The detail is empty exactly for response types outside the six known ones. */
  lemma DetailEmptyIffUnknownType(resp: GateResponse)
    ensures GateDecisionDetail(resp) == "" <==> resp.responseType !in GateResponseTypes
  {
  }

  function GateDecisionDescription(g: Gate, detail: string): string {
    "Gate " + g.gateId + " (" + g.gateType + "): " + detail
  }

  /** `record_gate_decision`: a human decision whose type is the gate's type and whose
      rationale is the response detail, appended to the decision log. */
  function RecordGateDecision(p: Project, g: Gate, resp: GateResponse, decisionId: string,
                              timestamp: string): (r: (Project, Decision))
    ensures r.0.decisionLog == p.decisionLog + [r.1]
    ensures r.0 == p.(decisionLog := r.0.decisionLog)
    ensures r.1.madeBy == "human" && r.1.decisionType == g.gateType
    ensures r.1.rationale == GateDecisionDetail(resp)
    ensures r.1.description == GateDecisionDescription(g, GateDecisionDetail(resp))
    ensures r.1.visionReference == None && r.1.constitutionalBasis == ""
  {
    var detail := GateDecisionDetail(resp);
    RecordPhaseDecision(p, decisionId, timestamp, g.gateType, GateDecisionDescription(g, detail),
                        detail, "human", None, "")
  }

  // ---------------------------------------------------------------------------
  // Artifact lineage
  // ---------------------------------------------------------------------------

  /** A Python optional string used as a condition: present and non-empty. */
  predicate Present(o: Option<string>) {
    o.Some? && o.value != ""
  }

  /** A decision names the artifact's task, or (case-insensitively) its subsystem. */
  predicate Mentions(a: Artifact, d: Decision) {
    (Present(a.taskId) && Contains(d.description, a.taskId.value)) ||
    (Present(a.subsystem) && Contains(Lower(d.description), Lower(a.subsystem.value)))
  }

  /** The ids of the decisions that mention the artifact, in log order. */
  function MentioningIds(a: Artifact, log: seq<Decision>): (r: seq<string>)
    ensures |r| <= |log|
    decreases |log|
  {
    if |log| == 0 then []
    else (if Mentions(a, log[0]) then [log[0].decisionId] else []) + MentioningIds(a, log[1..])
  }

  /** An id is among the mentioning ids exactly when a decision in the log with that id
      mentions the artifact. */
  lemma {:induction false} MentioningIdsIff(a: Artifact, log: seq<Decision>, id: string)
    ensures id in MentioningIds(a, log) <==> exists d :: d in log && Mentions(a, d) && d.decisionId == id
    decreases |log|
  {
    if |log| > 0 {
      MentioningIdsIff(a, log[1..], id);
      assert forall d :: d in log <==> d == log[0] || d in log[1..];
    }
  }

  /** A decision that mentions nothing contributes nothing. */
  lemma {:induction false} MentioningIdsAppend(a: Artifact, log: seq<Decision>, d: Decision)
    ensures MentioningIds(a, log + [d]) == MentioningIds(a, log) + (if Mentions(a, d) then [d.decisionId] else [])
    decreases |log|
  {
    if |log| == 0 {
      assert log + [d] == [d];
    } else {
      assert (log + [d])[1..] == log[1..] + [d];
      MentioningIdsAppend(a, log[1..], d);
    }
  }

  /** `build_artifact_lineage_chain`: the project's vision, the mentioning decisions, the task
      (when the artifact has one) and the artifact itself. */
  function LineageChain(a: Artifact, p: Project): (r: seq<string>)
    ensures |r| >= 2 && r[0] == "vision:" + p.projectId && r[|r| - 1] == a.artifactId
    ensures Present(a.taskId) ==> |r| == |MentioningIds(a, p.decisionLog)| + 3 && r[|r| - 2] == "task:" + a.taskId.value
    ensures !Present(a.taskId) ==> |r| == |MentioningIds(a, p.decisionLog)| + 2
    ensures r[1..1 + |MentioningIds(a, p.decisionLog)|] == MentioningIds(a, p.decisionLog)
  {
    var ids := MentioningIds(a, p.decisionLog);
    var task := if Present(a.taskId) then ["task:" + a.taskId.value] else [];
    var r := ["vision:" + p.projectId] + ids + task + [a.artifactId];
    assert r[1..1 + |ids|] == ids;
    r
  }

  /** `register_artifact_with_lineage`: the artifact, carrying its chain, is stored under its
      file path; every other entry of `artifacts` and every other project field stays. */
  function RegisterArtifact(a: Artifact, p: Project): (r: (Project, Artifact))
    ensures r.1 == a.(lineage := LineageChain(a, p))
    ensures Get(r.0.artifacts, a.filePath) == Some(r.1)
    ensures forall k :: k != a.filePath ==> Get(r.0.artifacts, k) == Get(p.artifacts, k)
    ensures r.0 == p.(artifacts := r.0.artifacts)
    ensures DistinctKeys(p.artifacts) ==> DistinctKeys(r.0.artifacts)
  {
    var stored := a.(lineage := LineageChain(a, p));
    PutDistinct(p.artifacts, a.filePath, stored);
    (p.(artifacts := Put(p.artifacts, a.filePath, stored)), stored)
  }

  /** Registering keeps the project's dictionaries free of repeated keys. */
  lemma RegisterKeepsWellKeyed(a: Artifact, p: Project)
    requires WellKeyed(p)
    ensures WellKeyed(RegisterArtifact(a, p).0)
  {
  }

  // ---------------------------------------------------------------------------
  // Project health
  // ---------------------------------------------------------------------------

  /** How many tasks have the given status. */
  function CountStatus(ts: seq<Task>, status: string): (n: nat)
    ensures n <= |ts|
    decreases |ts|
  {
    if |ts| == 0 then 0 else (if ts[0].status == status then 1 else 0) + CountStatus(ts[1..], status)
  }

  /** The tasks with the given status, in order: the reference for `CountStatus`. */
  function WithStatus(ts: seq<Task>, status: string): (r: seq<Task>)
    ensures forall t :: t in r <==> t in ts && t.status == status
    decreases |ts|
  {
    if |ts| == 0 then []
    else
      var rest := WithStatus(ts[1..], status);
      assert forall t :: t in ts <==> t == ts[0] || t in ts[1..];
      (if ts[0].status == status then [ts[0]] else []) + rest
  }

  lemma {:induction false} CountStatusIsFilterSize(ts: seq<Task>, status: string)
    ensures CountStatus(ts, status) == |WithStatus(ts, status)|
    decreases |ts|
  {
    if |ts| > 0 {
      CountStatusIsFilterSize(ts[1..], status);
    }
  }

  /** `update_project_health`: the counts, stored on the project. The float `total_cost`, which
      the source always leaves at 0.0, is not part of the model. */
  function UpdateProjectHealth(p: Project): (r: (Project, Health))
    ensures r.1.totalTasks == |p.taskQueue| + |p.completedTasks|
    ensures r.1.completedTasks == |p.completedTasks|
    ensures r.1.rejectedTasks == |WithStatus(p.completedTasks, REJECTED)|
    ensures r.1.pendingGates == |PendingGates(p.gates)|
    ensures 0 <= r.1.rejectedTasks <= r.1.completedTasks <= r.1.totalTasks
    ensures r.0 == p.(health := r.1)
  {
    CountStatusIsFilterSize(p.completedTasks, REJECTED);
    PendingGatesCount(p.gates);
    var h := Health(|p.taskQueue| + |p.completedTasks|, |p.completedTasks|,
                    CountStatus(p.completedTasks, REJECTED), CountPending(p.gates));
    (p.(health := h), h)
  }

  /** Recomputing health twice gives the same health. */
  lemma UpdateHealthIdempotent(p: Project)
    ensures UpdateProjectHealth(UpdateProjectHealth(p).0) == UpdateProjectHealth(p)
  {
  }
}
