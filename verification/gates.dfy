/** Human approval gates: creating a gate blocks the project, responding to it records the
    decision and unblocks the project, and the response is turned back into a directive for
    the architect. Saving gate files is not modelled. */
module Gates {
  import opened Wrappers
  import opened Text
  import opened Values
  import opened Models
  import opened Project
  import opened Lineage

  /** The single `blocked_on` entry while a gate waits. */
  function BlockedMessage(g: Gate): string {
    "Gate " + g.gateId + " (" + g.gateType + ") awaiting human response"
  }

  /** The gate `create_gate` builds; `gateId` and `now` stand in for `generate_id("gate")` and
      the clock. */
  function NewGate(p: Project, t: GateType, summary: string, rawResponse: string, options: seq<GateOption>,
                   questions: seq<string>, recommended: string, gateId: string, now: string): (g: Gate)
    ensures g.gateId == gateId && g.gateType == t.Value() && g.status == PENDING
    ensures g.phase == p.currentPhase && g.summary == summary && g.options == options
    ensures g.questions == questions && g.recommendedOption == recommended
    ensures g.humanResponse == None && g.approvedAt == None && g.conditions == []
  {
    Gate(gateId, t.Value(), p.currentPhase, "Phase " + p.currentPhase + " complete", PENDING, summary,
         rawResponse, [], [], questions, options, None, None, [], recommended, now)
  }

  /** `create_gate`: the new gate is appended to the project's gates, becomes the pending gate,
      and is the one thing the project is blocked on. A gate already pending is not refused. */
  function CreateGate(p: Project, t: GateType, summary: string, rawResponse: string, options: seq<GateOption>,
                      questions: seq<string>, recommended: string, gateId: string, now: string): (r: (Project, Gate))
    ensures r.1 == NewGate(p, t, summary, rawResponse, options, questions, recommended, gateId, now)
    ensures r.0.gates == p.gates + [r.1]
    ensures r.0.pendingGate == Some(r.1)
    ensures r.0.blockedOn == [BlockedMessage(r.1)]
    ensures r.0 == p.(gates := r.0.gates, pendingGate := r.0.pendingGate, blockedOn := r.0.blockedOn)
  {
    var g := NewGate(p, t, summary, rawResponse, options, questions, recommended, gateId, now);
    (p.(gates := p.gates + [g], pendingGate := Some(g), blockedOn := [BlockedMessage(g)]), g)
  }

  // ---------------------------------------------------------------------------
  // Finding a gate
  // ---------------------------------------------------------------------------

  /** `_find_gate`: the position of the first gate with the id. */
  function FindGate(gates: seq<Gate>, gateId: string): (r: Option<nat>)
    ensures r.Some? ==> r.value < |gates| && gates[r.value].gateId == gateId
    ensures r.Some? ==> forall j :: 0 <= j < r.value ==> gates[j].gateId != gateId
    ensures r.None? <==> forall j :: 0 <= j < |gates| ==> gates[j].gateId != gateId
    decreases |gates|
  {
    if |gates| == 0 then None
    else if gates[0].gateId == gateId then Some(0)
    else
      var rest := FindGate(gates[1..], gateId);
      if rest.Some? then Some(rest.value + 1) else None
  }

  /** A search depends only on the ids: replacing a gate by one with the same id leaves every
      search result as it was. */
  lemma {:induction false} FindGateSameIds(gates: seq<Gate>, i: nat, g: Gate, gateId: string)
    requires i < |gates| && g.gateId == gates[i].gateId
    ensures FindGate(gates[i := g], gateId) == FindGate(gates, gateId)
    decreases |gates|
  {
    if i > 0 {
      assert gates[i := g][1..] == gates[1..][i - 1 := g];
      FindGateSameIds(gates[1..], i - 1, g, gateId);
    }
  }

  /** A newly created gate with a fresh id is the one found under that id. */
  lemma CreatedGateIsFound(p: Project, t: GateType, summary: string, rawResponse: string,
                           options: seq<GateOption>, questions: seq<string>, recommended: string,
                           gateId: string, now: string)
    requires forall j :: 0 <= j < |p.gates| ==> p.gates[j].gateId != gateId
    ensures var r := CreateGate(p, t, summary, rawResponse, options, questions, recommended, gateId, now);
      FindGate(r.0.gates, gateId) == Some(|p.gates|) && r.1 in PendingGates(r.0.gates)
  {
    var r := CreateGate(p, t, summary, rawResponse, options, questions, recommended, gateId, now);
    assert r.0.gates[|p.gates|] == r.1;
    assert r.1 in r.0.gates;
  }

  // ---------------------------------------------------------------------------
  // Responding
  // ---------------------------------------------------------------------------

  /** Why `respond_to_gate` refuses. */
  datatype GateError = NotFound(gateId: string, projectId: string) | NotPending(gateId: string, status: string) {
    function Message(): string {
      match this
      case NotFound(id, pid) => "Gate " + id + " not found in project " + pid
      case NotPending(id, status) => "Gate " + id + " is not pending (status: " + status + ")"
    }
  }

  /** The gate after the response: approved unless rejected, with conditions taken from the
      modifications or the revision feedback. */
  function AnsweredGate(g: Gate, resp: GateResponse): (a: Gate)
    ensures a.status == (if resp.responseType == REJECT_RESPONSE then REJECTED else APPROVED)
    ensures a.humanResponse == Some(resp) && a.approvedAt == Some(resp.respondedAt)
    ensures a.conditions == (if resp.responseType == CHOOSE_WITH_MODIFICATIONS then [resp.modifications]
                             else if resp.responseType == REVISE_AND_PROCEED then [resp.revisionFeedback]
                             else g.conditions)
    ensures a == g.(status := a.status, humanResponse := a.humanResponse, approvedAt := a.approvedAt,
                    conditions := a.conditions)
  {
    var answered := g.(humanResponse := Some(resp), approvedAt := Some(resp.respondedAt));
    if resp.responseType == REJECT_RESPONSE then answered.(status := REJECTED)
    else if resp.responseType == CHOOSE_WITH_MODIFICATIONS then
      answered.(status := APPROVED, conditions := [resp.modifications])
    else if resp.responseType == REVISE_AND_PROCEED then
      answered.(status := APPROVED, conditions := [resp.revisionFeedback])
    else answered.(status := APPROVED)
  }

  /** `respond_to_gate`: the first gate with the id must exist and be pending. The response is
      stamped with `now`, the gate is updated in place, one human decision is recorded (with id
      `decisionId`, at `now`), and the project is unblocked. */
  function RespondToGate(p: Project, gateId: string, resp: GateResponse, now: string, decisionId: string):
    (r: Result<(Project, Gate), GateError>)
    ensures match FindGate(p.gates, gateId)
      case None => r == Failure(NotFound(gateId, p.projectId))
      case Some(i) =>
        (p.gates[i].status != PENDING ==> r == Failure(NotPending(gateId, p.gates[i].status))) &&
        (p.gates[i].status == PENDING <==> r.Success?)
    ensures r.Success? ==>
      var i := FindGate(p.gates, gateId).value;
      var (q, g) := r.value;
      p.gates[i].status == PENDING &&
      g == AnsweredGate(p.gates[i], resp.(respondedAt := now)) &&
      q.gates == p.gates[i := g] &&
      |q.decisionLog| == |p.decisionLog| + 1 && q.decisionLog[..|p.decisionLog|] == p.decisionLog &&
      q.decisionLog[|p.decisionLog|].madeBy == "human" &&
      q.decisionLog[|p.decisionLog|].decisionType == p.gates[i].gateType &&
      q.pendingGate == None && q.blockedOn == [] &&
      q == p.(gates := q.gates, decisionLog := q.decisionLog, pendingGate := None, blockedOn := [])
  {
    var found := FindGate(p.gates, gateId);
    if found.None? then Failure(NotFound(gateId, p.projectId))
    else
      var i := found.value;
      var g := p.gates[i];
      if g.status != PENDING then Failure(NotPending(gateId, g.status))
      else
        var stamped := resp.(respondedAt := now);
        var answered := AnsweredGate(g, stamped);
        var recorded := RecordGateDecision(p.(gates := p.gates[i := answered]), answered, stamped, decisionId, now);
        assert recorded.0.decisionLog[..|p.decisionLog|] == p.decisionLog;
        Success((recorded.0.(pendingGate := None, blockedOn := []), answered))
  }

  /** A gate accepts exactly one response: once answered, a second response to the same id is
      refused as not pending. */
  lemma RespondOnlyOnce(p: Project, gateId: string, resp: GateResponse, now: string, decisionId: string,
                        resp2: GateResponse, now2: string, decisionId2: string)
    requires RespondToGate(p, gateId, resp, now, decisionId).Success?
    ensures var (q, g) := RespondToGate(p, gateId, resp, now, decisionId).value;
      RespondToGate(q, gateId, resp2, now2, decisionId2) == Failure(NotPending(gateId, g.status))
  {
    var i := FindGate(p.gates, gateId).value;
    var (q, g) := RespondToGate(p, gateId, resp, now, decisionId).value;
    FindGateSameIds(p.gates, i, g, gateId);
    assert q.gates[i] == g;
  }

  /** A successful response leaves the gate resolved: approved, or rejected exactly for a
      reject response. */
  lemma RespondResolvesGate(p: Project, gateId: string, resp: GateResponse, now: string, decisionId: string)
    requires RespondToGate(p, gateId, resp, now, decisionId).Success?
    ensures var g := RespondToGate(p, gateId, resp, now, decisionId).value.1;
      g.status in {APPROVED, REJECTED} && (g.status == REJECTED <==> resp.responseType == REJECT_RESPONSE) &&
      g !in PendingGates(RespondToGate(p, gateId, resp, now, decisionId).value.0.gates)
  {
  }

  // ---------------------------------------------------------------------------
  // The directive sent back to the architect
  // ---------------------------------------------------------------------------

  const ChooseEnd: string := ". Proceed with this direction."
  const ModificationsEnd: string := "\n\nApply these modifications and proceed — no new gate needed."
  const CombineStart: string := "I want to combine elements from the options:\n"
  const CombineEnd: string := "\n\nSynthesize this combination and proceed."
  const ReviseStart: string := "This is 80% right. Fix these things and continue without re-asking me:\n"
  const ExploreStart: string := "None of these options work. I want options in a different direction:\n"
  const ExploreEnd: string := "\n\nGenerate new options based on this redirect."
  const RejectStart: string := "I'm rejecting this. Fundamental problem:\n"
  const RejectEnd: string := "\n\nReturn to the previous phase for rework."

  /** The directive for one response. */
  function ResponseMessage(resp: GateResponse): string {
    var t := resp.responseType;
    if t == CHOOSE then "I choose Option " + resp.chosenOption + ChooseEnd
    else if t == CHOOSE_WITH_MODIFICATIONS then
      "I choose Option " + resp.chosenOption + ", with these modifications:\n" + resp.modifications + ModificationsEnd
    else if t == COMBINE then CombineStart + resp.combineInstructions + CombineEnd
    else if t == REVISE_AND_PROCEED then ReviseStart + resp.revisionFeedback
    else if t == EXPLORE_DIFFERENTLY then ExploreStart + resp.redirectInstructions + ExploreEnd
    else if t == REJECT_RESPONSE then RejectStart + resp.rejectionReason + RejectEnd
    else "Human responded: " + t
  }

  /** `build_response_message`: nothing for a gate without a response, otherwise the directive
      for the stored response (which the stored dictionary gives back, by `GateResponseRoundTrip`). */
  function BuildResponseMessage(g: Gate): (m: string)
    ensures g.humanResponse.None? ==> m == ""
    ensures g.humanResponse.Some? ==> m == ResponseMessage(g.humanResponse.value) && m != ""
  {
    match g.humanResponse
    case None => ""
    case Some(resp) => ResponseMessage(resp)
  }

  /** The part of a response its directive carries. */
  function Payload(resp: GateResponse): string {
    var t := resp.responseType;
    if t == CHOOSE_WITH_MODIFICATIONS then resp.modifications
    else if t == COMBINE then resp.combineInstructions
    else if t == REVISE_AND_PROCEED then resp.revisionFeedback
    else if t == EXPLORE_DIFFERENTLY then resp.redirectInstructions
    else if t == REJECT_RESPONSE then resp.rejectionReason
    else if t == CHOOSE then resp.chosenOption
    else t
  }

  /** Every directive embeds its response type's field; an unknown type is echoed. */
  lemma MessageEmbedsPayload(resp: GateResponse)
    ensures Contains(ResponseMessage(resp), Payload(resp))
  {
    var t := resp.responseType;
    if t == CHOOSE {
      ContainsInfix("I choose Option ", resp.chosenOption, ChooseEnd);
    } else if t == CHOOSE_WITH_MODIFICATIONS {
      ContainsInfix("I choose Option " + resp.chosenOption + ", with these modifications:\n",
                    resp.modifications, ModificationsEnd);
    } else if t == COMBINE {
      ContainsInfix(CombineStart, resp.combineInstructions, CombineEnd);
    } else if t == REVISE_AND_PROCEED {
      ContainsInfix(ReviseStart, resp.revisionFeedback, "");
      assert ReviseStart + resp.revisionFeedback + "" == ReviseStart + resp.revisionFeedback;
    } else if t == EXPLORE_DIFFERENTLY {
      ContainsInfix(ExploreStart, resp.redirectInstructions, ExploreEnd);
    } else if t == REJECT_RESPONSE {
      ContainsInfix(RejectStart, resp.rejectionReason, RejectEnd);
    } else {
      ContainsInfix("Human responded: ", t, "");
      assert "Human responded: " + t + "" == "Human responded: " + t;
    }
  }

  /** After a successful response, the answered gate's directive is the one for the stamped
      response. */
  lemma RespondThenMessage(p: Project, gateId: string, resp: GateResponse, now: string, decisionId: string)
    requires RespondToGate(p, gateId, resp, now, decisionId).Success?
    ensures BuildResponseMessage(RespondToGate(p, gateId, resp, now, decisionId).value.1) ==
            ResponseMessage(resp.(respondedAt := now))
  {
  }
}
