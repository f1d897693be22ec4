/** The Architect's design phases: each sends the Architect one message, reads its reply, moves
    the project's phase, opens or follows up a gate and appends one journal entry. The
    Architect's replies, the clock, the new gate id and the journal date are parameters; the
    session and its persistence are outside this model. */
module Architect {
  import opened Wrappers
  import opened Text
  import opened Models
  import opened Project
  import opened Gates
  import opened Journal
  import opened GateCards

  /** What the Architect is sent, by purpose; the fixed prompt texts are not modelled. */
  datatype Message =
    | VisionPrompt(markdown: Option<string>)  // None: the contract is sent as JSON
    | Directive(text: string)                 // the human's gate response, verbatim
    | DesignPrompt                            // the request for 2-4 gate cards
    | DetailPrompt(directive: string)         // the human's choice plus the detailed-design request

  /** The state the phase actions change: the project, the journal file and the conversation. */
  datatype Architect = Architect(project: Project, journal: Option<string>, sent: seq<Message>)

  // The journal texts of the phases; the longer ones are written in two pieces so that their
  // freedom from separator runs follows from their lengths.
  const VisionSummary := "Architect has reviewed the Vision Contract and has questions/observations."
  const VisionContext := "Reviewed the Vision Contract " + "and identified gaps/questions."
  const VisionReasoning := "Need human clarification " + "before proceeding to system design."
  const DesignSummary := "Architect presents system design options. Choose a direction."
  const DesignContext := "Produced system design options for human review."
  const DetailContext := "Human chose design direction. " + "Producing detailed design."
  const DetailReasoning := "Expanding chosen option " + "into full Architecture Template."

  /** `_append_phase_journal`: an entry stamped with the project's current phase and tier. */
  function PhaseEntry(p: Project, date: string, context: string, reasoning: string): (e: string)
    ensures EntryHeader() <= e && !IsBlank(e)
  {
    FormatDefaultEntry(date, p.currentPhase, p.currentTier, context, reasoning)
  }

  function AppendPhaseJournal(a: Architect, p: Project, date: string, context: string,
                              reasoning: string): (j: string)
    ensures EndsWith(j, PhaseEntry(p, date, context, reasoning) + "\n")
  {
    AppendEntry(a.journal, PhaseEntry(p, date, context, reasoning))
  }

  /** The vision as sent: its markdown, or the JSON form when there is none. */
  function VisionText(p: Project): (m: Option<string>)
    ensures m.None? <==> p.vision.rawMarkdown == ""
  {
    if p.vision.rawMarkdown != "" then Some(p.vision.rawMarkdown) else None
  }

  /** `run_vision_intake`: phase vision_intake, one pending vision_confirmed gate carrying the
      reply's questions, and a journal entry. */
  method RunVisionIntake(a: Architect, reply: string, gateId: string, now: string, date: string)
    returns (r: Architect, g: Gate)
    ensures r.project.currentPhase == Phase.VisionIntake.Value()
    ensures g.gateType == GateType.VisionConfirmed.Value() && g.status == PENDING && g.gateId == gateId
    ensures g.phase == Phase.VisionIntake.Value()
    ensures r.project.gates == a.project.gates + [g] && r.project.pendingGate == Some(g)
    ensures g.options == [] && g.recommendedOption == ""
    ensures forall q :: q in g.questions <==>
              exists k :: 0 <= k < |SplitLines(reply)| && QuestionOf(SplitLines(reply)[k]) == Some(q)
    ensures r.project.currentTier == a.project.currentTier
    ensures r.sent == a.sent + [VisionPrompt(VisionText(a.project))]
    ensures r.journal == Some(AppendPhaseJournal(a, r.project, date, VisionContext, VisionReasoning))
  {
    var p1 := a.project.(currentPhase := Phase.VisionIntake.Value());
    var questions := ExtractQuestions(reply);
    forall q ensures q in questions <==>
        exists k :: 0 <= k < |SplitLines(reply)| && QuestionOf(SplitLines(reply)[k]) == Some(q) {
      QuestionsIff(reply, q);
    }
    var created := CreateGate(p1, VisionConfirmed, VisionSummary, reply, [], questions, "", gateId, now);
    g := created.1;
    var j := AppendPhaseJournal(a, created.0, date, VisionContext, VisionReasoning);
    r := Architect(created.0, Some(j), a.sent + [VisionPrompt(VisionText(a.project))]);
  }

  /** The directive a gate's response produces: none when there is no response. */
  function DirectiveOf(g: Gate): (ms: seq<Message>)
    ensures g.humanResponse.None? ==> ms == []
    ensures g.humanResponse.Some? ==> ms == [Directive(ResponseMessage(g.humanResponse.value))]
  {
    var msg := BuildResponseMessage(g);
    if msg != "" then [Directive(msg)] else []
  }

  /** `process_vision_response`: the directive goes out only when the gate has a response; the
      phase moves on to system_design. */
  method ProcessVisionResponse(a: Architect, g: Gate) returns (r: Architect)
    ensures r.project == a.project.(currentPhase := Phase.SystemDesign.Value())
    ensures r.sent == a.sent + DirectiveOf(g)
    ensures r.journal == a.journal
  {
    r := Architect(a.project.(currentPhase := Phase.SystemDesign.Value()), a.journal, a.sent + DirectiveOf(g));
  }

  /** The journal reasoning of the system-design phase. */
  function DesignReasoning(count: nat, recommended: string): string {
    "Presented " + IntToString(count) + " options. Recommended: " + recommended + "."
  }

  /** `run_system_design`: phase system_design and one pending system_design gate carrying one
      option per header of the reply and the recommended letter. `bullets` stands for
      `_extract_bullet_list`. With `asWritten` the fallback letter is read as the source does,
      in either case; otherwise only an upper-case letter is read. */
  method RunSystemDesign(a: Architect, reply: string, bullets: (string, string) -> seq<string>,
                         gateId: string, now: string, date: string, asWritten: bool) returns (r: Architect, g: Gate)
    ensures r.project.currentPhase == Phase.SystemDesign.Value()
    ensures g.gateType == GateType.SystemDesignGate.Value() && g.status == PENDING && g.gateId == gateId
    ensures g.phase == Phase.SystemDesign.Value()
    ensures r.project.gates == a.project.gates + [g] && r.project.pendingGate == Some(g)
    ensures g.options == ParseGateOptions(reply, bullets)
    ensures g.recommendedOption == FindRecommendedWith(reply, g.options, !asWritten)
    ensures g.recommendedOption == "" || (|g.recommendedOption| == 1 && LetterClass(g.recommendedOption[0], !asWritten))
    ensures g.questions == []
    ensures r.project.currentTier == a.project.currentTier
    ensures r.sent == a.sent + [DesignPrompt]
    ensures r.journal == Some(AppendPhaseJournal(a, r.project, date, DesignContext,
                                                 DesignReasoning(|g.options|, g.recommendedOption)))
  {
    var p1 := a.project.(currentPhase := Phase.SystemDesign.Value());
    var options := ParseGateOptions(reply, bullets);
    var recommended := FindRecommendedWith(reply, options, !asWritten);
    RecommendedIsLetter(reply, bullets, !asWritten);
    var created := CreateGate(p1, SystemDesignGate, DesignSummary, reply, options, [], recommended, gateId, now);
    g := created.1;
    var j := AppendPhaseJournal(a, created.0, date, DesignContext, DesignReasoning(|options|, recommended));
    r := Architect(created.0, Some(j), a.sent + [DesignPrompt]);
  }

  /** The recommended letter of a design reply is empty or one letter of the class read: any
      letter as written, an upper-case one as corrected. */
  lemma RecommendedIsLetter(reply: string, bullets: (string, string) -> seq<string>, strict: bool)
    ensures var r := FindRecommendedWith(reply, ParseGateOptions(reply, bullets), strict);
      r == "" || (|r| == 1 && LetterClass(r[0], strict))
  {
    var os := ParseGateOptions(reply, bullets);
    ParsedLettersUpper(reply, bullets);
    match FirstRecommended(os)
    case Some(k) =>
      assert FindRecommendedWith(reply, os, strict) == os[k].letter;
    case None =>
  }

  /** `process_design_response`: the human's choice goes out with the detailed-design request;
      a non-empty reply becomes the architecture template; phase detailed_design. */
  method ProcessDesignResponse(a: Architect, g: Gate, reply: string, date: string)
    returns (r: Architect, content: string)
    ensures content == reply
    ensures r.project.architectureTemplate == if reply != "" then reply else a.project.architectureTemplate
    ensures r.project.currentPhase == Phase.DetailedDesign.Value()
    ensures r.project.gates == a.project.gates && r.project.pendingGate == a.project.pendingGate
    ensures r.project.currentTier == a.project.currentTier
    ensures r.sent == a.sent + [DetailPrompt(BuildResponseMessage(g))]
    ensures r.journal == Some(AppendPhaseJournal(a, r.project, date, DetailContext, DetailReasoning))
  {
    var msg := BuildResponseMessage(g);
    var p1 := a.project.(architectureTemplate := if reply != "" then reply else a.project.architectureTemplate);
    var p2 := p1.(currentPhase := Phase.DetailedDesign.Value());
    var j := AppendPhaseJournal(a, p2, date, DetailContext, DetailReasoning);
    r := Architect(p2, Some(j), a.sent + [DetailPrompt(msg)]);
    content := reply;
  }

  // ---------------------------------------------------------------------------
  // The journal grows by exactly one entry per phase action
  // ---------------------------------------------------------------------------

  /** A phase entry whose texts hold no separator-length run of '=' can be read back. */
  lemma PhaseEntryClean(p: Project, date: string, context: string, reasoning: string)
    requires Clean(date) && |p.currentPhase| < 50 && Clean(context) && Clean(reasoning)
    ensures Clean(PhaseEntry(p, date, context, reasoning))
  {
    ShortClean(p.currentPhase);
    ShortClean(NoOtherOptions);
    ShortClean(NoneYet);
    ShortClean("");
    FormatEntryClean(date, p.currentPhase, p.currentTier, context, reasoning, NoOtherOptions,
                     NoneYet, NoneYet, "");
  }

  /** Appending a phase entry to a journal of readable entries adds exactly that entry. */
  lemma PhaseJournalGrows(a: Architect, entries: seq<string>, p: Project, date: string,
                          context: string, reasoning: string)
    requires a.journal == Written(entries) && Writable(entries) && Clean(date)
    requires |p.currentPhase| < 50 && Clean(context) && Clean(reasoning)
    ensures LoadEntries(Some(AppendPhaseJournal(a, p, date, context, reasoning)))
         == LoadEntries(a.journal) + [Strip(PhaseEntry(p, date, context, reasoning))]
  {
    PhaseEntryClean(p, date, context, reasoning);
    LoadAfterAppend(entries, PhaseEntry(p, date, context, reasoning));
  }

  /** Two short pieces with a plain seam make a clean text. */
  lemma ShortPiecesClean(x: string, y: string)
    requires |x| < 50 && |y| < 50 && y != [] && y[0] != '='
    ensures Clean(x + y)
  {
    ShortClean(x);
    ShortClean(y);
    CleanConcat(x, y);
  }

  lemma VisionTextsClean()
    ensures Clean(VisionContext) && Clean(VisionReasoning)
  {
    ShortPiecesClean("Reviewed the Vision Contract ", "and identified gaps/questions.");
    ShortPiecesClean("Need human clarification ", "before proceeding to system design.");
  }

  lemma DetailTextsClean()
    ensures Clean(DetailContext) && Clean(DetailReasoning)
  {
    ShortPiecesClean("Human chose design direction. ", "Producing detailed design.");
    ShortPiecesClean("Expanding chosen option ", "into full Architecture Template.");
  }

  /** Text without any '=' holds no separator. */
  predicate NoEquals(x: string) {
    forall i :: 0 <= i < |x| ==> x[i] != '='
  }

  /** The count and the recommended letter, of either case, of the design reasoning hold no '='. */
  lemma DesignReasoningPlain(count: nat, recommended: string)
    requires recommended == "" || (|recommended| == 1 && LetterClass(recommended[0], false))
    ensures NoEquals(DesignReasoning(count, recommended))
  {
    var n := IntToString(count);
    assert IsDigits(n);
    var s := DesignReasoning(count, recommended);
    forall i | 0 <= i < |s| ensures s[i] != '=' {
      var head := "Presented " + n;
      var mid := head + " options. Recommended: ";
      var all := mid + recommended;
      assert s == all + ".";
      if i < |"Presented "| {
      } else if i < |head| {
        assert s[i] == n[i - |"Presented "|];
      } else if i < |mid| {
      } else if i < |all| {
        assert s[i] == recommended[i - |mid|];
      }
    }
  }

  /** The vision intake's entry is the one entry it adds to a journal of readable entries. */
  lemma VisionIntakeJournal(a: Architect, entries: seq<string>, date: string)
    requires a.journal == Written(entries) && Writable(entries) && Clean(date)
    ensures var p := a.project.(currentPhase := Phase.VisionIntake.Value());
      LoadEntries(Some(AppendPhaseJournal(a, p, date, VisionContext, VisionReasoning)))
        == LoadEntries(a.journal) + [Strip(PhaseEntry(p, date, VisionContext, VisionReasoning))]
  {
    VisionTextsClean();
    PhaseJournalGrows(a, entries, a.project.(currentPhase := Phase.VisionIntake.Value()), date,
                      VisionContext, VisionReasoning);
  }

  /** The system design's entry, counting the options and naming the recommended letter, is the
      one entry it adds. */
  lemma SystemDesignJournal(a: Architect, entries: seq<string>, date: string, count: nat,
                            recommended: string)
    requires a.journal == Written(entries) && Writable(entries) && Clean(date)
    requires recommended == "" || (|recommended| == 1 && LetterClass(recommended[0], false))
    ensures var p := a.project.(currentPhase := Phase.SystemDesign.Value());
      var reasoning := DesignReasoning(count, recommended);
      LoadEntries(Some(AppendPhaseJournal(a, p, date, DesignContext, reasoning)))
        == LoadEntries(a.journal) + [Strip(PhaseEntry(p, date, DesignContext, reasoning))]
  {
    ShortClean(DesignContext);
    DesignReasoningPlain(count, recommended);
    NoEqualsClean(DesignReasoning(count, recommended));
    PhaseJournalGrows(a, entries, a.project.(currentPhase := Phase.SystemDesign.Value()), date,
                      DesignContext, DesignReasoning(count, recommended));
  }

  /** The design response's entry is the one entry it adds. */
  lemma DesignResponseJournal(a: Architect, entries: seq<string>, date: string)
    requires a.journal == Written(entries) && Writable(entries) && Clean(date)
    ensures var p := a.project.(currentPhase := Phase.DetailedDesign.Value());
      LoadEntries(Some(AppendPhaseJournal(a, p, date, DetailContext, DetailReasoning)))
        == LoadEntries(a.journal) + [Strip(PhaseEntry(p, date, DetailContext, DetailReasoning))]
  {
    DetailTextsClean();
    PhaseJournalGrows(a, entries, a.project.(currentPhase := Phase.DetailedDesign.Value()), date,
                      DetailContext, DetailReasoning);
  }

  // ---------------------------------------------------------------------------
  // The phases in sequence
  // ---------------------------------------------------------------------------

  /** Intake, its response, system design and its response in turn: the project ends in
      detailed_design with two more gates, the second of them pending, and the Architect has
      been sent the vision, the design request and the detailed-design request, plus the
      vision directive exactly when the vision gate was answered. */
  method DesignPhases(a: Architect, visionReply: string, answered: Gate, designReply: string,
                      chosen: Gate, detailReply: string, bullets: (string, string) -> seq<string>,
                      id1: string, id2: string, now: string, date: string, asWritten: bool)
    returns (r: Architect, g1: Gate, g2: Gate)
    ensures r.project.currentPhase == Phase.DetailedDesign.Value()
    ensures r.project.gates == a.project.gates + [g1, g2] && r.project.pendingGate == Some(g2)
    ensures g1.phase == Phase.VisionIntake.Value() && g2.phase == Phase.SystemDesign.Value()
    ensures g1.gateId == id1 && g2.gateId == id2
    ensures r.sent == a.sent + [VisionPrompt(VisionText(a.project))] + DirectiveOf(answered)
                     + [DesignPrompt, DetailPrompt(BuildResponseMessage(chosen))]
  {
    var a1;
    a1, g1 := RunVisionIntake(a, visionReply, id1, now, date);
    var a2 := ProcessVisionResponse(a1, answered);
    var a3;
    a3, g2 := RunSystemDesign(a2, designReply, bullets, id2, now, date, asWritten);
    var content;
    r, content := ProcessDesignResponse(a3, chosen, detailReply, date);
    TwoMore(a.project.gates, g1, g2);
    TwoMore(a.sent + [VisionPrompt(VisionText(a.project))] + DirectiveOf(answered), DesignPrompt,
            DetailPrompt(BuildResponseMessage(chosen)));
  }

  lemma TwoMore<T>(xs: seq<T>, x: T, y: T)
    ensures xs + [x] + [y] == xs + [x, y]
  {
  }
}
