/** The Vision Contract: the human's creative brief. It is parsed from a markdown document
    section by section, validated against its required fields, and stored as a dictionary. */
module Vision {
  import opened Wrappers
  import opened Text
  import opened Values

  datatype VisionContract = VisionContract(
    projectName: string,
    domain: string,
    purpose: string,
    primaryQuestions: seq<string>,
    feel: seq<(string, string)>,
    scopeIn: seq<string>,
    scopeOut: seq<string>,
    scopeNotModeled: seq<string>,
    keySystems: seq<string>,
    nonNegotiables: seq<string>,
    targetFidelity: int,
    timeModel: seq<(string, string)>,
    audience: string,
    outputPreferences: seq<string>,
    technologyConstraints: seq<string>,
    inspirations: seq<string>,
    approvalGates: seq<string>,
    rawMarkdown: string)

  /** `VisionContract(raw_markdown=raw)`: every other field at its default. */
  function EmptyVision(raw: string): (vc: VisionContract)
    ensures vc.rawMarkdown == raw && vc.targetFidelity == 3
    ensures vc.projectName == "" && vc.feel == [] && vc.timeModel == []
  {
    VisionContract("", "", "", [], [], [], [], [], [], [], 3, [], "", [], [], [], [], raw)
  }

  /** The invariant every parsed contract keeps: a fidelity level in 1..7 and dictionaries
      without repeated keys. */
  predicate WellFormed(vc: VisionContract) {
    1 <= vc.targetFidelity <= 7 && DistinctKeys(vc.feel) && DistinctKeys(vc.timeModel)
  }

  // ---------------------------------------------------------------------------
  // Validation
  // ---------------------------------------------------------------------------

  /** Descriptions of the required fields, in checking order. */
  const RequiredDescriptions: seq<string> := [
    "Project name (# heading or ## Identity section)",
    "Purpose — what is this project for? (## Identity)",
    "Primary questions — what should someone learn? (## Primary Questions)",
    "Scope (in) — what's included? (## Scope > ### In)",
    "Non-negotiables — hard constraints the Architect cannot override (## Non-Negotiables)"]

  /** Which required fields are empty, position by position with `RequiredDescriptions`. */
  function RequiredEmpty(vc: VisionContract): seq<bool> {
    [vc.projectName == "", vc.purpose == "", vc.primaryQuestions == [], vc.scopeIn == [],
     vc.nonNegotiables == []]
  }

  /** Descriptions of the recommended fields, in checking order. */
  const RecommendedDescriptions: seq<string> := [
    "Domain (## Identity)",
    "Audience — who is this for? (## Audience)",
    "Key systems — what subsystems to model (## Key Systems)",
    "Feel — reference experience, core tension, pacing (## Feel)"]

  function RecommendedEmpty(vc: VisionContract): seq<bool> {
    [vc.domain == "", vc.audience == "", vc.keySystems == [], vc.feel == []]
  }

  /** The descriptions whose flag is set, in order. */
  function Selected(descs: seq<string>, flags: seq<bool>): (r: seq<string>)
    requires |descs| == |flags|
    ensures r == [] <==> forall i :: 0 <= i < |flags| ==> !flags[i]
    ensures forall i :: 0 <= i < |descs| && flags[i] ==> descs[i] in r
    ensures forall x :: x in r ==> exists i :: 0 <= i < |descs| && flags[i] && descs[i] == x
  {
    if |descs| == 0 then []
    else
      var rest := Selected(descs[1..], flags[1..]);
      assert forall i :: 1 <= i < |descs| ==> descs[i] == descs[1..][i - 1] && flags[i] == flags[1..][i - 1];
      (if flags[0] then [descs[0]] else []) + rest
  }

  /** With distinct descriptions, a description is selected exactly when its flag is set. */
  lemma SelectedIff(descs: seq<string>, flags: seq<bool>)
    requires |descs| == |flags| && DistinctStrings(descs)
    ensures forall i :: 0 <= i < |descs| ==> (descs[i] in Selected(descs, flags) <==> flags[i])
  {
    var r := Selected(descs, flags);
    forall i | 0 <= i < |descs| && descs[i] in r ensures flags[i] {
      var j :| 0 <= j < |descs| && flags[j] && descs[j] == descs[i];
      assert i == j;
    }
  }

  /** `VisionValidationError(missing_fields, warnings)` */
  datatype ValidationError = ValidationError(missing: seq<string>, warnings: seq<string>)

  /** `VisionContract.validate()`: fails exactly when a required field is empty, naming exactly
      the empty ones; otherwise returns the descriptions of the empty recommended fields. */
  function Validate(vc: VisionContract): (r: Result<seq<string>, ValidationError>)
    ensures r.Failure? <==> exists i :: 0 <= i < |RequiredDescriptions| && RequiredEmpty(vc)[i]
    ensures r.Failure? ==> forall i :: 0 <= i < |RequiredDescriptions| ==>
      (RequiredDescriptions[i] in r.error.missing <==> RequiredEmpty(vc)[i])
    ensures forall i :: 0 <= i < |RecommendedDescriptions| ==>
      (RecommendedDescriptions[i] in (if r.Success? then r.value else r.error.warnings) <==> RecommendedEmpty(vc)[i])
  {
    assert DistinctStrings(RequiredDescriptions);
    assert DistinctStrings(RecommendedDescriptions);
    SelectedIff(RequiredDescriptions, RequiredEmpty(vc));
    SelectedIff(RecommendedDescriptions, RecommendedEmpty(vc));
    var missing := Selected(RequiredDescriptions, RequiredEmpty(vc));
    var warnings := Selected(RecommendedDescriptions, RecommendedEmpty(vc));
    if missing != [] then Failure(ValidationError(missing, warnings)) else Success(warnings)
  }

  /** The five required fields, spelled out: validation fails iff one of them is empty. */
  lemma ValidateFailsIffRequiredEmpty(vc: VisionContract)
    ensures Validate(vc).Failure? <==>
      vc.projectName == "" || vc.purpose == "" || vc.primaryQuestions == [] || vc.scopeIn == [] || vc.nonNegotiables == []
  {
    var e := RequiredEmpty(vc);
    assert e[0] == (vc.projectName == "") && e[1] == (vc.purpose == "") && e[2] == (vc.primaryQuestions == []);
    assert e[3] == (vc.scopeIn == []) && e[4] == (vc.nonNegotiables == []);
  }

  // ---------------------------------------------------------------------------
  // Section routing
  // ---------------------------------------------------------------------------

  /** The position of the first element satisfying `p`. */
  function FirstWhere<T>(xs: seq<T>, p: T -> bool): (r: Option<nat>)
    ensures r.Some? ==> r.value < |xs| && p(xs[r.value])
    ensures r.Some? ==> forall j :: 0 <= j < r.value ==> !p(xs[j])
    ensures r.None? ==> forall j :: 0 <= j < |xs| ==> !p(xs[j])
  {
    if |xs| == 0 then None
    else if p(xs[0]) then Some(0)
    else
      var rest := FirstWhere(xs[1..], p);
      if rest.Some? then Some(rest.value + 1) else None
  }

  /** Some keyword occurs in `s`. */
  predicate AnyIn(s: string, keywords: seq<string>) {
    exists i :: 0 <= i < |keywords| && Contains(s, keywords[i])
  }

  /** An `if/elif` chain of keyword tests: the value of the first row one of whose keywords
      occurs in `s`, or `default` when none does. */
  function FirstKeywordMatch<T>(table: seq<(seq<string>, T)>, s: string, default: T): (r: T)
    ensures (forall j :: 0 <= j < |table| ==> !AnyIn(s, table[j].0)) ==> r == default
    ensures forall i :: 0 <= i < |table| && AnyIn(s, table[i].0) && (forall j :: 0 <= j < i ==> !AnyIn(s, table[j].0)) ==>
      r == table[i].1
  {
    var m := FirstWhere(table, (row: (seq<string>, T)) => AnyIn(s, row.0));
    if m.Some? then table[m.value].1 else default
  }

  /** Where a section's text goes. */
  datatype Target =
    | Identity | Questions | Feel | Scope | KeySystems | NonNegotiables | Fidelity | TimeModel
    | Audience | OutputPreferences | TechnologyConstraints | Inspirations | ApprovalGates | Unrecognised

  /** The keyword tests on the lower-cased section title, in the order they are tried. */
  const SectionTable: seq<(seq<string>, Target)> := [
    (["identity"], Identity),
    (["primary question", "question"], Questions),
    (["feel"], Feel),
    (["scope"], Scope),
    (["key system", "systems"], KeySystems),
    (["non-negotiable", "non_negotiable"], NonNegotiables),
    (["fidelity", "target"], Fidelity),
    (["time"], TimeModel),
    (["audience"], Audience),
    (["output", "preference"], OutputPreferences),
    (["technology", "constraint"], TechnologyConstraints),
    (["inspiration", "reference"], Inspirations),
    (["approval", "gate"], ApprovalGates)]

  function SectionTarget(section: string): Target {
    FirstKeywordMatch(SectionTable, section, Unrecognised)
  }

  datatype ScopeTarget = ScopeNotModeled | ScopeOut | ScopeIn

  /** The keyword tests on the lower-cased subsection title of a Scope section. */
  const ScopeTable: seq<(seq<string>, ScopeTarget)> := [
    (["not modeled", "not_modeled"], ScopeNotModeled),
    (["out"], ScopeOut),
    (["in"], ScopeIn)]

  /** Which scope list a Scope subsection fills; with no matching keyword, the "in" list. */
  function ScopeField(subsection: string): ScopeTarget {
    FirstKeywordMatch(ScopeTable, subsection, ScopeIn)
  }

  /** Under Scope, "not modeled" beats "out", which beats "in"; anything else is "in". */
  lemma ScopePriority(subsection: string)
    ensures Contains(subsection, "not modeled") || Contains(subsection, "not_modeled") ==>
      ScopeField(subsection) == ScopeNotModeled
    ensures !Contains(subsection, "not modeled") && !Contains(subsection, "not_modeled") && Contains(subsection, "out") ==>
      ScopeField(subsection) == ScopeOut
    ensures !Contains(subsection, "not modeled") && !Contains(subsection, "not_modeled") && !Contains(subsection, "out") ==>
      ScopeField(subsection) == ScopeIn
  {
    var row0 := ScopeTable[0].0;
    var row1 := ScopeTable[1].0;
    if Contains(subsection, "not modeled") {
      assert Contains(subsection, row0[0]);
    } else if Contains(subsection, "not_modeled") {
      assert Contains(subsection, row0[1]);
    } else {
      assert !AnyIn(subsection, row0);
      if Contains(subsection, "out") {
        assert Contains(subsection, row1[0]);
      } else {
        assert !AnyIn(subsection, row1);
        if AnyIn(subsection, ScopeTable[2].0) {
          assert ScopeTable[2].1 == ScopeIn;
        }
      }
    }
  }

  // ---------------------------------------------------------------------------
  // Section contents
  // ---------------------------------------------------------------------------

  /** The non-blank lines, in order. */
  function NonBlank(ls: seq<string>): (r: seq<string>)
    ensures forall k :: 0 <= k < |r| ==> !IsBlank(r[k])
    ensures forall k :: 0 <= k < |ls| && !IsBlank(ls[k]) ==> ls[k] in r
  {
    if |ls| == 0 then []
    else
      var rest := NonBlank(ls[1..]);
      assert forall k :: 1 <= k < |ls| ==> ls[k] == ls[1..][k - 1];
      (if IsBlank(ls[0]) then [] else [ls[0]]) + rest
  }

  /** `[l for l in content.splitlines() if l.strip()]` */
  function ContentLines(content: string): seq<string> {
    NonBlank(SplitLines(content))
  }

  const BulletMarks: set<char> := {'-', '•', '*'}

  /** A line that starts with one of "-", "•", "*". */
  predicate IsBulletLine(l: string) {
    |l| > 0 && l[0] in BulletMarks
  }

  /** `[l.lstrip("-•* ").strip() for l in lines if l.startswith(("-", "•", "*"))]` */
  function Bullets(lines: seq<string>): (r: seq<string>)
    ensures |r| <= |lines|
    ensures r == [] <==> forall k :: 0 <= k < |lines| ==> !IsBulletLine(lines[k])
  {
    if |lines| == 0 then []
    else
      var rest := Bullets(lines[1..]);
      assert forall k :: 1 <= k < |lines| ==> lines[k] == lines[1..][k - 1];
      (if IsBulletLine(lines[0]) then [Strip(LStripChars(lines[0], BulletMarks + {' '}))] else []) + rest
  }

  /** `bullets or lines` */
  function BulletsOrLines(lines: seq<string>): (r: seq<string>)
    ensures r == lines || |r| <= |lines|
    ensures (exists k :: 0 <= k < |lines| && IsBulletLine(lines[k])) ==> r == Bullets(lines)
    ensures (forall k :: 0 <= k < |lines| ==> !IsBulletLine(lines[k])) ==> r == lines
  {
    var b := Bullets(lines);
    if b != [] then b else lines
  }

  /** One line of an Identity section: a "domain:" or "purpose:" line sets that field, and the
      first other non-blank line names the project if nothing has yet. */
  function IdentityLine(vc: VisionContract, line: string): (r: VisionContract)
    ensures r.rawMarkdown == vc.rawMarkdown && r.targetFidelity == vc.targetFidelity
    ensures r.feel == vc.feel && r.timeModel == vc.timeModel
    ensures vc.projectName != "" ==> r.projectName == vc.projectName
  {
    var low := Lower(line);
    if Contains(low, "domain") && ':' in line then vc.(domain := Strip(SplitFirst(line, ':').1))
    else if Contains(low, "purpose") && ':' in line then vc.(purpose := Strip(SplitFirst(line, ':').1))
    else if vc.projectName == "" && Strip(line) != "" then vc.(projectName := Strip(line))
    else vc
  }

  function IdentityLines(vc: VisionContract, lines: seq<string>): (r: VisionContract)
    ensures r.rawMarkdown == vc.rawMarkdown && r.targetFidelity == vc.targetFidelity
    ensures r.feel == vc.feel && r.timeModel == vc.timeModel
    ensures vc.projectName != "" ==> r.projectName == vc.projectName
    decreases |lines|
  {
    if |lines| == 0 then vc else IdentityLines(IdentityLine(vc, lines[0]), lines[1..])
  }

  /** The key a "key: value" line is stored under: stripped, lower-cased, bullet marks removed. */
  function EntryKey(k: string): string {
    LStripChars(Lower(Strip(k)), BulletMarks + {' '})
  }

  /** Each line holding ':' stores its value under its key; a later line overrides an earlier one. */
  function KeyValueLines(d: seq<(string, string)>, lines: seq<string>): (r: seq<(string, string)>)
    ensures DistinctKeys(d) ==> DistinctKeys(r)
    decreases |lines|
  {
    if |lines| == 0 then d
    else if ':' in lines[0] then
      var kv := SplitFirst(lines[0], ':');
      var d' := Put(d, EntryKey(kv.0), Strip(kv.1));
      PutDistinct(d, EntryKey(kv.0), Strip(kv.1));
      KeyValueLines(d', lines[1..])
    else KeyValueLines(d, lines[1..])
  }

  /** A word that `isdigit()` and names a fidelity level 1..7. */
  predicate FidelityWord(w: string) {
    IsDigits(w) && 1 <= DigitsValue(w) <= 7
  }

  /** The words of every line, line by line. */
  function LineWords(lines: seq<string>): seq<string>
    decreases |lines|
  {
    if |lines| == 0 then [] else Words(lines[0]) + LineWords(lines[1..])
  }

  /** The level named by the first fidelity word, if any. */
  function FirstFidelity(words: seq<string>): (r: Option<int>)
    ensures r.Some? ==> 1 <= r.value <= 7
    ensures r.None? <==> forall j :: 0 <= j < |words| ==> !FidelityWord(words[j])
    ensures r.Some? ==> exists i :: (0 <= i < |words| && FidelityWord(words[i]) && r.value == DigitsValue(words[i]) &&
                                     forall j :: 0 <= j < i ==> !FidelityWord(words[j]))
  {
    var m := FirstWhere(words, FidelityWord);
    if m.Some? then Some(DigitsValue(words[m.value])) else None
  }

  /** `_apply_section`: store one section's text in the field its title selects. */
  function ApplySection(vc: VisionContract, section: string, subsection: string, content: string): (r: VisionContract)
    ensures r.rawMarkdown == vc.rawMarkdown
    ensures SectionTarget(section) == Unrecognised ==> r == vc
    ensures r.targetFidelity != vc.targetFidelity ==> SectionTarget(section) == Fidelity && 1 <= r.targetFidelity <= 7
    ensures WellFormed(vc) ==> WellFormed(r)
  {
    var lines := ContentLines(content);
    var listed := BulletsOrLines(lines);
    match SectionTarget(section)
    case Identity =>
      var v := IdentityLines(vc, lines);
      if v.purpose == "" && Bullets(lines) == [] then v.(purpose := content) else v
    case Questions => vc.(primaryQuestions := listed)
    case Feel => vc.(feel := KeyValueLines(vc.feel, lines))
    case Scope =>
      (match ScopeField(subsection)
       case ScopeNotModeled => vc.(scopeNotModeled := listed)
       case ScopeOut => vc.(scopeOut := listed)
       case ScopeIn => vc.(scopeIn := listed))
    case KeySystems => vc.(keySystems := listed)
    case NonNegotiables => vc.(nonNegotiables := listed)
    case Fidelity =>
      var f := FirstFidelity(LineWords(lines));
      if f.Some? then vc.(targetFidelity := f.value) else vc
    case TimeModel => vc.(timeModel := KeyValueLines(vc.timeModel, lines))
    case Audience => vc.(audience := content)
    case OutputPreferences => vc.(outputPreferences := listed)
    case TechnologyConstraints => vc.(technologyConstraints := listed)
    case Inspirations => vc.(inspirations := listed)
    case ApprovalGates => vc.(approvalGates := listed)
    case Unrecognised => vc
  }

  /** No keyword occurs in the empty string, since none is empty. */
  lemma {:induction false} NothingInEmpty(keywords: seq<string>)
    requires forall i :: 0 <= i < |keywords| ==> keywords[i] != ""
    ensures !AnyIn("", keywords)
  {
    forall i | 0 <= i < |keywords| ensures !Contains("", keywords[i]) {
      ContainsIff("", keywords[i]);
    }
  }

  predicate NoEmptyKeyword<T>(table: seq<(seq<string>, T)>) {
    forall j, i :: 0 <= j < |table| && 0 <= i < |table[j].0| ==> table[j].0[i] != ""
  }

  /** An empty title matches no row of a table without empty keywords. */
  lemma EmptyMatchesNothing<T>(table: seq<(seq<string>, T)>, default: T)
    requires NoEmptyKeyword(table)
    ensures FirstKeywordMatch(table, "", default) == default
  {
    forall j | 0 <= j < |table| ensures !AnyIn("", table[j].0) {
      NothingInEmpty(table[j].0);
    }
  }

  lemma EmptyTitleUnrecognised()
    ensures SectionTarget("") == Unrecognised
  {
    assert NoEmptyKeyword(SectionTable);
    EmptyMatchesNothing(SectionTable, Unrecognised);
  }

  /** Text before the first "## " heading belongs to no section and is dropped. */
  lemma NoSectionIgnored(vc: VisionContract, subsection: string, content: string)
    ensures ApplySection(vc, "", subsection, content) == vc
  {
    EmptyTitleUnrecognised();
  }

  // ---------------------------------------------------------------------------
  // The markdown parser
  // ---------------------------------------------------------------------------

  /** The parser's state between lines: the contract so far, the current section and
      subsection titles, and the lines buffered since the last heading. */
  datatype ParseState = ParseState(vc: VisionContract, section: string, subsection: string, buffer: seq<string>)

  /** `stripped.lstrip("# ").strip()` */
  function HeadingText(stripped: string): string {
    Strip(LStripChars(stripped, {'#', ' '}))
  }

  /** `flush()`: hand the buffered text, if it is not blank, to the current section. */
  function Flush(st: ParseState): (r: ParseState)
    ensures r.buffer == [] && r.section == st.section && r.subsection == st.subsection
    ensures r.vc.rawMarkdown == st.vc.rawMarkdown
    ensures WellFormed(st.vc) ==> WellFormed(r.vc)
    ensures st.buffer == [] ==> r.vc == st.vc
  {
    var content := Strip(Join(st.buffer, "\n"));
    if content == "" then st.(buffer := [])
    else st.(vc := ApplySection(st.vc, st.section, st.subsection, content), buffer := [])
  }

  /** A "# " title line is neither a "## " nor a "### " heading. */
  lemma TitleIsNotSection(s: string)
    ensures "# " <= s ==> !("## " <= s) && !("### " <= s)
  {
    if "# " <= s {
      assert s[1] == ' ';
    }
  }

  /** One line of the document. */
  function StepLine(st: ParseState, line: string): (r: ParseState)
    ensures r.vc.rawMarkdown == st.vc.rawMarkdown
    ensures WellFormed(st.vc) ==> WellFormed(r.vc)
    ensures "## " <= Strip(line) ==> r.section == Lower(HeadingText(Strip(line))) && r.subsection == ""
    ensures st.section == "" && "# " <= Strip(line) ==> r == st.(vc := st.vc.(projectName := HeadingText(Strip(line))))
  {
    var stripped := Strip(line);
    TitleIsNotSection(stripped);
    if "## " <= stripped then Flush(st).(section := Lower(HeadingText(stripped)), subsection := "")
    else if "### " <= stripped then Flush(st).(subsection := Lower(HeadingText(stripped)))
    else if "# " <= stripped && st.section == "" then st.(vc := st.vc.(projectName := HeadingText(stripped)))
    else st.(buffer := st.buffer + [stripped])
  }

  function ParseLines(st: ParseState, lines: seq<string>): (r: ParseState)
    ensures r.vc.rawMarkdown == st.vc.rawMarkdown
    ensures WellFormed(st.vc) ==> WellFormed(r.vc)
    decreases |lines|
  {
    if |lines| == 0 then st else ParseLines(StepLine(st, lines[0]), lines[1..])
  }

  /** The contract a document describes, before validation. */
  function Parse(text: string): (vc: VisionContract)
    ensures vc.rawMarkdown == text
    ensures WellFormed(vc)
  {
    var start := ParseState(EmptyVision(text), "", "", []);
    assert WellFormed(start.vc) && start.vc.rawMarkdown == text;
    var st := ParseLines(start, SplitLines(text));
    Flush(st).vc
  }

  /** `VisionContract.from_markdown(text, strict=strict)` */
  function FromMarkdown(text: string, strict: bool): (r: Result<VisionContract, ValidationError>)
    ensures !strict ==> r == Success(Parse(text))
    ensures strict ==> (r.Failure? <==> Validate(Parse(text)).Failure?)
    ensures r.Success? ==> r.value.rawMarkdown == text
  {
    var vc := Parse(text);
    if strict then
      var v := Validate(vc);
      if v.Failure? then Failure(v.error) else Success(vc)
    else Success(vc)
  }

  /** The `from_markdown` default, strict validation. */
  function FromMarkdownStrict(text: string): (r: Result<VisionContract, ValidationError>)
    ensures r == FromMarkdown(text, true)
    ensures r.Success? ==> Validate(r.value).Success?
  {
    FromMarkdown(text, true)
  }

  lemma TitleHeading(name: string)
    requires name != [] && name[0] != '#' && !IsSpace(name[0]) && !IsSpace(name[|name| - 1])
    ensures Strip("# " + name) == "# " + name && HeadingText("# " + name) == name
  {
    TitleLineStripped(name);
    TitleMarkerDropped(name);
    StripUnchanged(name);
  }

  lemma TitleLineStripped(name: string)
    requires name != [] && !IsSpace(name[|name| - 1])
    ensures Strip("# " + name) == "# " + name
  {
    var line := "# " + name;
    assert line[0] == '#' && line[|line| - 1] == name[|name| - 1];
    StripUnchanged(line);
  }

  lemma TitleMarkerDropped(name: string)
    requires name != [] && name[0] != '#' && name[0] != ' '
    ensures LStripChars("# " + name, {'#', ' '}) == name
  {
    var cs: set<char> := {'#', ' '};
    assert '#' in cs && ' ' in cs && name[0] !in cs;
    assert "# " + name == ['#'] + ([' '] + name);
    LStripCharsCons('#', [' '] + name, cs);
    LStripCharsCons(' ', name, cs);
    LStripCharsStop(name, cs);
  }

  lemma LStripCharsStop(s: string, cs: set<char>)
    requires s != [] && s[0] !in cs
    ensures LStripChars(s, cs) == s
  {
  }

  lemma LStripCharsCons(c: char, s: string, cs: set<char>)
    requires c in cs
    ensures LStripChars([c] + s, cs) == LStripChars(s, cs)
  {
    assert ([c] + s)[1..] == s;
  }

  lemma OneLine(line: string)
    requires line != [] && '\n' !in line
    ensures SplitLines(line) == [line]
  {
    SplitOnNoSep(line, '\n');
  }

  /** A one-line document "# name" names the project. */
  lemma TitleNamesProject(name: string)
    requires name != [] && '\n' !in name
    requires name[0] != '#' && !IsSpace(name[0]) && !IsSpace(name[|name| - 1])
    ensures Parse("# " + name).projectName == name
  {
    var line := "# " + name;
    OneLine(line);
    TitleHeading(name);
    var st := ParseState(EmptyVision(line), "", "", []);
    var st1 := StepLine(st, line);
    assert st1 == st.(vc := st.vc.(projectName := name));
    assert ParseLines(st, [line]) == ParseLines(st1, []);
  }

  // ---------------------------------------------------------------------------
  // Dictionary form
  // ---------------------------------------------------------------------------

  const VisionKeys: seq<string> := [
    "project_name", "domain", "purpose", "primary_questions", "feel", "scope_in", "scope_out",
    "scope_not_modeled", "key_systems", "non_negotiables", "target_fidelity", "time_model",
    "audience", "output_preferences", "technology_constraints", "inspirations", "approval_gates",
    "raw_markdown"]

  function VisionFieldValues(vc: VisionContract): (v: seq<Value>)
    ensures |v| == |VisionKeys|
  {
    [Str(vc.projectName), Str(vc.domain), Str(vc.purpose), StrList(vc.primaryQuestions),
     EncodeStrMap(vc.feel), StrList(vc.scopeIn), StrList(vc.scopeOut), StrList(vc.scopeNotModeled),
     StrList(vc.keySystems), StrList(vc.nonNegotiables), Int(vc.targetFidelity),
     EncodeStrMap(vc.timeModel), Str(vc.audience), StrList(vc.outputPreferences),
     StrList(vc.technologyConstraints), StrList(vc.inspirations), StrList(vc.approvalGates),
     Str(vc.rawMarkdown)]
  }

  function VisionToDict(vc: VisionContract): Value {
    Record(VisionKeys, VisionFieldValues(vc))
  }

  function VisionFromFields(f: seq<Option<Value>>): VisionContract
    requires |f| == |VisionKeys|
  {
    VisionContract(
      AsStr(f[0], ""), AsStr(f[1], ""), AsStr(f[2], ""), AsStrListOpt(f[3]),
      DecodeStrMap(if f[4].Some? then f[4].value else Null), AsStrListOpt(f[5]), AsStrListOpt(f[6]),
      AsStrListOpt(f[7]), AsStrListOpt(f[8]), AsStrListOpt(f[9]), AsInt(f[10], 3),
      DecodeStrMap(if f[11].Some? then f[11].value else Null), AsStr(f[12], ""), AsStrListOpt(f[13]),
      AsStrListOpt(f[14]), AsStrListOpt(f[15]), AsStrListOpt(f[16]), AsStr(f[17], ""))
  }

  /** `VisionContract.from_dict(data)`: only the contract's own field names are read. */
  function VisionFromDict(d: Value): VisionContract {
    VisionFromFields(Lookup(d, VisionKeys))
  }

  lemma VisionFieldsRoundTrip(vc: VisionContract)
    requires DistinctKeys(vc.feel) && DistinctKeys(vc.timeModel)
    ensures VisionFromFields(Somes(VisionFieldValues(vc))) == vc
  {
    StrMapRoundTrip(vc.feel);
    StrMapRoundTrip(vc.timeModel);
  }

  lemma VisionLookup(vc: VisionContract)
    ensures Lookup(VisionToDict(vc), VisionKeys) == Somes(VisionFieldValues(vc))
  {
    assert DistinctStrings(VisionKeys);
    LookupRecord(VisionKeys, VisionFieldValues(vc));
  }

  lemma VisionRoundTrip(vc: VisionContract)
    requires DistinctKeys(vc.feel) && DistinctKeys(vc.timeModel)
    ensures VisionFromDict(VisionToDict(vc)) == vc
  {
    VisionLookup(vc);
    VisionFieldsRoundTrip(vc);
  }

  lemma VisionFromDictIgnoresUnknownKeys(d1: Value, d2: Value)
    requires AgreeOn(d1, d2, set k | k in VisionKeys)
    ensures VisionFromDict(d1) == VisionFromDict(d2)
  {
    LookupAgree(d1, d2, VisionKeys);
  }

  /** An empty dictionary reads as the default contract. */
  lemma VisionFromEmptyDict()
    ensures VisionFromDict(Dict([], map[])) == EmptyVision("")
  {
  }
}
