/** The three-stage review of builder output: rule-based checks on the manifest, the
    reviewer's verdict, and cross-task integration checks, composed into one verdict.
    The reviewer itself (a language-model call) is a function parameter, as is the reading
    of manifests from disk; the review files written to disk are not modelled. */
module Review {
  import opened Wrappers
  import opened Text
  import opened Values
  import opened Models
  import opened Project
  import Constitution

  // ---------------------------------------------------------------------------
  // Stage 1: automated checks
  // ---------------------------------------------------------------------------

  const MANIFEST_COMPLETENESS := "manifest_completeness"
  const SCOPE_COMPLIANCE := "scope_compliance"
  const TEST_COVERAGE := "test_coverage"
  const CONSTRAINT_PRESENCE := "constraint_presence"
  const INCOMPLETE_ITEMS := "incomplete_items"

  const MissingTaskId := "Manifest missing task_id."
  const NoArtifacts := "Manifest has no artifacts."

  /** `check_manifest_completeness`: a manifest needs a task id and at least one artifact. */
  function CheckManifestCompleteness(m: Manifest): (r: CheckResult)
    ensures r.checkName == MANIFEST_COMPLETENESS
    ensures r.passed <==> m.taskId != "" && m.artifacts != []
    ensures m.taskId == "" ==> r.message == MissingTaskId
    ensures m.taskId != "" && m.artifacts == [] ==> r.message == NoArtifacts
  {
    if m.taskId == "" then CheckResult(MANIFEST_COMPLETENESS, false, MissingTaskId)
    else if m.artifacts == [] then CheckResult(MANIFEST_COMPLETENESS, false, NoArtifacts)
    else CheckResult(MANIFEST_COMPLETENESS, true, "Manifest is complete.")
  }

  /** An artifact file lies in a restricted area: the boundary occurs in its path, ignoring case. */
  predicate Touches(file: string, boundary: string) {
    Contains(Lower(file), Lower(boundary))
  }

  function ViolationMessage(file: string, boundary: string): string {
    "Artifact '" + file + "' touches restricted area '" + boundary + "'"
  }

  /** The violations of one artifact file: one per boundary it touches, in boundary order. */
  function FileViolations(file: string, bounds: seq<string>): (r: seq<string>)
    ensures |r| <= |bounds|
    ensures r == [] <==> forall j :: 0 <= j < |bounds| ==> !Touches(file, bounds[j])
    decreases |bounds|
  {
    if |bounds| == 0 then []
    else
      (if Touches(file, bounds[0]) then [ViolationMessage(file, bounds[0])] else []) +
      FileViolations(file, bounds[1..])
  }

  /** The violations of every artifact, artifact by artifact. */
  function Violations(arts: seq<Value>, bounds: seq<string>): (r: seq<string>)
    ensures r == [] <==>
      forall i, j :: 0 <= i < |arts| && 0 <= j < |bounds| ==> !Touches(ArtifactFile(arts[i]), bounds[j])
    decreases |arts|
  {
    if |arts| == 0 then []
    else
      var rest := Violations(arts[1..], bounds);
      assert forall i :: 1 <= i < |arts| ==> arts[1..][i - 1] == arts[i];
      FileViolations(ArtifactFile(arts[0]), bounds) + rest
  }

  /** Each violation message names one (artifact, boundary) pair that touches, and each such
      pair has its message. */
  lemma {:induction false} FileViolationsArePairs(file: string, bounds: seq<string>, v: string)
    ensures v in FileViolations(file, bounds) <==>
      exists j :: 0 <= j < |bounds| && Touches(file, bounds[j]) && v == ViolationMessage(file, bounds[j])
    decreases |bounds|
  {
    if |bounds| > 0 {
      FileViolationsArePairs(file, bounds[1..], v);
      if exists j :: 0 <= j < |bounds[1..]| && Touches(file, bounds[1..][j]) && v == ViolationMessage(file, bounds[1..][j]) {
        var j :| 0 <= j < |bounds[1..]| && Touches(file, bounds[1..][j]) && v == ViolationMessage(file, bounds[1..][j]);
        assert bounds[1..][j] == bounds[j + 1];
      }
      if exists j :: 0 <= j < |bounds| && Touches(file, bounds[j]) && v == ViolationMessage(file, bounds[j]) {
        var j :| 0 <= j < |bounds| && Touches(file, bounds[j]) && v == ViolationMessage(file, bounds[j]);
        if j > 0 {
          assert bounds[1..][j - 1] == bounds[j];
        }
      }
    }
  }

  /** The scope rule is broken: some artifact touches some boundary. */
  predicate ScopeBroken(m: Manifest, t: Task) {
    exists i, j :: 0 <= i < |m.artifacts| && 0 <= j < |t.scopeMustNotTouch| &&
      Touches(ArtifactFile(m.artifacts[i]), t.scopeMustNotTouch[j])
  }

  /** The test rule is broken: test criteria but no test artifact. */
  predicate TestsMissing(m: Manifest, t: Task) {
    t.testCriteria != [] && forall i :: 0 <= i < |m.artifacts| ==> !IsTestFile(ArtifactFile(m.artifacts[i]))
  }

  /** `check_scope_compliance`: passes when there are no boundaries, and otherwise exactly when
      no artifact touches any of them; the failure message joins every violation. */
  function CheckScopeCompliance(m: Manifest, t: Task): (r: CheckResult)
    ensures r.checkName == SCOPE_COMPLIANCE
    ensures r.passed <==> !ScopeBroken(m, t)
    ensures !r.passed ==> r.message == Join(Violations(m.artifacts, t.scopeMustNotTouch), "; ")
  {
    if t.scopeMustNotTouch == [] then CheckResult(SCOPE_COMPLIANCE, true, "No scope restrictions defined.")
    else
      var violations := Violations(m.artifacts, t.scopeMustNotTouch);
      if violations != [] then CheckResult(SCOPE_COMPLIANCE, false, Join(violations, "; "))
      else CheckResult(SCOPE_COMPLIANCE, true, "All artifacts within allowed scope.")
  }

  /** An artifact counts as a test when "test" occurs in its path, ignoring case. */
  predicate IsTestFile(file: string) {
    Contains(Lower(file), "test")
  }

  /** The search loop of `check_test_coverage`. */
  function HasTestArtifact(arts: seq<Value>): (r: bool)
    ensures r <==> exists i :: 0 <= i < |arts| && IsTestFile(ArtifactFile(arts[i]))
    decreases |arts|
  {
    if |arts| == 0 then false
    else if IsTestFile(ArtifactFile(arts[0])) then true
    else
      assert forall i :: 1 <= i < |arts| ==> arts[1..][i - 1] == arts[i];
      HasTestArtifact(arts[1..])
  }

  /** `check_test_coverage`: with test criteria, some artifact must be a test file. */
  function CheckTestCoverage(m: Manifest, t: Task): (r: CheckResult)
    ensures r.checkName == TEST_COVERAGE
    ensures r.passed <==> !TestsMissing(m, t)
  {
    if t.testCriteria == [] then CheckResult(TEST_COVERAGE, true, "No test criteria defined; auto-pass.")
    else if !HasTestArtifact(m.artifacts) then
      CheckResult(TEST_COVERAGE, false, "Task has test criteria but no test artifacts found.")
    else CheckResult(TEST_COVERAGE, true, "Test artifacts present.")
  }

  /** The string entries of a list. */
  function StrItems(vs: seq<Value>): (r: seq<string>)
    ensures forall s :: s in r <==> Str(s) in vs
    decreases |vs|
  {
    if |vs| == 0 then []
    else
      assert forall v :: v in vs <==> v == vs[0] || v in vs[1..];
      (if vs[0].Str? then [vs[0].s] else []) + StrItems(vs[1..])
  }

  /** What one artifact says it enforces: its `constraints_enforced` entries, and each task
      constraint its `implements` text mentions, all lower-cased. Only dictionaries count. */
  function EnforcedBy(art: Value, constraints: seq<string>): set<string> {
    if !art.Dict? then {}
    else
      var impl := Lower(GetStr(art, "implements", ""));
      (set c | c in StrItems(GetList(art, "constraints_enforced")) :: Lower(c)) +
      (set c | c in constraints && Contains(impl, Lower(c)) :: Lower(c))
  }

  /** The `enforced` set of `check_constraint_presence`. */
  function Enforced(arts: seq<Value>, constraints: seq<string>): (r: set<string>)
    ensures forall e :: e in r <==> exists i :: 0 <= i < |arts| && e in EnforcedBy(arts[i], constraints)
    decreases |arts|
  {
    if |arts| == 0 then {}
    else
      assert forall i :: 1 <= i < |arts| ==> arts[1..][i - 1] == arts[i];
      EnforcedBy(arts[0], constraints) + Enforced(arts[1..], constraints)
  }

  /** A constraint is referenced when it and some enforced entry contain one another. */
  predicate Referenced(c: string, enforced: set<string>) {
    exists e :: e in enforced && (Contains(e, Lower(c)) || Contains(Lower(c), e))
  }

  /** The constraints nobody references, in their original order. */
  function Unreferenced(constraints: seq<string>, enforced: set<string>): (r: seq<string>)
    ensures |r| <= |constraints|
    ensures forall c :: c in r <==> c in constraints && !Referenced(c, enforced)
    decreases |constraints|
  {
    if |constraints| == 0 then []
    else
      assert forall c :: c in constraints <==> c == constraints[0] || c in constraints[1..];
      (if Referenced(constraints[0], enforced) then [] else [constraints[0]]) +
      Unreferenced(constraints[1..], enforced)
  }

  const WarningPrefix := "Warning: constraints not explicitly referenced: "

  /** `check_constraint_presence`: a soft check that always passes, and warns exactly when some
      constraint is referenced by no artifact. */
  function CheckConstraintPresence(m: Manifest, t: Task): (r: CheckResult)
    ensures r.checkName == CONSTRAINT_PRESENCE && r.passed
    ensures WarningPrefix <= r.message <==>
      exists c :: c in t.constraintsToEnforce && !Referenced(c, Enforced(m.artifacts, t.constraintsToEnforce))
    ensures WarningPrefix <= r.message ==>
      r.message == WarningPrefix + Join(Unreferenced(t.constraintsToEnforce, Enforced(m.artifacts, t.constraintsToEnforce)), ", ")
  {
    if t.constraintsToEnforce == [] then CheckResult(CONSTRAINT_PRESENCE, true, "No constraints to enforce.")
    else
      var missing := Unreferenced(t.constraintsToEnforce, Enforced(m.artifacts, t.constraintsToEnforce));
      if missing != [] then
        assert missing[0] in missing;
        CheckResult(CONSTRAINT_PRESENCE, true, WarningPrefix + Join(missing, ", "))
      else CheckResult(CONSTRAINT_PRESENCE, true, "All constraints referenced in artifacts.")
  }

  /** How an incomplete item is shown: its "item" entry for a dictionary, otherwise `str(item)`,
      which is the parameter `show`. */
  function ItemLabel(item: Value, show: Value -> string): string {
    if item.Dict? then GetStr(item, "item", show(item)) else show(item)
  }

  /** The labels of the items, in order. */
  function ItemLabels(items: seq<Value>, show: Value -> string): (r: seq<string>)
    ensures |r| == |items|
    ensures forall i :: 0 <= i < |items| ==> r[i] == ItemLabel(items[i], show)
  {
    seq(|items|, i requires 0 <= i < |items| => ItemLabel(items[i], show))
  }

  /** `check_incomplete_items`: fails exactly when the manifest lists incomplete items, and the
      message then names each of them in order. */
  function CheckIncompleteItems(m: Manifest, show: Value -> string): (r: CheckResult)
    ensures r.checkName == INCOMPLETE_ITEMS
    ensures r.passed <==> m.incomplete == []
    ensures !r.passed ==> r.message == "Incomplete items: " + Join(ItemLabels(m.incomplete, show), ", ")
  {
    if m.incomplete != [] then
      CheckResult(INCOMPLETE_ITEMS, false, "Incomplete items: " + Join(ItemLabels(m.incomplete, show), ", "))
    else CheckResult(INCOMPLETE_ITEMS, true, "No incomplete items.")
  }

  /** Some check did not pass. */
  predicate AnyFailed(checks: seq<CheckResult>) {
    exists i :: 0 <= i < |checks| && !checks[i].passed
  }

  lemma FiveFailed(r: seq<CheckResult>)
    requires |r| == 5
    ensures AnyFailed(r) <==> !r[0].passed || !r[1].passed || !r[2].passed || !r[3].passed || !r[4].passed
  {
    if !r[0].passed { assert !r[0].passed; }
  }

  /** `run_automated_checks`: the five checks in their fixed order. Stage 1 fails exactly when
      the manifest is incomplete, out of scope, missing tests or has incomplete items; the
      constraint check never fails. */
  function RunAutomatedChecks(m: Manifest, t: Task, show: Value -> string): (r: seq<CheckResult>)
    ensures |r| == 5
    ensures r[0].checkName == MANIFEST_COMPLETENESS && r[1].checkName == SCOPE_COMPLIANCE &&
            r[2].checkName == TEST_COVERAGE && r[3].checkName == CONSTRAINT_PRESENCE &&
            r[4].checkName == INCOMPLETE_ITEMS
    ensures r[3].passed
    ensures AnyFailed(r) <==>
      m.taskId == "" || m.artifacts == [] || ScopeBroken(m, t) || TestsMissing(m, t) || m.incomplete != []
  {
    var r := [CheckManifestCompleteness(m), CheckScopeCompliance(m, t), CheckTestCoverage(m, t),
              CheckConstraintPresence(m, t), CheckIncompleteItems(m, show)];
    FiveFailed(r);
    r
  }

  // ---------------------------------------------------------------------------
  // Stage 3: integration checks
  // ---------------------------------------------------------------------------

  /** `check_interface_matching`: one issue when the task promises interfaces but the manifest
      has no artifacts. */
  function InterfaceIssues(m: Manifest, t: Task): (r: seq<string>)
    ensures |r| <= 1
    ensures r != [] <==> t.interfacesProduces != [] && m.artifacts == []
  {
    if t.interfacesProduces != [] && m.artifacts == [] then
      ["Task declares interfaces_produces (" + Join(t.interfacesProduces, ", ") + ") but has no artifacts."]
    else []
  }

  /** The ids of the project's completed tasks. */
  function CompletedIds(p: Project): set<string> {
    set t | t in p.completedTasks :: t.taskId
  }

  /** The dependencies outside `done`, in order, repeats kept. */
  function UnmetDeps(deps: seq<string>, done: set<string>): (r: seq<string>)
    ensures |r| <= |deps|
    ensures forall d :: d in r <==> d in deps && d !in done
    decreases |deps|
  {
    if |deps| == 0 then []
    else
      assert forall d :: d in deps <==> d == deps[0] || d in deps[1..];
      (if deps[0] in done then [] else [deps[0]]) + UnmetDeps(deps[1..], done)
  }

  function DependencyMessage(d: string): string {
    "Dependency '" + d + "' not in completed tasks."
  }

  /** `check_dependency_satisfaction`: one issue per dependency that is not a completed task. */
  function DependencyIssues(t: Task, p: Project): (r: seq<string>)
    ensures |r| == |UnmetDeps(t.dependsOn, CompletedIds(p))|
    ensures forall k :: 0 <= k < |r| ==> r[k] == DependencyMessage(UnmetDeps(t.dependsOn, CompletedIds(p))[k])
    ensures r == [] <==> forall d :: d in t.dependsOn ==> d in CompletedIds(p)
  {
    var unmet := UnmetDeps(t.dependsOn, CompletedIds(p));
    assert unmet != [] ==> unmet[0] in unmet;
    seq(|unmet|, k requires 0 <= k < |unmet| => DependencyMessage(unmet[k]))
  }

  /** The non-empty file paths of a manifest's artifacts. */
  function MyFiles(m: Manifest): set<string> {
    set i | 0 <= i < |m.artifacts| && ArtifactFile(m.artifacts[i]) != "" :: ArtifactFile(m.artifacts[i])
  }

  function DuplicateMessage(file: string, other: string): string {
    "Artifact '" + file + "' also appears in task " + other + "."
  }

  /** The duplicates one other manifest contributes: one per artifact whose file is shared. */
  function SharedIssues(arts: seq<Value>, mine: set<string>, other: string): (r: seq<string>)
    ensures |r| <= |arts|
    ensures r == [] <==> forall i :: 0 <= i < |arts| ==> ArtifactFile(arts[i]) !in mine
    decreases |arts|
  {
    if |arts| == 0 then []
    else
      var rest := SharedIssues(arts[1..], mine, other);
      assert forall i :: 1 <= i < |arts| ==> arts[1..][i - 1] == arts[i];
      (if ArtifactFile(arts[0]) in mine then [DuplicateMessage(ArtifactFile(arts[0]), other)] else []) + rest
  }

  /** Another task's manifest shares a file with this one. */
  predicate SharesFile(m: Manifest, other: Manifest) {
    other.taskId != m.taskId &&
    exists i :: 0 <= i < |other.artifacts| && ArtifactFile(other.artifacts[i]) in MyFiles(m)
  }

  /** `check_duplicate_artifacts` over the manifests from position `k` on. */
  function DuplicatesFrom(m: Manifest, all: seq<Manifest>): (r: seq<string>)
    ensures r == [] <==> forall k :: 0 <= k < |all| ==> !SharesFile(m, all[k])
    decreases |all|
  {
    if |all| == 0 then []
    else
      var rest := DuplicatesFrom(m, all[1..]);
      assert forall k :: 1 <= k < |all| ==> all[1..][k - 1] == all[k];
      (if all[0].taskId == m.taskId then [] else SharedIssues(all[0].artifacts, MyFiles(m), all[0].taskId)) + rest
  }

  /** A manifest never clashes with itself, nor with another manifest of its own task. */
  lemma OwnTaskNoDuplicates(m: Manifest, all: seq<Manifest>)
    requires forall k :: 0 <= k < |all| ==> all[k].taskId == m.taskId
    ensures DuplicatesFrom(m, all) == []
  {
  }

  /** `run_integration_check`: the three issue lists, concatenated. None is raised exactly when
      the interfaces are backed by artifacts, every dependency is complete and no other task
      shares a file. */
  function RunIntegrationCheck(m: Manifest, t: Task, p: Project, all: seq<Manifest>): (r: seq<string>)
    ensures r == [] <==>
      !(t.interfacesProduces != [] && m.artifacts == []) &&
      (forall d :: d in t.dependsOn ==> d in CompletedIds(p)) &&
      (forall k :: 0 <= k < |all| ==> !SharesFile(m, all[k]))
  {
    InterfaceIssues(m, t) + DependencyIssues(t, p) + DuplicatesFrom(m, all)
  }

  // ---------------------------------------------------------------------------
  // Stage 2: the reviewer's response
  // ---------------------------------------------------------------------------

  const VerdictKey := "verdict:"

  /** The first of `words` that starts `s`, ignoring the case of `s`. */
  function FirstPrefix(s: string, words: seq<string>): (r: Option<string>)
    ensures r.Some? ==> r.value in words && |r.value| <= |s| && Lower(s[..|r.value|]) == r.value
    ensures r.None? ==> forall w :: w in words ==> !(|w| <= |s| && Lower(s[..|w|]) == w)
    decreases |words|
  {
    if |words| == 0 then None
    else if |words[0]| <= |s| && Lower(s[..|words[0]|]) == words[0] then Some(words[0])
    else
      assert forall w :: w in words <==> w == words[0] || w in words[1..];
      FirstPrefix(s, words[1..])
  }

  /** The key "verdict:", in any case, starts at position `i`. */
  predicate KeyAt(s: string, i: nat) {
    i + |VerdictKey| <= |s| && Lower(s[i..i + |VerdictKey|]) == VerdictKey
  }

  /** The verdict word of a match of `VERDICT:\s*(accept|reject|revise|escalate)`, ignoring
      case, that starts at position `i`. */
  function VerdictAt(s: string, i: nat): Option<string> {
    if KeyAt(s, i) then FirstPrefix(LStrip(s[i + |VerdictKey|..]), Verdicts)
    else None
  }

  /** The leftmost match position at or after `from`. */
  function FindVerdict(s: string, from: nat): (r: Option<nat>)
    requires from <= |s| + 1
    ensures r.Some? ==> from <= r.value <= |s| && VerdictAt(s, r.value).Some?
    ensures r.Some? ==> forall j: nat :: from <= j < r.value ==> VerdictAt(s, j).None?
    ensures r.None? ==> forall j: nat :: from <= j <= |s| ==> VerdictAt(s, j).None?
    decreases |s| + 1 - from
  {
    if from == |s| + 1 then None
    else if VerdictAt(s, from).Some? then Some(from)
    else FindVerdict(s, from + 1)
  }

  /** No match of the verdict pattern anywhere in `text`. */
  predicate NoMatch(text: string) {
    forall i: nat :: i <= |text| ==> VerdictAt(text, i).None?
  }

  /** The leftmost match of the verdict pattern starts at `i`. */
  predicate FirstMatch(text: string, i: nat) {
    i <= |text| && VerdictAt(text, i).Some? && forall j: nat :: j < i ==> VerdictAt(text, j).None?
  }

  /** `_parse_review_response`: (notes, verdict). The leftmost verdict line decides, lower-cased,
      and the notes are the stripped text before it; with none, the whole text is the notes and
      the verdict is "accept". */
  function ParseReviewResponse(text: string): (r: (string, string))
    ensures r.1 in Verdicts
    ensures NoMatch(text) ==> r == (text, ACCEPT)
    ensures forall i: nat :: FirstMatch(text, i) ==> r == (Strip(text[..i]), VerdictAt(text, i).value)
  {
    match FindVerdict(text, 0)
    case None => (text, ACCEPT)
    case Some(i) =>
      assert forall j: nat :: FirstMatch(text, j) ==> j == i by {
        forall j: nat | FirstMatch(text, j) ensures j == i {
          FirstMatchUnique(text, i, j);
        }
      }
      (Strip(text[..i]), VerdictAt(text, i).value)
  }

  /** The leftmost match is unique. */
  lemma FirstMatchUnique(text: string, i: nat, j: nat)
    requires FirstMatch(text, i) && FirstMatch(text, j)
    ensures i == j
  {
  }

  /** "VERDICT:" reads as the key, whatever its case. */
  lemma UpperKey()
    ensures Lower("VERDICT:") == VerdictKey
  {
    var u := "VERDICT:";
    assert Lower(u)[0] == 'v' && Lower(u)[1] == 'e' && Lower(u)[2] == 'r' && Lower(u)[3] == 'd';
    assert Lower(u)[4] == 'i' && Lower(u)[5] == 'c' && Lower(u)[6] == 't' && Lower(u)[7] == ':';
  }

  /** A verdict word matches itself and no earlier alternative. */
  lemma VerdictWordMatches(w: string)
    requires w in Verdicts
    ensures FirstPrefix(w, Verdicts) == Some(w)
  {
    assert w[..|w|] == w;
    if w == ACCEPT {
      assert Lower(w) == w;
    } else if w == REJECT {
      assert Lower(w) == w;
      assert Lower(w[..|ACCEPT|])[0] == 'r';
    } else if w == REVISE {
      assert Lower(w) == w;
      assert Lower(w[..|ACCEPT|])[0] == 'r';
      assert Lower(w[..|REJECT|])[2] == 'v';
    } else {
      assert Lower(w) == w;
      assert Lower(w[..|ACCEPT|])[0] == 'e';
      assert Lower(w[..|REJECT|])[0] == 'e';
      assert Lower(w[..|REVISE|])[0] == 'e';
    }
  }

  /** The text the reviewer is asked to end with: a line "VERDICT: <word>". */
  function VerdictLine(w: string): string {
    "\nVERDICT: " + w
  }

  /** No match starts inside the notes or on the newline after them. */
  lemma NoMatchInNotes(body: string, w: string, j: nat)
    requires forall i: nat :: !KeyAt(body, i)
    requires j <= |body|
    ensures VerdictAt(body + VerdictLine(w), j).None?
  {
    if j + |VerdictKey| <= |body| {
      NoKeyInBody(body, VerdictLine(w), j);
    } else {
      NoKeyAcrossBreak(body, VerdictLine(w), j);
    }
  }

  lemma NoKeyInBody(body: string, tail: string, j: nat)
    requires j + |VerdictKey| <= |body| && !KeyAt(body, j)
    ensures !KeyAt(body + tail, j)
  {
    assert (body + tail)[j..j + |VerdictKey|] == body[j..j + |VerdictKey|];
  }

  /** A match cannot span the line break that opens the tail. */
  lemma NoKeyAcrossBreak(body: string, tail: string, j: nat)
    requires j <= |body| < j + |VerdictKey| && tail != [] && tail[0] == '\n'
    ensures !KeyAt(body + tail, j)
  {
    var s := body + tail;
    if j + |VerdictKey| <= |s| {
      assert s[|body|] == '\n';
      assert Lower(s[j..j + |VerdictKey|])[|body| - j] == '\n';
    }
  }

  /** The verdict line matches right after the newline. */
  lemma MatchOnVerdictLine(body: string, w: string)
    requires w in Verdicts
    ensures VerdictAt(body + VerdictLine(w), |body| + 1) == Some(w)
  {
    var s := body + VerdictLine(w);
    var at := |body| + 1;
    assert s[at..at + |VerdictKey|] == "VERDICT:";
    UpperKey();
    assert s[at + |VerdictKey|..] == " " + w;
    assert LStrip(" " + w) == w by {
      assert (" " + w)[1..] == w;
      assert !IsSpace(w[0]);
    }
    VerdictWordMatches(w);
  }

  /** The response format the reviewer is asked for: notes, then a final verdict line. Parsing
      it gives the stripped notes and the verdict back, provided the notes never say "verdict:". */
  lemma ResponseRoundTrip(body: string, w: string)
    requires w in Verdicts
    requires forall i: nat :: !KeyAt(body, i)
    ensures ParseReviewResponse(body + VerdictLine(w)) == (Strip(body), w)
  {
    var s := body + VerdictLine(w);
    VerdictLineIsFirst(body, w);
    NotesBeforeVerdict(body, w);
    assert FirstMatch(s, |body| + 1);
  }

  /** The verdict line written after notes that never say "verdict:" is the first match. */
  lemma VerdictLineIsFirst(body: string, w: string)
    requires w in Verdicts
    requires forall i: nat :: !KeyAt(body, i)
    ensures var s := body + VerdictLine(w);
      FirstMatch(s, |body| + 1) && VerdictAt(s, |body| + 1).value == w
  {
    var s := body + VerdictLine(w);
    forall j: nat | j < |body| + 1 ensures VerdictAt(s, j).None? {
      NoMatchInNotes(body, w, j);
    }
    MatchOnVerdictLine(body, w);
  }

  /** The text before the verdict line strips to the stripped notes. */
  lemma NotesBeforeVerdict(body: string, w: string)
    ensures Strip((body + VerdictLine(w))[..|body| + 1]) == Strip(body)
  {
    var s := body + VerdictLine(w);
    assert s[..|body| + 1] == body + "\n";
    StripAppendNewline(body);
  }

  // ---------------------------------------------------------------------------
  // Verdict composition
  // ---------------------------------------------------------------------------

  /** `compose_verdict`. The order is the code's: a failed check, then the reviewer's reject,
      escalate and revise, then integration issues. The unused notes argument is left out. */
  function ComposeVerdict(checks: seq<CheckResult>, suggestion: string, issues: seq<string>): (r: string)
    ensures r in Verdicts
    ensures r == REJECT <==> AnyFailed(checks) || suggestion == REJECT
    ensures r == ESCALATE <==> !AnyFailed(checks) && suggestion == ESCALATE
    ensures r == REVISE <==>
      !AnyFailed(checks) && (suggestion == REVISE || (suggestion != REJECT && suggestion != ESCALATE && issues != []))
    ensures r == ACCEPT <==>
      !AnyFailed(checks) && suggestion != REJECT && suggestion != ESCALATE && suggestion != REVISE && issues == []
  {
    if AnyFailed(checks) then REJECT
    else if suggestion == REJECT then REJECT
    else if suggestion == ESCALATE then ESCALATE
    else if suggestion == REVISE then REVISE
    else if issues != [] then REVISE
    else ACCEPT
  }

  // ---------------------------------------------------------------------------
  // The review engine
  // ---------------------------------------------------------------------------

  /** The reviewer: the response text for a system prompt, a manifest and its task contract. */
  type Reviewer = (string, Manifest, Task) -> string

  /** The outcome of `build_architect_context` for the project under review: the system prompt
      Stage 2 gives the reviewer, or the error that building it raises. */
  type Prompt = Result<string, Constitution.ContextError>

  /** Stage 1 passes, so the review goes on to Stages 2 and 3. */
  predicate ReachesStage2(m: Manifest, t: Task, show: Value -> string) {
    !AnyFailed(RunAutomatedChecks(m, t, show))
  }

  /** The review record: revision instructions for a revise and an escalation reason for an
      escalate, both the reviewer's notes. */
  function ReviewRecord(reviewId: string, t: Task, checks: seq<CheckResult>, notes: string, suggestion: string,
                        issues: seq<string>, now: string): (r: ReviewResult)
    ensures r.reviewId == reviewId && r.taskId == t.taskId && r.reviewedAt == now
    ensures r.automatedChecks == checks && r.architectNotes == notes && r.integrationIssues == issues
    ensures r.verdict == ComposeVerdict(checks, suggestion, issues)
    ensures r.revisionInstructions == (if r.verdict == REVISE then Some(notes) else None)
    ensures r.escalationReason == (if r.verdict == ESCALATE then Some(notes) else None)
  {
    var verdict := ComposeVerdict(checks, suggestion, issues);
    ReviewResult(reviewId, t.taskId, verdict, checks, notes, issues,
                 if verdict == REVISE then Some(notes) else None,
                 if verdict == ESCALATE then Some(notes) else None, now)
  }

  /** `ReviewEngine.review_task`, with the review id and the clock reading as parameters.
      When Stage 1 fails the reviewer is not consulted and no integration check runs. Otherwise
      Stage 2 first builds the architect context, and the review fails with its error when that
      cannot be built. */
  function ReviewTask(m: Manifest, t: Task, p: Project, all: seq<Manifest>, prompt: Prompt,
                      reviewer: Reviewer, show: Value -> string, reviewId: string, now: string)
    : (r: Result<ReviewResult, Constitution.ContextError>)
    ensures r.Failure? <==> ReachesStage2(m, t, show) && prompt.Failure?
    ensures r.Failure? ==> r.error == prompt.error
    ensures r.Success? ==>
      r.value.reviewId == reviewId && r.value.taskId == t.taskId && r.value.reviewedAt == now &&
      r.value.automatedChecks == RunAutomatedChecks(m, t, show) && r.value.verdict in Verdicts
    ensures r.Success? && !ReachesStage2(m, t, show) ==>
      r.value.verdict == REJECT && r.value.architectNotes == "" && r.value.integrationIssues == []
    ensures r.Success? && ReachesStage2(m, t, show) ==>
      r.value.architectNotes == ParseReviewResponse(reviewer(prompt.value, m, t)).0 &&
      r.value.integrationIssues == RunIntegrationCheck(m, t, p, all)
    ensures r.Success? ==>
      r.value.revisionInstructions == (if r.value.verdict == REVISE then Some(r.value.architectNotes) else None) &&
      r.value.escalationReason == (if r.value.verdict == ESCALATE then Some(r.value.architectNotes) else None)
  {
    var checks := RunAutomatedChecks(m, t, show);
    if AnyFailed(checks) then Success(ReviewRecord(reviewId, t, checks, "", ACCEPT, [], now))
    else
      var system :- prompt;
      var stage2 := ParseReviewResponse(reviewer(system, m, t));
      Success(ReviewRecord(reviewId, t, checks, stage2.0, stage2.1, RunIntegrationCheck(m, t, p, all), now))
  }

  /** With a failing Stage 1 the review succeeds, and its result does not depend on the
      reviewer, the project, the constitution or the other manifests. */
  lemma FailedChecksSkipReviewer(m: Manifest, t: Task, p1: Project, p2: Project, all1: seq<Manifest>,
                                 all2: seq<Manifest>, prompt1: Prompt, prompt2: Prompt,
                                 rev1: Reviewer, rev2: Reviewer, show: Value -> string, reviewId: string, now: string)
    requires AnyFailed(RunAutomatedChecks(m, t, show))
    ensures ReviewTask(m, t, p1, all1, prompt1, rev1, show, reviewId, now).Success?
    ensures ReviewTask(m, t, p1, all1, prompt1, rev1, show, reviewId, now)
         == ReviewTask(m, t, p2, all2, prompt2, rev2, show, reviewId, now)
  {
  }

  /** With the prompt that `build_architect_context` builds, a review that reaches Stage 2 fails
      when document 07 is not loaded and, as written, for any project with a task in progress;
      with document 07 loaded the corrected review never fails. */
  lemma Stage2ContextFailures(m: Manifest, t: Task, p: Project, all: seq<Manifest>, docs: Constitution.Docs,
                              entries: seq<string>, visionJson: string, search: Constitution.Search, asWritten: bool,
                              reviewer: Reviewer, show: Value -> string, reviewId: string, now: string)
    requires ReachesStage2(m, t, show)
    ensures var r := ReviewTask(m, t, p, all, Constitution.BuildArchitectContext(docs, p, entries, visionJson, search, asWritten),
                                reviewer, show, reviewId, now);
      (r.Failure? <==> 7 !in docs || (asWritten && p.activeTasks != [])) &&
      (7 !in docs ==> r == Failure(Constitution.DocMissing(Constitution.DocNotLoaded(7, docs.Keys)))) &&
      (7 in docs && asWritten && p.activeTasks != [] ==> r.Failure? && r.error.StatusFailed?)
  {
  }

  /** The completed tasks whose manifest can be loaded, paired with it, in task order.
      `load` stands for `load_builder_manifest`, with None for a missing file. */
  function WithManifests(ts: seq<Task>, load: string -> Option<Manifest>): (r: seq<(Manifest, Task)>)
    ensures |r| <= |ts|
    ensures forall k :: 0 <= k < |r| ==> load(r[k].1.taskId) == Some(r[k].0) && r[k].1 in ts
    decreases |ts|
  {
    if |ts| == 0 then []
    else
      var rest := WithManifests(ts[1..], load);
      assert forall t :: t in ts[1..] ==> t in ts;
      match load(ts[0].taskId)
      case None => rest
      case Some(m) => [(m, ts[0])] + rest
  }

  /** Every task whose manifest loads has its pair. */
  lemma {:induction false} WithManifestsComplete(ts: seq<Task>, load: string -> Option<Manifest>, t: Task)
    requires t in ts && load(t.taskId).Some?
    ensures exists k :: 0 <= k < |WithManifests(ts, load)| && WithManifests(ts, load)[k].1 == t
    decreases |ts|
  {
    var r := WithManifests(ts, load);
    if t == ts[0] {
      assert r[0].1 == t;
    } else {
      assert t in ts[1..];
      WithManifestsComplete(ts[1..], load, t);
      var rest := WithManifests(ts[1..], load);
      var k :| 0 <= k < |rest| && rest[k].1 == t;
      if load(ts[0].taskId).Some? {
        var head := [(load(ts[0].taskId).value, ts[0])];
        assert r == head + rest;
        assert r[|head| + k] == rest[k];
      } else {
        assert r == rest;
      }
    }
  }

  /** The pairs whose task has no review yet, in order. */
  function Unreviewed(pairs: seq<(Manifest, Task)>, reviewed: set<string>): (r: seq<(Manifest, Task)>)
    ensures |r| <= |pairs|
    ensures forall x :: x in r <==> x in pairs && x.1.taskId !in reviewed
    decreases |pairs|
  {
    if |pairs| == 0 then []
    else
      assert forall x :: x in pairs <==> x == pairs[0] || x in pairs[1..];
      (if pairs[0].1.taskId in reviewed then [] else [pairs[0]]) + Unreviewed(pairs[1..], reviewed)
  }

  /** The review of each pair, the `k`-th taking the `k`-th review id and clock reading. */
  function Reviews(pairs: seq<(Manifest, Task)>, p: Project, all: seq<Manifest>, prompt: Prompt,
                   reviewer: Reviewer, show: Value -> string, ids: nat -> string, clock: nat -> string)
    : (r: seq<Result<ReviewResult, Constitution.ContextError>>)
    ensures |r| == |pairs|
    ensures forall k :: 0 <= k < |pairs| ==>
      r[k] == ReviewTask(pairs[k].0, pairs[k].1, p, all, prompt, reviewer, show, ids(k), clock(k))
  {
    seq(|pairs|, k requires 0 <= k < |pairs| =>
      ReviewTask(pairs[k].0, pairs[k].1, p, all, prompt, reviewer, show, ids(k), clock(k)))
  }

  /** The reviews of `pairs` in order; the first review that fails ends the loop with its error. */
  function ReviewEach(pairs: seq<(Manifest, Task)>, p: Project, all: seq<Manifest>, prompt: Prompt,
                      reviewer: Reviewer, show: Value -> string, ids: nat -> string, clock: nat -> string)
    : (r: Result<seq<ReviewResult>, Constitution.ContextError>)
    ensures r.Success? ==> |r.value| == |pairs|
  {
    Collect(Reviews(pairs, p, all, prompt, reviewer, show, ids, clock))
  }

  /** A successful run holds, in order, the review of each pair with its own id and clock reading. */
  lemma ReviewEachPointwise(pairs: seq<(Manifest, Task)>, p: Project, all: seq<Manifest>, prompt: Prompt,
                            reviewer: Reviewer, show: Value -> string, ids: nat -> string, clock: nat -> string)
    ensures var r := ReviewEach(pairs, p, all, prompt, reviewer, show, ids, clock);
      r.Success? ==> forall k :: 0 <= k < |pairs| ==>
        ReviewTask(pairs[k].0, pairs[k].1, p, all, prompt, reviewer, show, ids(k), clock(k)) == Success(r.value[k])
  {
  }

  /** The run fails, with the architect context's error, exactly when that context cannot be
      built and some pair passes Stage 1. */
  lemma ReviewEachFails(pairs: seq<(Manifest, Task)>, p: Project, all: seq<Manifest>, prompt: Prompt,
                        reviewer: Reviewer, show: Value -> string, ids: nat -> string, clock: nat -> string)
    ensures var r := ReviewEach(pairs, p, all, prompt, reviewer, show, ids, clock);
      (r.Failure? <==> prompt.Failure? && exists k :: 0 <= k < |pairs| && ReachesStage2(pairs[k].0, pairs[k].1, show)) &&
      (r.Failure? ==> r.error == prompt.error)
  {
    var rs := Reviews(pairs, p, all, prompt, reviewer, show, ids, clock);
    var q := (k: nat) => k < |pairs| && ReachesStage2(pairs[k].0, pairs[k].1, show);
    if prompt.Failure? {
      CollectFails(rs, true, q, prompt.error);
    } else {
      CollectFails(rs, false, q, Constitution.StatusFailed(""));
    }
  }

  function ReviewedIds(existing: seq<ReviewResult>): set<string> {
    set r | r in existing :: r.taskId
  }

  /** `ReviewEngine.review_all`: the existing reviews, then one new review for each completed
      task that has a manifest and no review yet, in task order. Every loaded manifest, reviewed
      or not, takes part in the duplicate check. The first review that fails ends it with that
      failure. */
  function ReviewAll(p: Project, existing: seq<ReviewResult>, load: string -> Option<Manifest>, prompt: Prompt,
                     reviewer: Reviewer, show: Value -> string, ids: nat -> string, clock: nat -> string)
    : (r: Result<seq<ReviewResult>, Constitution.ContextError>)
    ensures r.Success? ==> |existing| <= |r.value| && r.value[..|existing|] == existing
  {
    var pairs := WithManifests(p.completedTasks, load);
    var added :- ReviewEach(Unreviewed(pairs, ReviewedIds(existing)), p, ManifestsOf(pairs), prompt, reviewer, show, ids, clock);
    Success(existing + added)
  }

  /** A successful run is the existing reviews followed by the successful reviews of the
      unreviewed pairs. */
  lemma ReviewAllUnfold(p: Project, existing: seq<ReviewResult>, load: string -> Option<Manifest>, prompt: Prompt,
                        reviewer: Reviewer, show: Value -> string, ids: nat -> string, clock: nat -> string)
    requires ReviewAll(p, existing, load, prompt, reviewer, show, ids, clock).Success?
    ensures var pairs := WithManifests(p.completedTasks, load);
      var each := ReviewEach(Unreviewed(pairs, ReviewedIds(existing)), p, ManifestsOf(pairs), prompt, reviewer, show, ids, clock);
      each.Success? && ReviewAll(p, existing, load, prompt, reviewer, show, ids, clock).value == existing + each.value
  {
  }

  /** The new reviews of a successful run are those of the unreviewed pairs, in order. */
  lemma ReviewAllAddsEach(p: Project, existing: seq<ReviewResult>, load: string -> Option<Manifest>, prompt: Prompt,
                          reviewer: Reviewer, show: Value -> string, ids: nat -> string, clock: nat -> string)
    ensures var r := ReviewAll(p, existing, load, prompt, reviewer, show, ids, clock);
      var pairs := WithManifests(p.completedTasks, load);
      r.Success? ==>
        Success(r.value[|existing|..])
          == ReviewEach(Unreviewed(pairs, ReviewedIds(existing)), p, ManifestsOf(pairs), prompt, reviewer, show, ids, clock)
  {
    var r := ReviewAll(p, existing, load, prompt, reviewer, show, ids, clock);
    if r.Success? {
      var pairs := WithManifests(p.completedTasks, load);
      var each := ReviewEach(Unreviewed(pairs, ReviewedIds(existing)), p, ManifestsOf(pairs), prompt, reviewer, show, ids, clock);
      ReviewAllUnfold(p, existing, load, prompt, reviewer, show, ids, clock);
      assert (existing + each.value)[|existing|..] == each.value;
    }
  }

  /** `review_all` fails, with the architect context's error, exactly when that context cannot be
      built and some completed, loadable, unreviewed task's manifest passes Stage 1. */
  lemma ReviewAllFails(p: Project, existing: seq<ReviewResult>, load: string -> Option<Manifest>, prompt: Prompt,
                       reviewer: Reviewer, show: Value -> string, ids: nat -> string, clock: nat -> string)
    ensures var r := ReviewAll(p, existing, load, prompt, reviewer, show, ids, clock);
      (r.Failure? <==>
        prompt.Failure? &&
        exists t :: t in p.completedTasks && load(t.taskId).Some? && t.taskId !in ReviewedIds(existing) &&
          ReachesStage2(load(t.taskId).value, t, show)) &&
      (r.Failure? ==> r.error == prompt.error)
  {
    var pairs := WithManifests(p.completedTasks, load);
    var todo := Unreviewed(pairs, ReviewedIds(existing));
    ReviewEachFails(todo, p, ManifestsOf(pairs), prompt, reviewer, show, ids, clock);
    TodoHas(p, existing, load, (m: Manifest, t: Task) => ReachesStage2(m, t, show), todo);
  }

  /** A successful run adds a review for each completed, loadable, unreviewed task and for no
      other, at most one per completed task. */
  lemma ReviewAllNew(p: Project, existing: seq<ReviewResult>, load: string -> Option<Manifest>, prompt: Prompt,
                     reviewer: Reviewer, show: Value -> string, ids: nat -> string, clock: nat -> string)
    ensures var r := ReviewAll(p, existing, load, prompt, reviewer, show, ids, clock);
      r.Success? ==>
        |r.value| <= |existing| + |p.completedTasks| &&
        (forall k :: |existing| <= k < |r.value| ==>
          r.value[k].taskId !in ReviewedIds(existing) && load(r.value[k].taskId).Some? &&
          exists t :: t in p.completedTasks && t.taskId == r.value[k].taskId) &&
        (forall t :: t in p.completedTasks && load(t.taskId).Some? && t.taskId !in ReviewedIds(existing) ==>
          exists k :: |existing| <= k < |r.value| && r.value[k].taskId == t.taskId)
  {
    var r := ReviewAll(p, existing, load, prompt, reviewer, show, ids, clock);
    if r.Success? {
      var pairs := WithManifests(p.completedTasks, load);
      var todo := Unreviewed(pairs, ReviewedIds(existing));
      var each := ReviewEach(todo, p, ManifestsOf(pairs), prompt, reviewer, show, ids, clock);
      ReviewAllUnfold(p, existing, load, prompt, reviewer, show, ids, clock);
      EachTaskIds(todo, p, ManifestsOf(pairs), prompt, reviewer, show, ids, clock);
      NewReviews(p, existing, load, todo, each.value);
    }
  }

  /** A successful run of reviews keeps the task ids of its pairs. */
  lemma EachTaskIds(pairs: seq<(Manifest, Task)>, p: Project, all: seq<Manifest>, prompt: Prompt,
                    reviewer: Reviewer, show: Value -> string, ids: nat -> string, clock: nat -> string)
    requires ReviewEach(pairs, p, all, prompt, reviewer, show, ids, clock).Success?
    ensures var added := ReviewEach(pairs, p, all, prompt, reviewer, show, ids, clock).value;
      |added| == |pairs| && forall k :: 0 <= k < |added| ==> added[k].taskId == pairs[k].1.taskId
  {
    var added := ReviewEach(pairs, p, all, prompt, reviewer, show, ids, clock).value;
    ReviewEachPointwise(pairs, p, all, prompt, reviewer, show, ids, clock);
    forall k | 0 <= k < |added| ensures added[k].taskId == pairs[k].1.taskId {
      assert ReviewTask(pairs[k].0, pairs[k].1, p, all, prompt, reviewer, show, ids(k), clock(k)) == Success(added[k]);
    }
  }

  /** Some pair left to review satisfies `P` exactly when some completed, loadable, unreviewed
      task does, with its manifest. */
  lemma TodoHas(p: Project, existing: seq<ReviewResult>, load: string -> Option<Manifest>,
                P: (Manifest, Task) -> bool, todo: seq<(Manifest, Task)>)
    requires todo == Unreviewed(WithManifests(p.completedTasks, load), ReviewedIds(existing))
    ensures (exists k :: 0 <= k < |todo| && P(todo[k].0, todo[k].1)) <==>
      exists t :: t in p.completedTasks && load(t.taskId).Some? && t.taskId !in ReviewedIds(existing) &&
        P(load(t.taskId).value, t)
  {
    if k :| 0 <= k < |todo| && P(todo[k].0, todo[k].1) {
      TodoPairIsTask(p, existing, load, todo, k);
      assert P(load(todo[k].1.taskId).value, todo[k].1);
    }
    if t :| t in p.completedTasks && load(t.taskId).Some? && t.taskId !in ReviewedIds(existing) &&
            P(load(t.taskId).value, t) {
      var k := TaskIsTodoPair(p, existing, load, todo, t);
      assert P(todo[k].0, todo[k].1);
    }
  }

  /** A pair left to review is a completed, loadable, unreviewed task with its manifest. */
  lemma TodoPairIsTask(p: Project, existing: seq<ReviewResult>, load: string -> Option<Manifest>,
                       todo: seq<(Manifest, Task)>, k: nat)
    requires todo == Unreviewed(WithManifests(p.completedTasks, load), ReviewedIds(existing))
    requires k < |todo|
    ensures todo[k].1 in p.completedTasks && todo[k].1.taskId !in ReviewedIds(existing)
    ensures load(todo[k].1.taskId) == Some(todo[k].0)
  {
    var pairs := WithManifests(p.completedTasks, load);
    assert todo[k] in todo;
    var j :| 0 <= j < |pairs| && pairs[j] == todo[k];
  }

  /** A completed, loadable, unreviewed task is a pair left to review, with its manifest. */
  lemma TaskIsTodoPair(p: Project, existing: seq<ReviewResult>, load: string -> Option<Manifest>,
                       todo: seq<(Manifest, Task)>, t: Task) returns (k: nat)
    requires todo == Unreviewed(WithManifests(p.completedTasks, load), ReviewedIds(existing))
    requires t in p.completedTasks && load(t.taskId).Some? && t.taskId !in ReviewedIds(existing)
    ensures k < |todo| && todo[k] == (load(t.taskId).value, t)
  {
    var pairs := WithManifests(p.completedTasks, load);
    WithManifestsComplete(p.completedTasks, load, t);
    var j :| 0 <= j < |pairs| && pairs[j].1 == t;
    assert pairs[j] in todo;
    k :| 0 <= k < |todo| && todo[k] == pairs[j];
  }

  /** The manifests of the pairs, in order: `all_manifests`. */
  function ManifestsOf(pairs: seq<(Manifest, Task)>): (r: seq<Manifest>)
    ensures |r| == |pairs| && forall k :: 0 <= k < |r| ==> r[k] == pairs[k].0
  {
    seq(|pairs|, k requires 0 <= k < |pairs| => pairs[k].0)
  }

  /** The new reviews are exactly those of the completed, loadable, unreviewed tasks. */
  lemma NewReviews(p: Project, existing: seq<ReviewResult>, load: string -> Option<Manifest>,
                   todo: seq<(Manifest, Task)>, added: seq<ReviewResult>)
    requires todo == Unreviewed(WithManifests(p.completedTasks, load), ReviewedIds(existing))
    requires |added| == |todo| && forall k :: 0 <= k < |added| ==> added[k].taskId == todo[k].1.taskId
    ensures var r := existing + added;
      |r| <= |existing| + |p.completedTasks| &&
      (forall k :: |existing| <= k < |r| ==>
        r[k].taskId !in ReviewedIds(existing) && load(r[k].taskId).Some? &&
        exists t :: t in p.completedTasks && t.taskId == r[k].taskId) &&
      (forall t :: t in p.completedTasks && load(t.taskId).Some? && t.taskId !in ReviewedIds(existing) ==>
        exists k :: |existing| <= k < |r| && r[k].taskId == t.taskId)
  {
    NewReviewsBound(p, existing, load, todo, added);
    NewReviewsSound(p, existing, load, todo, added);
    NewReviewsComplete(p, existing, load, todo, added);
  }

  lemma NewReviewsBound(p: Project, existing: seq<ReviewResult>, load: string -> Option<Manifest>,
                        todo: seq<(Manifest, Task)>, added: seq<ReviewResult>)
    requires todo == Unreviewed(WithManifests(p.completedTasks, load), ReviewedIds(existing))
    requires |added| == |todo|
    ensures |existing + added| <= |existing| + |p.completedTasks|
  {
  }

  lemma NewReviewsSound(p: Project, existing: seq<ReviewResult>, load: string -> Option<Manifest>,
                        todo: seq<(Manifest, Task)>, added: seq<ReviewResult>)
    requires todo == Unreviewed(WithManifests(p.completedTasks, load), ReviewedIds(existing))
    requires |added| == |todo| && forall k :: 0 <= k < |added| ==> added[k].taskId == todo[k].1.taskId
    ensures var r := existing + added;
      forall k :: |existing| <= k < |r| ==>
        r[k].taskId !in ReviewedIds(existing) && load(r[k].taskId).Some? &&
        exists t :: t in p.completedTasks && t.taskId == r[k].taskId
  {
    var r := existing + added;
    forall k | |existing| <= k < |r|
      ensures r[k].taskId !in ReviewedIds(existing) && load(r[k].taskId).Some?
      ensures exists t :: t in p.completedTasks && t.taskId == r[k].taskId
    {
      assert r[k] == added[k - |existing|];
      NewReviewSound(p, existing, load, todo, added, k - |existing|);
    }
  }

  lemma NewReviewsComplete(p: Project, existing: seq<ReviewResult>, load: string -> Option<Manifest>,
                           todo: seq<(Manifest, Task)>, added: seq<ReviewResult>)
    requires todo == Unreviewed(WithManifests(p.completedTasks, load), ReviewedIds(existing))
    requires |added| == |todo| && forall k :: 0 <= k < |added| ==> added[k].taskId == todo[k].1.taskId
    ensures var r := existing + added;
      forall t :: t in p.completedTasks && load(t.taskId).Some? && t.taskId !in ReviewedIds(existing) ==>
        exists k :: |existing| <= k < |r| && r[k].taskId == t.taskId
  {
    var r := existing + added;
    forall t | t in p.completedTasks && load(t.taskId).Some? && t.taskId !in ReviewedIds(existing)
      ensures exists k :: |existing| <= k < |r| && r[k].taskId == t.taskId
    {
      var i := NewReviewFor(p, existing, load, todo, added, t);
      assert r[|existing| + i] == added[i];
    }
  }

  /** Each added review is for a completed, loadable, unreviewed task. */
  lemma NewReviewSound(p: Project, existing: seq<ReviewResult>, load: string -> Option<Manifest>,
                       todo: seq<(Manifest, Task)>, added: seq<ReviewResult>, i: nat)
    requires todo == Unreviewed(WithManifests(p.completedTasks, load), ReviewedIds(existing))
    requires |added| == |todo| && forall k :: 0 <= k < |added| ==> added[k].taskId == todo[k].1.taskId
    requires i < |added|
    ensures added[i].taskId !in ReviewedIds(existing) && load(added[i].taskId).Some?
    ensures exists t :: t in p.completedTasks && t.taskId == added[i].taskId
  {
    var pairs := WithManifests(p.completedTasks, load);
    assert todo[i] in todo;
    assert todo[i] in pairs;
  }

  /** Each completed, loadable, unreviewed task has a review among those added. */
  lemma NewReviewFor(p: Project, existing: seq<ReviewResult>, load: string -> Option<Manifest>,
                     todo: seq<(Manifest, Task)>, added: seq<ReviewResult>, t: Task) returns (i: nat)
    requires todo == Unreviewed(WithManifests(p.completedTasks, load), ReviewedIds(existing))
    requires |added| == |todo| && forall k :: 0 <= k < |added| ==> added[k].taskId == todo[k].1.taskId
    requires t in p.completedTasks && load(t.taskId).Some? && t.taskId !in ReviewedIds(existing)
    ensures i < |added| && added[i].taskId == t.taskId
  {
    var pairs := WithManifests(p.completedTasks, load);
    WithManifestsComplete(p.completedTasks, load, t);
    var j :| 0 <= j < |pairs| && pairs[j].1 == t;
    assert pairs[j] in todo;
    i :| 0 <= i < |todo| && todo[i] == pairs[j];
  }

  lemma {:induction false} UnreviewedNone(pairs: seq<(Manifest, Task)>, reviewed: set<string>)
    requires forall k :: 0 <= k < |pairs| ==> pairs[k].1.taskId in reviewed
    ensures Unreviewed(pairs, reviewed) == []
    decreases |pairs|
  {
    if |pairs| > 0 {
      UnreviewedNone(pairs[1..], reviewed);
    }
  }

  /** Once every completed task has a review, reviewing again adds nothing. */
  lemma AllReviewedAddsNothing(p: Project, existing: seq<ReviewResult>, load: string -> Option<Manifest>,
                               prompt: Prompt, reviewer: Reviewer, show: Value -> string, ids: nat -> string,
                               clock: nat -> string)
    requires forall t :: t in p.completedTasks ==> t.taskId in ReviewedIds(existing)
    ensures ReviewAll(p, existing, load, prompt, reviewer, show, ids, clock) == Success(existing)
  {
    var pairs := WithManifests(p.completedTasks, load);
    UnreviewedNone(pairs, ReviewedIds(existing));
    var none := Reviews([], p, ManifestsOf(pairs), prompt, reviewer, show, ids, clock);
    assert none == [];
    assert ReviewEach([], p, ManifestsOf(pairs), prompt, reviewer, show, ids, clock) == Success([]);
    assert existing + [] == existing;
  }
}
