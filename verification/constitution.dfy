/** The constitution enforcer: document lookup, heading-based section extraction, and the
    table-driven assembly of the architect's and the builders' session contexts.
    Loading the documents from disk is not modelled: the loaded documents are a map from
    document number to text. `re.search` of a section pattern against a heading line is the
    parameter `search`; the fixed heading and list patterns are written out. */
module Constitution {
  import opened Wrappers
  import opened Text
  import opened Models
  import Project
  import Journal
  import GateCards

  // ---------------------------------------------------------------------------
  // Documents
  // ---------------------------------------------------------------------------

  /** The loaded constitutional documents, by number. */
  type Docs = map<int, string>

  /** `re.search(pattern, heading_line)` */
  type Search = (string, string) -> bool

  /** The `KeyError` of `get_doc`: the number asked for and the numbers that are loaded. */
  datatype DocError = DocNotLoaded(docNum: int, loaded: set<int>)

  /** `get_doc(n)`: the full text of a loaded document, a `KeyError` for any other number. */
  function GetDoc(docs: Docs, n: int): (r: Result<string, DocError>)
    ensures r.Success? <==> n in docs
    ensures r.Success? ==> r.value == docs[n]
    ensures r.Failure? ==> r.error.docNum == n && r.error.loaded == docs.Keys
  {
    if n in docs then Success(docs[n]) else Failure(DocNotLoaded(n, docs.Keys))
  }

  /** `get_doc_section(n, key)`: the extracted section, or the whole document when the
      extraction comes back empty, so that nothing is lost. With `asWritten` the section is cut
      by `_extract_section` as written, otherwise with its subsections kept. */
  function GetDocSection(docs: Docs, n: int, key: string, search: Search, asWritten: bool): (r: Result<string, DocError>)
    ensures r.Success? <==> n in docs
    ensures r.Failure? ==> r.error.docNum == n
    ensures r.Success? ==>
      var e := ExtractLines(SplitLines(docs[n]), key, search, asWritten);
      r.value == (if e == "" then docs[n] else e)
    ensures r.Success? && asWritten ==>
      r.value == docs[n] || r.value == ExtractSectionAsWritten(docs[n], key, search)
    ensures r.Success? && !asWritten ==>
      r.value == docs[n] || r.value == ExtractSection(docs[n], key, search)
    ensures r.Success? && docs[n] != "" ==> r.value != ""
    ensures r.Success? && SectionPatterns(key) == [] ==> r.value == docs[n]
  {
    var full :- GetDoc(docs, n);
    var extracted := ExtractLines(SplitLines(full), key, search, asWritten);
    Success(if extracted != "" then extracted else full)
  }

  // ---------------------------------------------------------------------------
  // Section patterns
  // ---------------------------------------------------------------------------

  const PrinciplesKey := "principles_summary"
  const CategoryIndexKey := "category_index"

  /** `_SECTION_PATTERNS.get(key)`, with no patterns for an unknown key. */
  function SectionPatterns(key: string): seq<string> {
    if key == PrinciplesKey then [@"^#+\s"]
    else if key == "state_model" then [@"(?i)state\s+model"]
    else if key == "flows" then [@"(?i)\bflows?\b"]
    else if key == "constraints" then [@"(?i)constraint"]
    else if key == "dependencies" then [@"(?i)dependenc"]
    else if key == "failure_recovery" then [@"(?i)failure", @"(?i)recovery"]
    else if key == CategoryIndexKey then [@"(?i)^#+\s.*categor", @"(?i)^#+\s.*[A-M]\."]
    else if key == "categories_a_c_d" then [@"(?i)resource\s+control", @"(?i)routing.*flow", @"(?i)load.*demand"]
    else if key == "categories_e_f_l" then [@"(?i)asset.*infrastructure", @"(?i)maintenance.*repair", @"(?i)risk.*safety"]
    else if key == "categories_c_g" then [@"(?i)routing.*flow", @"(?i)priority.*policy"]
    else if key == "relevant_categories" then [@"(?i)^#+\s.*[A-M]\."]
    else if key == "validation_pipeline" then [@"(?i)validation\s+pipeline"]
    else if key == "constraint_supremacy" then [@"(?i)constraint\s+supremacy"]
    else if key == "determinism_guarantee" then [@"(?i)determinism"]
    else if key == "ux_display" then [@"(?i)ux\s+display", @"(?i)user\s+selection"]
    else if key == "decision_generation_pipeline" then [@"(?i)decision.*pipeline", @"(?i)decision.*generation"]
    else []
  }

  // ---------------------------------------------------------------------------
  // Headings
  // ---------------------------------------------------------------------------

  /** The number of leading '#' characters. */
  function HashRun(line: string): (n: nat)
    ensures n <= |line|
    ensures forall k :: 0 <= k < n ==> line[k] == '#'
    ensures n < |line| ==> line[n] != '#'
  {
    if line == [] || line[0] != '#' then 0 else 1 + HashRun(line[1..])
  }

  /** `re.match(r"^(#+)\s+(.*)$", line)` on a line without a newline; `^#+\s` is the same
      test. The heading's level is its `HashRun`. */
  predicate IsHeading(line: string) {
    0 < HashRun(line) < |line| && IsSpace(line[HashRun(line)])
  }

  /** Some pattern of the key finds the heading line. */
  predicate Starts(patterns: seq<string>, search: Search, line: string) {
    exists k :: 0 <= k < |patterns| && search(patterns[k], line)
  }

  /** `[x for x in xs if p(x)]` */
  function Filter<T>(p: T -> bool, xs: seq<T>): (r: seq<T>)
    ensures |r| <= |xs|
    ensures forall k :: 0 <= k < |r| ==> p(r[k]) && r[k] in xs
    decreases |xs|
  {
    if xs == [] then [] else (if p(xs[0]) then [xs[0]] else []) + Filter(p, xs[1..])
  }

  lemma {:induction false} FilterConcat<T>(p: T -> bool, xs: seq<T>, ys: seq<T>)
    ensures Filter(p, xs + ys) == Filter(p, xs) + Filter(p, ys)
    decreases |xs|
  {
    if xs != [] {
      FilterConcat(p, xs[1..], ys);
      assert (xs + ys)[1..] == xs[1..] + ys;
    } else {
      assert xs + ys == ys;
    }
  }

  lemma {:induction false} FilterIff<T>(p: T -> bool, xs: seq<T>, x: T)
    ensures x in Filter(p, xs) <==> x in xs && p(x)
    decreases |xs|
  {
    if xs != [] {
      FilterIff(p, xs[1..], x);
      assert xs == [xs[0]] + xs[1..];
    }
  }

  // ---------------------------------------------------------------------------
  // Heading-based capture
  // ---------------------------------------------------------------------------

  /** The state of the extraction loop: the finished blocks, whether a block is open, its
      heading level, and its lines so far. */
  datatype Capture = Capture(blocks: seq<seq<string>>, capturing: bool, level: nat, current: seq<string>)

  const Idle := Capture([], false, 0, [])

  /** A heading at or above the capture level finishes the open block. */
  function Close(c: Capture, line: string): Capture {
    if c.capturing && HashRun(line) <= c.level then Capture(c.blocks + [c.current], false, c.level, [])
    else c
  }

  /** One iteration of the loop as written: a heading is never added to the open block; if one
      of the patterns finds it, it opens a new block and the lines collected so far are dropped. */
  function StepAsWritten(c: Capture, line: string, starts: bool): Capture {
    if IsHeading(line) then
      var d := Close(c, line);
      if starts then Capture(d.blocks, true, HashRun(line), [line]) else d
    else if c.capturing then c.(current := c.current + [line])
    else c
  }

  /** One iteration as the extraction means it: a heading below the capture level belongs to
      the open block. */
  function Step(c: Capture, line: string, starts: bool): Capture {
    if IsHeading(line) && c.capturing && HashRun(line) > c.level then c.(current := c.current + [line])
    else StepAsWritten(c, line, starts)
  }

  function StepWith(asWritten: bool, c: Capture, line: string, starts: bool): Capture {
    if asWritten then StepAsWritten(c, line, starts) else Step(c, line, starts)
  }

  /** The loop over `lines[i..]`. */
  function Run(lines: seq<string>, i: nat, c: Capture, patterns: seq<string>, search: Search, asWritten: bool): Capture
    requires i <= |lines|
    decreases |lines| - i
  {
    if i == |lines| then c
    else
      var starts := Starts(patterns, search, lines[i]);
      Run(lines, i + 1, StepWith(asWritten, c, lines[i], starts), patterns, search, asWritten)
  }

  /** The final flush: an open block with lines is finished. */
  function Flush(c: Capture): seq<seq<string>> {
    if c.current != [] then c.blocks + [c.current] else c.blocks
  }

  function SectionBlocksAsWritten(lines: seq<string>, patterns: seq<string>, search: Search): seq<seq<string>> {
    Flush(Run(lines, 0, Idle, patterns, search, true))
  }

  function SectionBlocks(lines: seq<string>, patterns: seq<string>, search: Search): seq<seq<string>> {
    Flush(Run(lines, 0, Idle, patterns, search, false))
  }

  /** The first index at or after `i` holding a heading of level at most `level`, or the end. */
  function CloseAfter(lines: seq<string>, i: nat, level: nat): (j: nat)
    requires i <= |lines|
    ensures i <= j <= |lines|
    ensures forall k :: i <= k < j ==> !(IsHeading(lines[k]) && HashRun(lines[k]) <= level)
    ensures j < |lines| ==> IsHeading(lines[j]) && HashRun(lines[j]) <= level
    decreases |lines| - i
  {
    if i == |lines| || (IsHeading(lines[i]) && HashRun(lines[i]) <= level) then i
    else CloseAfter(lines, i + 1, level)
  }

  /** The blocks the extraction is meant to capture, from `lines[i..]` on: every heading a
      pattern finds, outside an earlier block, through to the next heading of the same or a
      higher level. */
  function Spans(lines: seq<string>, i: nat, patterns: seq<string>, search: Search): (r: seq<seq<string>>)
    requires i <= |lines|
    ensures forall b :: b in r ==> |b| >= 1 && IsHeading(b[0]) && Starts(patterns, search, b[0])
    ensures forall b :: b in r ==> forall k :: 1 <= k < |b| ==> !(IsHeading(b[k]) && HashRun(b[k]) <= HashRun(b[0]))
    decreases |lines| - i
  {
    if i == |lines| then []
    else if IsHeading(lines[i]) && Starts(patterns, search, lines[i]) then
      var j := CloseAfter(lines, i + 1, HashRun(lines[i]));
      var b := lines[i..j];
      assert forall k :: 1 <= k < |b| ==> b[k] == lines[i + k];
      [b] + Spans(lines, j, patterns, search)
    else Spans(lines, i + 1, patterns, search)
  }

  /** What the corrected loop captures from `lines[i..]` on, starting in state `c`: the open
      block, if any, runs to the next heading of its level or higher; then come the `Spans`. */
  function Expected(lines: seq<string>, i: nat, c: Capture, patterns: seq<string>, search: Search): seq<seq<string>>
    requires i <= |lines|
  {
    if c.capturing then
      var j := CloseAfter(lines, i, c.level);
      c.blocks + [c.current + lines[i..j]] + Spans(lines, j, patterns, search)
    else c.blocks + Spans(lines, i, patterns, search)
  }

  /** The loop, from any state in which a block is open exactly when it has lines, captures
      what `Expected` says. */
  lemma {:induction false} RunIsSpans(lines: seq<string>, i: nat, c: Capture, patterns: seq<string>, search: Search)
    requires i <= |lines|
    requires c.capturing <==> c.current != []
    ensures Flush(Run(lines, i, c, patterns, search, false)) == Expected(lines, i, c, patterns, search)
    decreases |lines| - i
  {
    if i == |lines| {
      assert c.current + lines[i..i] == c.current;
    } else {
      var line := lines[i];
      var d := StepWith(false, c, line, Starts(patterns, search, line));
      if c.capturing && !(IsHeading(line) && HashRun(line) <= c.level) {
        StepGrows(lines, i, c, patterns, search);
      } else if IsHeading(line) && Starts(patterns, search, line) {
        StepOpens(lines, i, c, patterns, search);
      } else {
        StepPasses(lines, i, c, patterns, search);
      }
      RunIsSpans(lines, i + 1, d, patterns, search);
    }
  }

  /** A line that does not close the open block joins it. */
  lemma StepGrows(lines: seq<string>, i: nat, c: Capture, patterns: seq<string>, search: Search)
    requires i < |lines| && c.capturing && c.current != []
    requires !(IsHeading(lines[i]) && HashRun(lines[i]) <= c.level)
    ensures var d := StepWith(false, c, lines[i], Starts(patterns, search, lines[i]));
      && d.capturing && d.current != []
      && Expected(lines, i + 1, d, patterns, search) == Expected(lines, i, c, patterns, search)
  {
    GrowBlock(lines, i, c.current, c.level);
  }

  /** A heading a pattern finds (closing the open block, if its level is that high) opens a
      block of its own. */
  lemma StepOpens(lines: seq<string>, i: nat, c: Capture, patterns: seq<string>, search: Search)
    requires i < |lines| && (c.capturing <==> c.current != [])
    requires IsHeading(lines[i]) && Starts(patterns, search, lines[i])
    requires c.capturing ==> HashRun(lines[i]) <= c.level
    ensures var d := StepWith(false, c, lines[i], Starts(patterns, search, lines[i]));
      && d.capturing && d.current != []
      && Expected(lines, i + 1, d, patterns, search) == Expected(lines, i, c, patterns, search)
  {
    if c.capturing {
      StepOpensClosing(lines, i, c, patterns, search);
    } else {
      StepOpensIdle(lines, i, c, patterns, search);
    }
  }

  lemma StepOpensIdle(lines: seq<string>, i: nat, c: Capture, patterns: seq<string>, search: Search)
    requires i < |lines| && !c.capturing && c.current == []
    requires IsHeading(lines[i]) && Starts(patterns, search, lines[i])
    ensures var d := StepWith(false, c, lines[i], Starts(patterns, search, lines[i]));
      Expected(lines, i + 1, d, patterns, search) == Expected(lines, i, c, patterns, search)
  {
    var line := lines[i];
    var j := CloseAfter(lines, i + 1, HashRun(line));
    var d := StepWith(false, c, line, true);
    assert d == Capture(c.blocks, true, HashRun(line), [line]);
    OpenBlock(lines, i, patterns, search);
    SeqAssoc(c.blocks, [[line] + lines[i + 1..j]], Spans(lines, j, patterns, search));
  }

  lemma StepOpensClosing(lines: seq<string>, i: nat, c: Capture, patterns: seq<string>, search: Search)
    requires i < |lines| && c.capturing
    requires IsHeading(lines[i]) && Starts(patterns, search, lines[i]) && HashRun(lines[i]) <= c.level
    ensures var d := StepWith(false, c, lines[i], Starts(patterns, search, lines[i]));
      Expected(lines, i + 1, d, patterns, search) == Expected(lines, i, c, patterns, search)
  {
    var line := lines[i];
    var j := CloseAfter(lines, i + 1, HashRun(line));
    var d := StepWith(false, c, line, true);
    assert d == Capture(c.blocks + [c.current], true, HashRun(line), [line]);
    assert CloseAfter(lines, i, c.level) == i;
    assert c.current + lines[i..i] == c.current;
    OpenBlock(lines, i, patterns, search);
    SeqAssoc(c.blocks + [c.current], [[line] + lines[i + 1..j]], Spans(lines, j, patterns, search));
    SeqAssoc(c.blocks, [c.current], Spans(lines, i, patterns, search));
  }

  lemma SeqAssoc<T>(a: seq<T>, b: seq<T>, c: seq<T>)
    ensures a + b + c == a + (b + c)
  {
  }

  /** Any other line leaves no block open that was not open, and changes no span. */
  lemma StepPasses(lines: seq<string>, i: nat, c: Capture, patterns: seq<string>, search: Search)
    requires i < |lines| && (c.capturing <==> c.current != [])
    requires !(IsHeading(lines[i]) && Starts(patterns, search, lines[i]))
    requires c.capturing ==> IsHeading(lines[i]) && HashRun(lines[i]) <= c.level
    ensures var d := StepWith(false, c, lines[i], Starts(patterns, search, lines[i]));
      && !d.capturing && d.current == []
      && Expected(lines, i + 1, d, patterns, search) == Expected(lines, i, c, patterns, search)
  {
    assert Spans(lines, i, patterns, search) == Spans(lines, i + 1, patterns, search);
    assert c.current + lines[i..i] == c.current;
  }

  /** A line that does not close the open block joins it. */
  lemma GrowBlock(lines: seq<string>, i: nat, current: seq<string>, level: nat)
    requires i < |lines| && !(IsHeading(lines[i]) && HashRun(lines[i]) <= level)
    ensures CloseAfter(lines, i + 1, level) == CloseAfter(lines, i, level)
    ensures (current + [lines[i]]) + lines[i + 1..CloseAfter(lines, i, level)]
      == current + lines[i..CloseAfter(lines, i, level)]
  {
  }

  /** A heading a pattern finds opens the first span. */
  lemma OpenBlock(lines: seq<string>, i: nat, patterns: seq<string>, search: Search)
    requires i < |lines| && IsHeading(lines[i]) && Starts(patterns, search, lines[i])
    ensures var j := CloseAfter(lines, i + 1, HashRun(lines[i]));
      Spans(lines, i, patterns, search) == [[lines[i]] + lines[i + 1..j]] + Spans(lines, j, patterns, search)
  {
    var j := CloseAfter(lines, i + 1, HashRun(lines[i]));
    assert [lines[i]] + lines[i + 1..j] == lines[i..j];
  }

  /** The corrected extraction captures exactly the `Spans` of the document. */
  lemma SectionBlocksAreSpans(lines: seq<string>, patterns: seq<string>, search: Search)
    ensures SectionBlocks(lines, patterns, search) == Spans(lines, 0, patterns, search)
  {
    RunIsSpans(lines, 0, Idle, patterns, search);
  }

  // ---------------------------------------------------------------------------
  // The subsection counterexample
  // ---------------------------------------------------------------------------

  const FlowsHeading := "## Flows"
  const DetailHeading := "### Detail"
  const FlowsDoc: seq<string> := [FlowsHeading, "intro", DetailHeading, "steps"]

  /** A search that finds only the top heading of `FlowsDoc`. */
  function FindsFlows(): Search {
    (p: string, h: string) => h == FlowsHeading
  }

  /** A search that finds both headings of `FlowsDoc`. */
  function FindsBoth(): Search {
    (p: string, h: string) => h == FlowsHeading || h == DetailHeading
  }

  lemma FlowsDocHeadings()
    ensures IsHeading(FlowsHeading) && HashRun(FlowsHeading) == 2
    ensures IsHeading(DetailHeading) && HashRun(DetailHeading) == 3
    ensures !IsHeading("intro") && !IsHeading("steps")
  {
    assert HashRun(FlowsHeading[2..]) == 0;
    assert HashRun(DetailHeading[3..]) == 0;
  }

  /** The loop over `FlowsDoc`, one step per line. */
  lemma RunFlowsDoc(ps: seq<string>, s: Search, asWritten: bool)
    ensures Run(FlowsDoc, 0, Idle, ps, s, asWritten)
      == StepWith(asWritten,
           StepWith(asWritten,
             StepWith(asWritten,
               StepWith(asWritten, Idle, FlowsHeading, Starts(ps, s, FlowsHeading)),
               "intro", Starts(ps, s, "intro")),
             DetailHeading, Starts(ps, s, DetailHeading)),
           "steps", Starts(ps, s, "steps"))
  {
    var c1 := StepWith(asWritten, Idle, FlowsHeading, Starts(ps, s, FlowsHeading));
    var c2 := StepWith(asWritten, c1, "intro", Starts(ps, s, "intro"));
    var c3 := StepWith(asWritten, c2, DetailHeading, Starts(ps, s, DetailHeading));
    var c4 := StepWith(asWritten, c3, "steps", Starts(ps, s, "steps"));
    assert Run(FlowsDoc, 4, c4, ps, s, asWritten) == c4;
    assert Run(FlowsDoc, 3, c3, ps, s, asWritten) == c4 by { assert FlowsDoc[3] == "steps"; }
    assert Run(FlowsDoc, 2, c2, ps, s, asWritten) == c4 by { assert FlowsDoc[2] == DetailHeading; }
    assert Run(FlowsDoc, 1, c1, ps, s, asWritten) == c4 by { assert FlowsDoc[1] == "intro"; }
    assert FlowsDoc[0] == FlowsHeading;
  }

  /** As written, a subsection heading that no pattern finds is dropped from its section. */
  lemma AsWrittenDropsSubheading()
    ensures SectionBlocksAsWritten(FlowsDoc, SectionPatterns("flows"), FindsFlows()) == [[FlowsHeading, "intro", "steps"]]
  {
    FlowsDocHeadings();
    var ps := SectionPatterns("flows");
    var s := FindsFlows();
    assert Starts(ps, s, FlowsHeading) by { assert s(ps[0], FlowsHeading); }
    assert !Starts(ps, s, DetailHeading);
    RunFlowsDoc(ps, s, true);
    var c1 := StepAsWritten(Idle, FlowsHeading, true);
    assert c1 == Capture([], true, 2, [FlowsHeading]);
    var c2 := StepAsWritten(c1, "intro", Starts(ps, s, "intro"));
    assert c2 == Capture([], true, 2, [FlowsHeading, "intro"]);
    var c3 := StepAsWritten(c2, DetailHeading, false);
    assert c3 == c2;
    var c4 := StepAsWritten(c3, "steps", Starts(ps, s, "steps"));
    assert c4 == Capture([], true, 2, [FlowsHeading, "intro", "steps"]);
  }

  /** As written, a subsection heading that a pattern finds restarts the capture and the
      section's opening lines are lost. */
  lemma AsWrittenRestartsAtSubheading()
    ensures SectionBlocksAsWritten(FlowsDoc, SectionPatterns("flows"), FindsBoth()) == [[DetailHeading, "steps"]]
  {
    FlowsDocHeadings();
    var ps := SectionPatterns("flows");
    var s := FindsBoth();
    assert Starts(ps, s, FlowsHeading) by { assert s(ps[0], FlowsHeading); }
    assert Starts(ps, s, DetailHeading) by { assert s(ps[0], DetailHeading); }
    RunFlowsDoc(ps, s, true);
    var c1 := StepAsWritten(Idle, FlowsHeading, true);
    var c2 := StepAsWritten(c1, "intro", Starts(ps, s, "intro"));
    assert c2 == Capture([], true, 2, [FlowsHeading, "intro"]);
    var c3 := StepAsWritten(c2, DetailHeading, true);
    assert c3 == Capture([], true, 3, [DetailHeading]);
    var c4 := StepAsWritten(c3, "steps", Starts(ps, s, "steps"));
    assert c4 == Capture([], true, 3, [DetailHeading, "steps"]);
  }

  /** Corrected, the whole section is one block, subsection and all, for either search. */
  lemma SectionKeepsSubheading()
    ensures SectionBlocks(FlowsDoc, SectionPatterns("flows"), FindsFlows()) == [FlowsDoc]
    ensures SectionBlocks(FlowsDoc, SectionPatterns("flows"), FindsBoth()) == [FlowsDoc]
  {
    FlowsDocHeadings();
    var ps := SectionPatterns("flows");
    assert Starts(ps, FindsFlows(), FlowsHeading) by { assert FindsFlows()(ps[0], FlowsHeading); }
    assert Starts(ps, FindsBoth(), FlowsHeading) by { assert FindsBoth()(ps[0], FlowsHeading); }
    Kept(ps, FindsFlows());
    Kept(ps, FindsBoth());
  }

  lemma Kept(ps: seq<string>, s: Search)
    requires IsHeading(FlowsHeading) && HashRun(FlowsHeading) == 2
    requires IsHeading(DetailHeading) && HashRun(DetailHeading) == 3
    requires !IsHeading("intro") && !IsHeading("steps")
    requires Starts(ps, s, FlowsHeading)
    ensures SectionBlocks(FlowsDoc, ps, s) == [FlowsDoc]
  {
    RunFlowsDoc(ps, s, false);
    var c1 := Step(Idle, FlowsHeading, true);
    assert c1 == Capture([], true, 2, [FlowsHeading]);
    var c2 := Step(c1, "intro", Starts(ps, s, "intro"));
    assert c2 == Capture([], true, 2, [FlowsHeading, "intro"]);
    var c3 := Step(c2, DetailHeading, Starts(ps, s, DetailHeading));
    assert c3 == Capture([], true, 2, [FlowsHeading, "intro", DetailHeading]);
    var c4 := Step(c3, "steps", Starts(ps, s, "steps"));
    assert c4 == Capture([], true, 2, FlowsDoc);
  }

  // ---------------------------------------------------------------------------
  // Category index
  // ---------------------------------------------------------------------------

  /** `re.match(r"^#{2,3}\s+[A-M]\.\s+", line)` */
  predicate IsCategoryHeading(line: string) {
    var h := HashRun(line);
    var s := GateCards.SpaceEnd(line, h);
    (h == 2 || h == 3) && h < s && s + 2 < |line|
      && 'A' <= line[s] <= 'M' && line[s + 1] == '.' && IsSpace(line[s + 2])
  }

  /** `re.match(r"^\*\*\w+", line)` */
  predicate BoldVerb(line: string) {
    |line| >= 3 && line[0] == '*' && line[1] == '*' && GateCards.IsWordChar(line[2])
  }

  /** `re.match(r"^\d+\.\s+\*\*", line)` */
  predicate NumberedVerb(line: string) {
    var d := |LeadingDigits(line)|;
    0 < d < |line| && line[d] == '.'
      && var s := GateCards.SpaceEnd(line, d + 1);
         d + 1 < s && s + 1 < |line| && line[s] == '*' && line[s + 1] == '*'
  }

  /** re.match(r"^[-*]\s+`\w+", line) */
  predicate BulletVerb(line: string) {
    |line| >= 2 && (line[0] == '-' || line[0] == '*')
      && var s := GateCards.SpaceEnd(line, 1);
         1 < s && s + 1 < |line| && line[s] == '`' && GateCards.IsWordChar(line[s + 1])
  }

  /** What one line inside a category adds to its verb count. */
  function VerbMarks(line: string): nat {
    (if BoldVerb(line) || NumberedVerb(line) then 1 else 0) + (if BulletVerb(line) then 1 else 0)
  }

  function VerbCountLine(n: nat): string {
    "  (" + IntToString(n) + " verbs)"
  }

  /** The count line a category ends with, if it counted any verbs. */
  function Tally(inCategory: bool, count: nat): seq<string> {
    if inCategory && count > 0 then [VerbCountLine(count)] else []
  }

  /** `_extract_category_index` over `lines[i..]`, from the given loop state. */
  function CategoryFrom(lines: seq<string>, i: nat, inCategory: bool, count: nat): (r: seq<string>)
    requires i <= |lines|
    ensures forall k :: 0 <= k < |r| ==> IsCategoryHeading(r[k]) || exists n: nat :: n > 0 && r[k] == VerbCountLine(n)
    decreases |lines| - i
  {
    if i == |lines| then Tally(inCategory, count)
    else if IsCategoryHeading(lines[i]) then Tally(inCategory, count) + [lines[i]] + CategoryFrom(lines, i + 1, true, 0)
    else if inCategory then CategoryFrom(lines, i + 1, true, count + VerbMarks(lines[i]))
    else CategoryFrom(lines, i + 1, false, count)
  }

  function CategoryIndex(lines: seq<string>): seq<string> {
    CategoryFrom(lines, 0, false, 0)
  }

  /** A count line is not a category heading. */
  lemma TallyNoHeadings(inCategory: bool, count: nat)
    ensures Filter(IsCategoryHeading, Tally(inCategory, count)) == []
  {
    if inCategory && count > 0 {
      var t := VerbCountLine(count);
      assert t[0] == ' ';
      assert HashRun(t) == 0;
      assert Filter(IsCategoryHeading, [t]) == [] by {
        assert Filter(IsCategoryHeading, [t][1..]) == [];
      }
    }
  }

  /** `Filter` of a sequence with a known first element. */
  lemma FilterCons<T>(p: T -> bool, x: T, xs: seq<T>)
    ensures Filter(p, [x] + xs) == (if p(x) then [x] else []) + Filter(p, xs)
  {
    assert ([x] + xs)[1..] == xs;
  }

  /** The index lists the document's category headings, all of them and in order; every
      other line of it is a positive verb count. */
  lemma {:induction false} CategoryHeadingsKept(lines: seq<string>, i: nat, inCategory: bool, count: nat)
    requires i <= |lines|
    ensures Filter(IsCategoryHeading, CategoryFrom(lines, i, inCategory, count)) == Filter(IsCategoryHeading, lines[i..])
    decreases |lines| - i
  {
    if i == |lines| {
      TallyNoHeadings(inCategory, count);
    } else if IsCategoryHeading(lines[i]) {
      CategoryHeadingsKept(lines, i + 1, true, 0);
      HeadingLine(lines, i, inCategory, count);
    } else {
      var inner := inCategory;
      var next := if inCategory then count + VerbMarks(lines[i]) else count;
      CategoryHeadingsKept(lines, i + 1, inner, next);
      OtherLine(lines, i, inCategory, count);
    }
  }

  /** The first line of `lines[i..]` and the rest, under `Filter`. */
  lemma FilterFrom(lines: seq<string>, i: nat)
    requires i < |lines|
    ensures Filter(IsCategoryHeading, lines[i..])
      == (if IsCategoryHeading(lines[i]) then [lines[i]] else []) + Filter(IsCategoryHeading, lines[i + 1..])
  {
    assert lines[i..] == [lines[i]] + lines[i + 1..];
    FilterCons(IsCategoryHeading, lines[i], lines[i + 1..]);
  }

  lemma HeadingLine(lines: seq<string>, i: nat, inCategory: bool, count: nat)
    requires i < |lines| && IsCategoryHeading(lines[i])
    requires Filter(IsCategoryHeading, CategoryFrom(lines, i + 1, true, 0)) == Filter(IsCategoryHeading, lines[i + 1..])
    ensures Filter(IsCategoryHeading, CategoryFrom(lines, i, inCategory, count)) == Filter(IsCategoryHeading, lines[i..])
  {
    FilterFrom(lines, i);
    TallyNoHeadings(inCategory, count);
    HeadingKept(Tally(inCategory, count), lines[i], CategoryFrom(lines, i + 1, true, 0));
  }

  lemma OtherLine(lines: seq<string>, i: nat, inCategory: bool, count: nat)
    requires i < |lines| && !IsCategoryHeading(lines[i])
    requires var next := if inCategory then count + VerbMarks(lines[i]) else count;
      Filter(IsCategoryHeading, CategoryFrom(lines, i + 1, inCategory, next)) == Filter(IsCategoryHeading, lines[i + 1..])
    ensures Filter(IsCategoryHeading, CategoryFrom(lines, i, inCategory, count)) == Filter(IsCategoryHeading, lines[i..])
  {
    FilterFrom(lines, i);
  }

  lemma HeadingKept(t: seq<string>, line: string, rest: seq<string>)
    requires Filter(IsCategoryHeading, t) == [] && IsCategoryHeading(line)
    ensures Filter(IsCategoryHeading, t + [line] + rest) == [line] + Filter(IsCategoryHeading, rest)
  {
    FilterConcat(IsCategoryHeading, t, [line] + rest);
    assert t + [line] + rest == t + ([line] + rest);
    FilterCons(IsCategoryHeading, line, rest);
  }

  // ---------------------------------------------------------------------------
  // _extract_section
  // ---------------------------------------------------------------------------

  /** A block as text, and the blocks separated by blank lines. */
  function JoinBlocks(blocks: seq<seq<string>>): string {
    Join(GateCards.Map((b: seq<string>) => Join(b, "\n"), blocks), "\n\n")
  }

  /** `_extract_section` over the document's lines, with the capture loop as written or as meant. */
  function ExtractLines(lines: seq<string>, key: string, search: Search, asWritten: bool): (r: string)
    ensures SectionPatterns(key) == [] ==> r == ""
  {
    var patterns := SectionPatterns(key);
    if patterns == [] then ""
    else if key == PrinciplesKey then Join(Filter(IsHeading, lines), "\n")
    else if key == CategoryIndexKey then Join(CategoryIndex(lines), "\n")
    else if asWritten then JoinBlocks(SectionBlocksAsWritten(lines, patterns, search))
    else JoinBlocks(SectionBlocks(lines, patterns, search))
  }

  function ExtractSectionAsWritten(text: string, key: string, search: Search): (r: string)
    ensures SectionPatterns(key) == [] ==> r == ""
  {
    ExtractLines(SplitLines(text), key, search, true)
  }

  /** `_extract_section(text, key)` with subsections kept inside their section. */
  function ExtractSection(text: string, key: string, search: Search): (r: string)
    ensures SectionPatterns(key) == [] ==> r == ""
  {
    ExtractLines(SplitLines(text), key, search, false)
  }

  /** For every key other than the two special ones, the extraction is the document's `Spans`
      separated by blank lines. */
  lemma ExtractSectionIsSpans(text: string, key: string, search: Search)
    requires SectionPatterns(key) != [] && key != PrinciplesKey && key != CategoryIndexKey
    ensures ExtractSection(text, key, search)
      == JoinBlocks(Spans(SplitLines(text), 0, SectionPatterns(key), search))
  {
    SectionBlocksAreSpans(SplitLines(text), SectionPatterns(key), search);
  }

  /** The principles summary, read back line by line, is exactly the document's heading lines
      in order. */
  lemma PrinciplesAreHeadingLines(text: string, search: Search)
    ensures SplitLines(ExtractSection(text, PrinciplesKey, search)) == Filter(IsHeading, SplitLines(text))
  {
    var lines := SplitLines(text);
    var hs := Filter(IsHeading, lines);
    assert SectionPatterns(PrinciplesKey) != [];
    if hs != [] {
      assert forall k :: 0 <= k < |hs| ==> '\n' !in hs[k] by {
        forall k | 0 <= k < |hs|
          ensures '\n' !in hs[k]
        {
          assert hs[k] in lines;
        }
      }
      assert IsHeading(hs[|hs| - 1]);
      SplitLinesOfJoin(hs);
    }
  }

  /** The category index of a document keeps its category headings, all and in order. */
  lemma CategoryIndexHeadings(text: string, search: Search)
    ensures SplitLines(ExtractSection(text, CategoryIndexKey, search)) == SplitLines(Join(CategoryIndex(SplitLines(text)), "\n"))
    ensures Filter(IsCategoryHeading, CategoryIndex(SplitLines(text))) == Filter(IsCategoryHeading, SplitLines(text))
  {
    var lines := SplitLines(text);
    assert SectionPatterns(CategoryIndexKey) != [];
    CategoryHeadingsKept(lines, 0, false, 0);
    assert lines[0..] == lines;
  }

  // ---------------------------------------------------------------------------
  // Context budget tables
  // ---------------------------------------------------------------------------

  /** A table row: a whole document, or the section of one under a key. */
  datatype DocRef = Whole(num: int) | Part(num: int, key: string)

  /** `ARCHITECT_PHASE_CONTEXT.get(phase, [])` */
  function PhaseDocs(phase: string): seq<DocRef> {
    if phase == "vision_intake" then [Part(1, PrinciplesKey)]
    else if phase == "system_design" then [Whole(1), Part(5, "decision_generation_pipeline")]
    else if phase == "detailed_design" then [Whole(3), Whole(4), Whole(5)]
    else if phase == "build_decomposition" then [Part(3, CategoryIndexKey)]
    else if phase == "build_supervision" then [Part(3, "relevant_categories"), Part(4, "validation_pipeline")]
    else if phase == "validation" then [Whole(5), Part(4, "determinism_guarantee")]
    else []
  }

  /** `BUILDER_TASK_CONTEXT.get(task_type, [])` */
  function TaskDocs(taskType: string): seq<DocRef> {
    if taskType == "state_schema" then [Part(2, "state_model")]
    else if taskType == "flow" then [Part(2, "flows"), Part(3, "categories_a_c_d")]
    else if taskType == "constraint" then [Part(2, "constraints"), Part(4, "constraint_supremacy")]
    else if taskType == "failure_recovery" then [Part(2, "failure_recovery"), Part(3, "categories_e_f_l")]
    else if taskType == "dependency_cascade" then [Part(2, "dependencies"), Part(3, "categories_c_g")]
    else if taskType == "ux_layer" then [Whole(5), Part(4, "ux_display")]
    else []
  }

  /** Every phase has a table row, and no other string does. */
  lemma PhaseDocsIff(phase: string)
    ensures PhaseDocs(phase) != [] <==> PhaseFromValue(phase).Some?
  {
  }

  /** Only the general task type and unknown types have no table row. */
  lemma TaskDocsIff(taskType: string)
    ensures TaskDocs(taskType) == [] <==> taskType == GENERAL || taskType !in TaskTypes
  {
  }

  /** Every section key the phase table names has patterns, so no row falls back to the
      whole document for want of them. */
  lemma PhaseKeysHavePatterns(phase: string)
    ensures forall k :: 0 <= k < |PhaseDocs(phase)| && PhaseDocs(phase)[k].Part? ==> SectionPatterns(PhaseDocs(phase)[k].key) != []
  {
  }

  /** Every section key the task table names has patterns. */
  lemma TaskKeysHavePatterns(taskType: string)
    ensures forall k :: 0 <= k < |TaskDocs(taskType)| && TaskDocs(taskType)[k].Part? ==> SectionPatterns(TaskDocs(taskType)[k].key) != []
  {
  }

  // ---------------------------------------------------------------------------
  // Context assembly
  // ---------------------------------------------------------------------------

  /** `f"{n:02d}"` */
  function Pad2(n: int): string {
    if 0 <= n < 10 then "0" + IntToString(n) else IntToString(n)
  }

  function RefHeader(ref: DocRef): string {
    match ref
    case Whole(n) => "\n--- Doc " + Pad2(n) + " (Full) ---\n"
    case Part(n, key) => "\n--- Doc " + Pad2(n) + " §" + key + " ---\n"
  }

  /** A loaded document's text for one table row: whole, or its section. */
  function RefBody(docs: Docs, ref: DocRef, search: Search, asWritten: bool): string
    requires ref.num in docs
  {
    match ref
    case Whole(n) => docs[n]
    case Part(n, key) => GetDocSection(docs, n, key, search, asWritten).value
  }

  /** Rows whose document is loaded. */
  function Loaded(docs: Docs, refs: seq<DocRef>): seq<DocRef> {
    Filter((ref: DocRef) => ref.num in docs, refs)
  }

  /** The parts of the table rows: a header and a body for each loaded document, nothing for
      a document that is not loaded. */
  function TableParts(docs: Docs, refs: seq<DocRef>, search: Search, asWritten: bool): (r: seq<string>)
    ensures |r| == 2 * |Loaded(docs, refs)|
    decreases |refs|
  {
    if refs == [] then []
    else
      var rest := TableParts(docs, refs[1..], search, asWritten);
      if refs[0].num in docs then [RefHeader(refs[0]), RefBody(docs, refs[0], search, asWritten)] + rest
      else rest
  }

  /** Rows of documents that are not loaded are skipped: the parts are those of the loaded
      rows alone. */
  lemma {:induction false} TableSkipsUnloaded(docs: Docs, refs: seq<DocRef>, search: Search, asWritten: bool)
    ensures TableParts(docs, refs, search, asWritten) == TableParts(docs, Loaded(docs, refs), search, asWritten)
    decreases |refs|
  {
    if refs != [] {
      TableSkipsUnloaded(docs, refs[1..], search, asWritten);
      var l := Loaded(docs, refs[1..]);
      if refs[0].num in docs {
        assert Loaded(docs, refs) == [refs[0]] + l;
        assert ([refs[0]] + l)[1..] == l;
      } else {
        assert Loaded(docs, refs) == l;
      }
    }
  }

  /** A context section: its header and the table's parts, or nothing for an empty table,
      whatever is loaded. */
  function ContextSection(docs: Docs, refs: seq<DocRef>, header: string, search: Search, asWritten: bool): (r: seq<string>)
    ensures r == [] <==> refs == []
    ensures refs != [] ==> r[0] == header && |r| == 1 + 2 * |Loaded(docs, refs)|
  {
    if refs == [] then [] else [header] + TableParts(docs, refs, search, asWritten)
  }

  const ArchitectTitle := "CONSTITUTIONAL CONTEXT — ARCHITECT ROLE"
  const BuilderTitle := "CONSTITUTIONAL CONTEXT — BUILDER ROLE"
  const Doc07Header := "\n--- Doc 07: AI Architect Constitution ---\n"
  const VisionHeader := "\n--- Vision Contract (This Project) ---\n"
  const TemplateHeader := "\n--- Architecture Template (Current) ---\n"
  const JournalHeader := "\n--- Architect's Journal (Recent) ---\n"
  const StatusHeader := "\n--- Project Status ---\n"
  const PhaseHeader := "\n--- Phase-Specific Context ---\n"
  const PreambleHeader := "\n--- Doc 00: Session Preamble ---\n"
  const ContractHeader := "\n--- Builder Task Contract ---\n"
  const TaskHeader := "\n--- Task-Specific Context ---\n"

  /** A title between two rules of sixty '='. */
  function Banner(title: string): seq<string> {
    [Journal.Bar(60), title, Journal.Bar(60)]
  }

  /** Each recent journal entry followed by an empty part. */
  function EntryParts(es: seq<string>): (r: seq<string>)
    ensures |r| == 2 * |es|
    ensures forall k :: 0 <= k < |es| ==> r[2 * k] == es[k] && r[2 * k + 1] == ""
  {
    seq(2 * |es|, i requires 0 <= i < 2 * |es| => if i % 2 == 0 then es[i / 2] else "")
  }

  /** The journal parts: nothing without entries, else the header and the last three entries. */
  function JournalParts(entries: seq<string>): (r: seq<string>)
    ensures r == [] <==> entries == []
    ensures entries != [] ==> r[0] == JournalHeader && |r| == 1 + 2 * (if |entries| < 3 then |entries| else 3)
  {
    if entries == [] then [] else [JournalHeader] + EntryParts(Journal.PySliceFrom(entries, -3))
  }

  /** Only the last three entries reach the context: older ones change nothing. */
  lemma JournalRecentOnly(older: seq<string>, recent: seq<string>)
    requires |recent| >= 3
    ensures JournalParts(older + recent) == JournalParts(recent)
  {
    var all := older + recent;
    assert all[|all| - 3..] == recent[|recent| - 3..];
  }

  /** The vision: its markdown, or its JSON form when the markdown is empty. */
  function VisionPart(p: Project.Project, visionJson: string): string {
    if p.vision.rawMarkdown != "" then p.vision.rawMarkdown else visionJson
  }

  /** The project's own architecture template, else doc 02 when loaded, else nothing. */
  function TemplateParts(docs: Docs, p: Project.Project): (r: seq<string>)
    ensures p.architectureTemplate != "" ==> r == [p.architectureTemplate]
    ensures p.architectureTemplate == "" ==> (r == [] <==> 2 !in docs)
    ensures p.architectureTemplate == "" && 2 in docs ==> r == [docs[2]]
  {
    if p.architectureTemplate != "" then [p.architectureTemplate]
    else if 2 in docs then [docs[2]]
    else []
  }

  /** The first eight parts: the banner, doc 07 in full, the vision, and the template header. */
  function ArchitectHead(doc07: string, vision: string): (r: seq<string>)
    ensures |r| == 8 && r[4] == doc07 && r[6] == vision
  {
    Banner(ArchitectTitle) + [Doc07Header, doc07, VisionHeader, vision, TemplateHeader]
  }

  /** The parts after the template header: template, journal, status, phase section. */
  function ArchitectTail(docs: Docs, p: Project.Project, entries: seq<string>, status: string, search: Search, asWritten: bool)
    : seq<string>
  {
    TemplateParts(docs, p) + JournalParts(entries) + [StatusHeader, status]
      + ContextSection(docs, PhaseDocs(p.currentPhase), PhaseHeader, search, asWritten)
  }

  /** The status block: `status_summary()` as written, which fails while any task is active, or
      the corrected summary. */
  function StatusPart(p: Project.Project, asWritten: bool): (r: Result<string, string>)
    ensures r.Failure? <==> asWritten && p.activeTasks != []
  {
    if asWritten then Project.StatusSummaryAsWritten(p) else Success(Project.StatusSummary(p))
  }

  /** Whenever the status block is produced, as written or corrected, it is the corrected
      summary. */
  lemma StatusPartIsSummary(p: Project.Project, asWritten: bool)
    requires StatusPart(p, asWritten).Success?
    ensures StatusPart(p, asWritten).value == Project.StatusSummary(p)
  {
    if asWritten {
      Project.StatusSummaryAgrees(p);
    }
  }

  /** Why an architect context cannot be built: a required document is missing, or the status
      summary raised. */
  datatype ContextError = DocMissing(doc: DocError) | StatusFailed(message: string)

  /** `build_architect_context(project, journal_entries)` as parts; `visionJson` stands for
      the vision contract's JSON form. Doc 07 is required, and the status block must not fail;
      `get_doc(7)` comes first, so a missing doc 07 is the error reported. */
  function ArchitectParts(docs: Docs, p: Project.Project, entries: seq<string>, visionJson: string, search: Search, asWritten: bool)
    : (r: Result<seq<string>, ContextError>)
    ensures r.Success? <==> 7 in docs && !(asWritten && p.activeTasks != [])
    ensures 7 !in docs ==> r == Failure(DocMissing(DocNotLoaded(7, docs.Keys)))
    ensures 7 in docs && asWritten && p.activeTasks != [] ==> r.Failure? && r.error.StatusFailed?
  {
    match GetDoc(docs, 7)
    case Failure(e) => Failure(DocMissing(e))
    case Success(doc07) =>
      match StatusPart(p, asWritten)
      case Failure(msg) => Failure(StatusFailed(msg))
      case Success(status) =>
        var head := ArchitectHead(doc07, VisionPart(p, visionJson));
        Success(head + ArchitectTail(docs, p, entries, status, search, asWritten))
  }

  /** A built architect context carries doc 07 in full and then the vision in fixed places, and
      the corrected status summary after them. */
  lemma ArchitectPartsShape(docs: Docs, p: Project.Project, entries: seq<string>, visionJson: string, search: Search, asWritten: bool)
    requires ArchitectParts(docs, p, entries, visionJson, search, asWritten).Success?
    ensures var parts := ArchitectParts(docs, p, entries, visionJson, search, asWritten).value;
      |parts| >= 8 && parts[4] == docs[7] && parts[6] == VisionPart(p, visionJson)
      && Project.StatusSummary(p) in parts[8..]
  {
    var status := StatusPart(p, asWritten).value;
    StatusPartIsSummary(p, asWritten);
    StatusInTail(docs, p, entries, status, search, asWritten);
    var head := ArchitectHead(docs[7], VisionPart(p, visionJson));
    var tail := ArchitectTail(docs, p, entries, status, search, asWritten);
    assert ArchitectParts(docs, p, entries, visionJson, search, asWritten).value == head + tail;
    assert (head + tail)[8..] == tail;
  }

  /** The status block sits in the tail of the context. */
  lemma StatusInTail(docs: Docs, p: Project.Project, entries: seq<string>, status: string, search: Search, asWritten: bool)
    ensures status in ArchitectTail(docs, p, entries, status, search, asWritten)
  {
    var pre := TemplateParts(docs, p) + JournalParts(entries);
    assert ArchitectTail(docs, p, entries, status, search, asWritten)[|pre| + 1] == status;
  }

  /** `build_architect_context`: the parts joined by newlines. */
  function BuildArchitectContext(docs: Docs, p: Project.Project, entries: seq<string>, visionJson: string, search: Search, asWritten: bool)
    : (r: Result<string, ContextError>)
    ensures r.Success? <==> 7 in docs && !(asWritten && p.activeTasks != [])
    ensures 7 !in docs ==> r == Failure(DocMissing(DocNotLoaded(7, docs.Keys)))
    ensures 7 in docs && asWritten && p.activeTasks != [] ==> r.Failure? && r.error.StatusFailed?
  {
    var parts :- ArchitectParts(docs, p, entries, visionJson, search, asWritten);
    Success(Join(parts, "\n"))
  }

  /** As written, the architect context cannot be built for a project with a task in progress. */
  lemma ArchitectFailsWhileActive(docs: Docs, p: Project.Project, entries: seq<string>, visionJson: string, search: Search)
    requires 7 in docs && p.activeTasks != []
    ensures BuildArchitectContext(docs, p, entries, visionJson, search, true).Failure?
    ensures BuildArchitectContext(docs, p, entries, visionJson, search, false).Success?
  {
  }

  /** The architect context depends only on the last three journal entries. */
  lemma ArchitectRecentOnly(docs: Docs, p: Project.Project, older: seq<string>, recent: seq<string>, visionJson: string, search: Search, asWritten: bool)
    requires |recent| >= 3
    ensures BuildArchitectContext(docs, p, older + recent, visionJson, search, asWritten)
      == BuildArchitectContext(docs, p, recent, visionJson, search, asWritten)
  {
    JournalRecentOnly(older, recent);
  }

  /** The phase-specific section: present for every phase and for no other phase string;
      its parts are those of the phase's loaded documents. */
  lemma ArchitectPhaseSection(docs: Docs, phase: string, search: Search, asWritten: bool)
    ensures ContextSection(docs, PhaseDocs(phase), PhaseHeader, search, asWritten) != [] <==> PhaseFromValue(phase).Some?
    ensures PhaseDocs(phase) != [] ==>
      ContextSection(docs, PhaseDocs(phase), PhaseHeader, search, asWritten)
        == [PhaseHeader] + TableParts(docs, Loaded(docs, PhaseDocs(phase)), search, asWritten)
  {
    PhaseDocsIff(phase);
    TableSkipsUnloaded(docs, PhaseDocs(phase), search, asWritten);
  }

  /** The parts every builder context has: banner, preamble (when doc 00 is loaded), and the
      task contract. */
  function BuilderBase(docs: Docs, contract: string): (r: seq<string>)
    ensures |r| == (if 0 in docs then 7 else 6)
    ensures r[1] == BuilderTitle && r[|r| - 1] == contract
    ensures 0 in docs ==> r[4] == docs[0]
  {
    Banner(BuilderTitle) + [PreambleHeader] + (if 0 in docs then [docs[0]] else []) + [ContractHeader, contract]
  }

  /** `build_builder_context(task)` as parts, for the task's contract text and table row. */
  function BuilderWith(docs: Docs, contract: string, refs: seq<DocRef>, search: Search, asWritten: bool): (r: seq<string>)
    ensures var base := if 0 in docs then 7 else 6;
      && |r| == base + (if refs == [] then 0 else 1 + 2 * |Loaded(docs, refs)|)
      && r[1] == BuilderTitle && r[base - 1] == contract
      && (0 in docs ==> r[4] == docs[0])
      && (refs != [] ==> r[base] == TaskHeader)
  {
    BuilderBase(docs, contract) + ContextSection(docs, refs, TaskHeader, search, asWritten)
  }

  /** `build_builder_context(task)` */
  function BuildBuilderContext(docs: Docs, t: Task, search: Search, asWritten: bool): string {
    Join(BuilderWith(docs, FormatTaskContract(t), TaskDocs(t.taskType), search, asWritten), "\n")
  }

  /** General and unknown task types get no task-specific section; the others get one whose
      parts are those of the loaded documents alone. */
  lemma BuilderTaskSection(docs: Docs, contract: string, taskType: string, search: Search, asWritten: bool)
    ensures TaskDocs(taskType) == [] <==> taskType == GENERAL || taskType !in TaskTypes
    ensures TaskDocs(taskType) == [] ==> |BuilderWith(docs, contract, TaskDocs(taskType), search, asWritten)| == if 0 in docs then 7 else 6
    ensures TaskDocs(taskType) != [] ==>
      ContextSection(docs, TaskDocs(taskType), TaskHeader, search, asWritten)
        == [TaskHeader] + TableParts(docs, Loaded(docs, TaskDocs(taskType)), search, asWritten)
  {
    TaskDocsIff(taskType);
    TableSkipsUnloaded(docs, TaskDocs(taskType), search, asWritten);
  }

  // ---------------------------------------------------------------------------
  // Task contract
  // ---------------------------------------------------------------------------

  /** One line per item, each behind the prefix. */
  function Items(prefix: string, xs: seq<string>): (r: seq<string>)
    ensures |r| == |xs| && forall k :: 0 <= k < |xs| ==> r[k] == prefix + xs[k]
  {
    seq(|xs|, k requires 0 <= k < |xs| => prefix + xs[k])
  }

  /** The number of list items a contract shows. */
  function ItemCount(t: Task): nat {
    |t.inputs| + |t.scopeMustBuild| + |t.scopeMustNotTouch| + |t.rulesToImplement| + |t.constraintsToEnforce|
      + |t.verbsUsed| + |t.interfacesReceives| + |t.interfacesProduces| + |t.testCriteria|
  }

  /** The header lines and the inputs. */
  function ContractFront(t: Task): (r: seq<string>)
    ensures |r| == 11 + |t.inputs|
    ensures r[0] == "BUILDER TASK CONTRACT" && r[2] == "Task ID:            " + t.taskId
    ensures r[10] == "Inputs:" && forall k :: 0 <= k < |t.inputs| ==> r[11 + k] == "  - " + t.inputs[k]
  {
    var head := ["BUILDER TASK CONTRACT", "=====================",
     "Task ID:            " + t.taskId,
     "Task Name:          " + t.taskName,
     "Build Tier:         " + IntToString(t.buildTier),
     "Subsystem:          " + t.subsystem,
     "", "Objective:", "  " + t.objective, "", "Inputs:"];
    head + Items("  - ", t.inputs)
  }

  /** Scope, schema, rules, constraints and verbs. */
  function ContractScope(t: Task): (r: seq<string>)
    ensures |r| == 13 + |t.scopeMustBuild| + |t.scopeMustNotTouch| + |t.rulesToImplement| + |t.constraintsToEnforce| + |t.verbsUsed|
  {
    ["", "Scope — MUST Build:"] + Items("  - ", t.scopeMustBuild)
      + ["", "Scope — MUST NOT Touch:"] + Items("  - ", t.scopeMustNotTouch)
      + ["", "Schema to Implement:", "  " + t.schemaToImplement, ""]
      + ["Rules to Implement:"] + Items("  - ", t.rulesToImplement)
      + ["", "Constraints to Enforce:"] + Items("  - ", t.constraintsToEnforce)
      + ["", "Verbs Used:"] + Items("  - ", t.verbsUsed)
  }

  function ContractInterfaces(t: Task): (r: seq<string>)
    ensures |r| == 4 + |t.interfacesReceives| + |t.interfacesProduces|
  {
    ["", "Interfaces:", "  Receives:"] + Items("    - ", t.interfacesReceives)
      + ["  Produces:"] + Items("    - ", t.interfacesProduces)
  }

  /** The test criteria as unchecked boxes, and the manifest request. */
  function ContractBack(t: Task): (r: seq<string>)
    ensures |r| == 5 + |t.testCriteria|
    ensures r[1] == "Test Criteria:" && forall k :: 0 <= k < |t.testCriteria| ==> r[2 + k] == "  - [ ] " + t.testCriteria[k]
  {
    ["", "Test Criteria:"] + Items("  - [ ] ", t.testCriteria)
      + ["", "Output Manifest Required:", ManifestRequest]
  }

  const ManifestRequest := "  Produce a builder_output.json manifest per the Builder Output Manifest spec."

  /** The lines of `_format_task_contract(task)`: 33 fixed lines and one per list item. */
  function ContractLines(t: Task): (r: seq<string>)
    ensures |r| == 33 + ItemCount(t)
  {
    Assemble(ContractFront(t), ContractScope(t) + ContractInterfaces(t), ContractBack(t))
  }

  /** The contract opens with its title and the task id, and lists the inputs right after
      "Inputs:". */
  lemma ContractLinesFront(t: Task)
    ensures var r := ContractLines(t);
      && r[0] == "BUILDER TASK CONTRACT" && r[2] == "Task ID:            " + t.taskId
      && r[10] == "Inputs:" && forall k :: 0 <= k < |t.inputs| ==> r[11 + k] == "  - " + t.inputs[k]
  {
    var front := ContractFront(t);
    assert forall k :: 0 <= k < |front| ==> ContractLines(t)[k] == front[k];
  }

  /** The contract lists the test criteria as unchecked boxes right after "Test Criteria:",
      three lines before its end. */
  lemma ContractLinesBack(t: Task)
    ensures var r := ContractLines(t); var n := |r| - 3 - |t.testCriteria|;
      r[n - 1] == "Test Criteria:" && forall k :: 0 <= k < |t.testCriteria| ==> r[n + k] == "  - [ ] " + t.testCriteria[k]
  {
    var back := ContractBack(t);
    var r := ContractLines(t);
    assert forall k :: 0 <= k < |back| ==> r[|r| - |back| + k] == back[k];
  }

  /** Three parts in a row: the result starts with the first and ends with the last. */
  function Assemble<T>(front: seq<T>, mid: seq<T>, back: seq<T>): (r: seq<T>)
    ensures |r| == |front| + |mid| + |back|
    ensures forall k :: 0 <= k < |front| ==> r[k] == front[k]
    ensures forall k :: 0 <= k < |back| ==> r[|front| + |mid| + k] == back[k]
  {
    front + mid + back
  }

  /** `_format_task_contract(task)` */
  function FormatTaskContract(t: Task): string {
    Join(ContractLines(t), "\n")
  }

  // ---------------------------------------------------------------------------
  // Validation stubs
  // ---------------------------------------------------------------------------

  datatype Validity = Validity(valid: bool, violations: seq<string>)

  /** `validate_architect_output`: a stub that accepts everything. */
  function ValidateArchitectOutput(output: string, p: Project.Project): (r: Validity)
    ensures r.valid && r.violations == []
  {
    Validity(true, [])
  }

  /** `validate_builder_output`: a stub that accepts everything. */
  function ValidateBuilderOutput(output: string, t: Task): (r: Validity)
    ensures r.valid && r.violations == []
  {
    Validity(true, [])
  }
}
