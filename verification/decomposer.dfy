/** Task decomposition: the parsing of `TASK [N]: "name"` blocks into task contracts, the
    rewriting of dependency numbers into position placeholders and then into task ids, the
    leveling that orders the tasks and gives them parallel groups, provider assignment and the
    integer part of the cost estimate. The regex field extractors are parameters. */
module Decomposer {
  import opened Wrappers
  import opened Text
  import opened Values
  import opened Models
  import opened Kahn

  // ---------------------------------------------------------------------------
  // Task headers and blocks
  // ---------------------------------------------------------------------------

  const OpenQuotes: set<char> := {'"', '\U{201C}'}
  const CloseQuotes: set<char> := {'"', '\U{201D}'}

  /** The first position at or after `from` holding a closing quote. */
  function CloseFrom(s: string, from: nat): (r: Option<nat>)
    requires from <= |s|
    ensures r.Some? ==> from <= r.value < |s| && s[r.value] in CloseQuotes
    ensures r.Some? ==> forall j :: from <= j < r.value ==> s[j] !in CloseQuotes
    ensures r.None? ==> forall j :: from <= j < |s| ==> s[j] !in CloseQuotes
    decreases |s| - from
  {
    if from == |s| then None
    else if s[from] in CloseQuotes then Some(from)
    else CloseFrom(s, from + 1)
  }

  /** The quoted name after an opening quote: the shortest non-empty text followed by a
      closing quote (the lazy `.+?` of the header pattern). */
  function QuotedName(s: string): (r: Option<string>)
    ensures r.Some? ==> |r.value| >= 1 && |r.value| < |s| && r.value == s[..|r.value|] && s[|r.value|] in CloseQuotes
  {
    if |s| == 0 then None
    else match CloseFrom(s, 1)
      case None => None
      case Some(k) => Some(s[..k])
  }

  /** The header pattern `^TASK\s+\[?(\d+)\]?:\s*["“](.+?)["”]` matched at the start of a
      stripped line: the task number and name. */
  function ParseHeader(line: string): (r: Option<(nat, string)>)
    ensures r.Some? ==> "TASK" <= line && |r.value.1| >= 1
  {
    if "TASK" <= line then AfterTask(line[4..]) else None
  }

  /** `\s+` then the number. */
  function AfterTask(a: string): (r: Option<(nat, string)>)
    ensures r.Some? ==> |r.value.1| >= 1
  {
    var b := LStrip(a);
    if |b| == |a| then None else AfterSpace(b)
  }

  /** `\[?(\d+)`: the number, with an optional opening bracket. */
  function AfterSpace(b: string): (r: Option<(nat, string)>)
    ensures r.Some? ==> |r.value.1| >= 1
  {
    var c := if |b| > 0 && b[0] == '[' then b[1..] else b;
    var digits := LeadingDigits(c);
    if digits == "" then None
    else match AfterNumber(c[|digits|..])
      case None => None
      case Some(name) => Some((DigitsValue(digits), name))
  }

  /** `\]?:`, then the quoted name. */
  function AfterNumber(d: string): (r: Option<string>)
    ensures r.Some? ==> |r.value| >= 1
  {
    var e := if |d| > 0 && d[0] == ']' then d[1..] else d;
    if |e| == 0 || e[0] != ':' then None else AfterColon(e[1..])
  }

  /** `\s*["“](.+?)["”]` */
  function AfterColon(e: string): (r: Option<string>)
    ensures r.Some? ==> |r.value| >= 1
  {
    var f := LStrip(e);
    if |f| == 0 || f[0] !in OpenQuotes then None else QuotedName(f[1..])
  }

  /** The canonical header for task number n: `TASK n: "name"`. */
  function HeaderLine(n: nat, name: string): string {
    "TASK" + (" " + (NatToString(n) + ColonTail(name)))
  }

  function QuotedTail(name: string): string {
    "\"" + (name + "\"")
  }

  function ColonTail(name: string): string {
    ":" + (" " + QuotedTail(name))
  }

  lemma LStripSpaceFirst(s: string)
    requires |s| > 0 && !IsSpace(s[0])
    ensures LStrip(" " + s) == s
  {
    assert (" " + s)[1..] == s;
  }

  lemma QuotedRoundTrip(name: string)
    requires |name| >= 1 && forall i :: 0 <= i < |name| ==> name[i] !in CloseQuotes
    ensures AfterColon(" " + QuotedTail(name)) == Some(name)
  {
    var q := QuotedTail(name);
    LStripSpaceFirst(q);
    assert q[1..] == name + "\"";
    CloseFromSkips(name + "\"", 1, |name|);
    assert (name + "\"")[..|name|] == name;
  }

  lemma ColonRoundTrip(name: string)
    requires |name| >= 1 && forall i :: 0 <= i < |name| ==> name[i] !in CloseQuotes
    ensures AfterNumber(ColonTail(name)) == Some(name)
  {
    AfterNumberColon(" " + QuotedTail(name));
    QuotedRoundTrip(name);
  }

  lemma AfterNumberColon(x: string)
    ensures AfterNumber(":" + x) == AfterColon(x)
  {
    assert (":" + x)[0] == ':' && (":" + x)[1..] == x;
  }

  lemma NumberRoundTrip(n: nat, name: string)
    requires |name| >= 1 && forall i :: 0 <= i < |name| ==> name[i] !in CloseQuotes
    ensures AfterSpace(NatToString(n) + ColonTail(name)) == Some((n, name))
  {
    var digits := NatToString(n);
    var tail := ColonTail(name);
    LeadingDigitsOf(digits, tail);
    assert (digits + tail)[|digits|..] == tail;
    ColonRoundTrip(name);
    NatToStringRoundTrip(n);
  }

  /** A header written out parses back to its number and name. */
  lemma HeaderRoundTrip(n: nat, name: string)
    requires |name| >= 1 && forall i :: 0 <= i < |name| ==> name[i] !in CloseQuotes
    ensures ParseHeader(HeaderLine(n, name)) == Some((n, name))
  {
    var rest := NatToString(n) + ColonTail(name);
    assert HeaderLine(n, name)[4..] == " " + rest;
    LStripSpaceFirst(rest);
    NumberRoundTrip(n, name);
  }

  lemma {:induction false} LeadingDigitsOf(digits: string, tail: string)
    requires forall i :: 0 <= i < |digits| ==> IsDigit(digits[i])
    requires |tail| > 0 && !IsDigit(tail[0])
    ensures LeadingDigits(digits + tail) == digits
    decreases |digits|
  {
    if |digits| > 0 {
      assert (digits + tail)[1..] == digits[1..] + tail;
      LeadingDigitsOf(digits[1..], tail);
    }
  }

  lemma {:induction false} CloseFromSkips(s: string, from: nat, k: nat)
    requires from <= k < |s| && s[k] in CloseQuotes
    requires forall j :: from <= j < k ==> s[j] !in CloseQuotes
    ensures CloseFrom(s, from) == Some(k)
    decreases k - from
  {
    if from < k {
      CloseFromSkips(s, from + 1, k);
    }
  }

  /** A response line once stripped, with the header it carries if it is one. */
  datatype Line = Line(header: Option<(nat, string)>, text: string)

  function Classify(lines: seq<string>): (r: seq<Line>)
    ensures |r| == |lines|
    ensures forall k :: 0 <= k < |lines| ==> r[k] == Line(ParseHeader(Strip(lines[k])), Strip(lines[k]))
  {
    seq(|lines|, k requires 0 <= k < |lines| => Line(ParseHeader(Strip(lines[k])), Strip(lines[k])))
  }

  /** The parsed headers, in order. */
  function Headers(ls: seq<Line>): (r: seq<(nat, string)>)
    ensures |r| <= |ls|
    decreases |ls|
  {
    if |ls| == 0 then []
    else (match ls[0].header case Some(h) => [h] case None => []) + Headers(ls[1..])
  }

  /** The texts of the lines before the next header. */
  function BodyLines(ls: seq<Line>): (r: seq<string>)
    ensures |r| <= |ls|
    ensures forall k :: 0 <= k < |r| ==> ls[k].header.None? && r[k] == ls[k].text
    ensures |r| < |ls| ==> ls[|r|].header.Some?
    decreases |ls|
  {
    if |ls| == 0 || ls[0].header.Some? then [] else [ls[0].text] + BodyLines(ls[1..])
  }

  /** A task block: the header's number and name and the stripped lines up to the next header. */
  datatype Block = Block(number: nat, name: string, lines: seq<string>)

  /** The blocks of `_parse_task_contracts`: lines before the first header belong to none. */
  function Blocks(ls: seq<Line>): (r: seq<Block>)
    decreases |ls|
  {
    if |ls| == 0 then []
    else match ls[0].header
      case None => Blocks(ls[1..])
      case Some(h) =>
        var body := BodyLines(ls[1..]);
        [Block(h.0, h.1, body)] + Blocks(ls[1 + |body|..])
  }

  /** Lines that are not headers contribute no header. */
  lemma {:induction false} HeadersSkipBody(ls: seq<Line>, m: nat)
    requires m <= |ls| && forall k :: 0 <= k < m ==> ls[k].header.None?
    ensures Headers(ls) == Headers(ls[m..])
    decreases m
  {
    if m > 0 {
      HeadersSkipBody(ls[1..], m - 1);
      assert ls[1..][m - 1..] == ls[m..];
    }
  }

  /** One block per header, carrying that header's number and name, in order. */
  lemma {:induction false} BlocksFollowHeaders(ls: seq<Line>)
    ensures |Blocks(ls)| == |Headers(ls)|
    ensures forall i :: 0 <= i < |Blocks(ls)| ==> (Blocks(ls)[i].number, Blocks(ls)[i].name) == Headers(ls)[i]
    decreases |ls|
  {
    if |ls| > 0 {
      match ls[0].header
      case None =>
        BlocksFollowHeaders(ls[1..]);
      case Some(h) =>
        var body := BodyLines(ls[1..]);
        HeadersSkipBody(ls[1..], |body|);
        assert ls[1..][|body|..] == ls[1 + |body|..];
        BlocksFollowHeaders(ls[1 + |body|..]);
    }
  }

  // ---------------------------------------------------------------------------
  // Building a task contract from a block
  // ---------------------------------------------------------------------------

  /** `_extract_simple_field` and `_extract_bullet_list`: regex searches over a block's text. */
  datatype Extractors = Extractors(field: (string, string) -> string, bullets: (string, string) -> seq<string>)

  /** The task type named by a "Task type" field: lower-cased and stripped, "general" unless it
      names one of the seven types. */
  function TaskTypeOf(raw: string): (r: string)
    ensures r in TaskTypes
    ensures r == GENERAL <==> Strip(Lower(raw)) !in TaskTypes || Strip(Lower(raw)) == GENERAL
    ensures Strip(Lower(raw)) in TaskTypes ==> r == Strip(Lower(raw))
  {
    var t := Strip(Lower(raw));
    if t in TaskTypes then t else GENERAL
  }

  /** The raw entries of a "Depends on" field: comma-separated, stripped, blanks dropped;
      nothing for an empty field or "none". */
  function DependsField(s: string): (r: seq<string>)
    ensures s == "" || Strip(Lower(s)) == "none" ==> r == []
    ensures CleanEntries(r)
  {
    if s == "" || Strip(Lower(s)) == "none" then [] else NonBlank(SplitOn(s, ','))
  }

  /** Entries that are non-empty, comma-free and already stripped. */
  predicate CleanEntries(r: seq<string>) {
    forall k :: 0 <= k < |r| ==> r[k] != "" && ',' !in r[k] && r[k] == Strip(r[k])
  }

  /** The stripped pieces that are not blank. */
  function NonBlank(pieces: seq<string>): (r: seq<string>)
    requires forall k :: 0 <= k < |pieces| ==> ',' !in pieces[k]
    ensures |r| <= |pieces|
    ensures CleanEntries(r)
    decreases |pieces|
  {
    if |pieces| == 0 then []
    else
      var rest := NonBlank(pieces[1..]);
      NonBlankCons(pieces[0], rest);
      (if Strip(pieces[0]) != "" then [Strip(pieces[0])] else []) + rest
  }

  lemma NonBlankCons(piece: string, rest: seq<string>)
    requires ',' !in piece && CleanEntries(rest)
    ensures CleanEntries((if Strip(piece) != "" then [Strip(piece)] else []) + rest)
  {
    StripInside(piece);
    StripIdempotent(piece);
  }

  lemma StripInside(s: string)
    ensures forall c :: c in Strip(s) ==> c in s
  {
    var l := LStrip(s);
    assert forall c :: c in RStrip(l) ==> c in l;
    assert forall c :: c in l ==> c in s;
  }

  /** `_build_task_contract`: the block's name and the extracted fields on a default task. */
  function BuildTaskContract(b: Block, ex: Extractors): (t: Task)
    ensures t.taskName == b.name && t.taskType in TaskTypes
    ensures t.taskType == TaskTypeOf(ex.field(Join(b.lines, "\n"), "Task type"))
    ensures t.dependsOn == DependsField(ex.field(Join(b.lines, "\n"), "Depends on"))
    ensures t.status == PENDING && t.taskId == "" && t.parallelGroup == 0
  {
    var text := Join(b.lines, "\n");
    DefaultTask().(
      taskName := b.name,
      subsystem := ex.field(text, "Subsystem"),
      objective := ex.field(text, "Objective"),
      taskType := TaskTypeOf(ex.field(text, "Task type")),
      inputs := ex.bullets(text, "Inputs"),
      scopeMustBuild := ex.bullets(text, "Must build"),
      scopeMustNotTouch := ex.bullets(text, "Must not touch"),
      rulesToImplement := ex.bullets(text, "Rules to implement"),
      constraintsToEnforce := ex.bullets(text, "Constraints to enforce"),
      interfacesReceives := ex.bullets(text, "Interfaces receives"),
      interfacesProduces := ex.bullets(text, "Interfaces produces"),
      testCriteria := ex.bullets(text, "Test criteria"),
      dependsOn := DependsField(ex.field(text, "Depends on")))
  }

  // ---------------------------------------------------------------------------
  // Dependency numbers and position placeholders
  // ---------------------------------------------------------------------------

  const PlaceholderPrefix := "__task_index_"

  /** The placeholder naming the task at position i. */
  function Placeholder(i: nat): string {
    PlaceholderPrefix + NatToString(i)
  }

  /** The position a placeholder names: `re.match(r"__task_index_(\d+)", dep)`, a prefix match. */
  function PlaceholderIndex(dep: string): (r: Option<nat>)
    ensures r.Some? ==> PlaceholderPrefix <= dep
  {
    if PlaceholderPrefix <= dep then
      var ds := LeadingDigits(dep[|PlaceholderPrefix|..]);
      if ds == "" then None else Some(DigitsValue(ds))
    else None
  }

  /** A placeholder names the position it was made from. */
  lemma PlaceholderRoundTrip(i: nat)
    ensures PlaceholderIndex(Placeholder(i)) == Some(i)
  {
    var p := Placeholder(i);
    assert p[|PlaceholderPrefix|..] == NatToString(i);
    LeadingDigitsAll(NatToString(i));
    NatToStringRoundTrip(i);
  }

  lemma {:induction false} LeadingDigitsAll(s: string)
    requires forall i :: 0 <= i < |s| ==> IsDigit(s[i])
    ensures LeadingDigits(s) == s
    decreases |s|
  {
    if |s| > 0 {
      LeadingDigitsAll(s[1..]);
    }
  }

  /** Text without digits is never a placeholder. */
  lemma DigitFreeNotPlaceholder(s: string)
    requires forall i :: 0 <= i < |s| ==> !IsDigit(s[i])
    ensures PlaceholderIndex(s).None?
  {
    if PlaceholderPrefix <= s {
      var rest := s[|PlaceholderPrefix|..];
      if |rest| > 0 {
        assert rest[0] == s[|PlaceholderPrefix|];
      }
    }
  }

  /** `task_number_map[num]`: the position of the last block with that number. */
  function LastWithNumber(blocks: seq<Block>, num: nat): (r: Option<nat>)
    ensures r.Some? ==> r.value < |blocks| && blocks[r.value].number == num
    ensures r.Some? ==> forall j :: r.value < j < |blocks| ==> blocks[j].number != num
    ensures r.None? ==> forall j :: 0 <= j < |blocks| ==> blocks[j].number != num
    decreases |blocks|
  {
    if |blocks| == 0 then None
    else if blocks[|blocks| - 1].number == num then Some(|blocks| - 1)
    else LastWithNumber(blocks[..|blocks| - 1], num)
  }

  /** The block a digit run names, if any. */
  function NamedBlock(blocks: seq<Block>, run: string): (r: Option<nat>)
    ensures r.Some? ==> r.value < |blocks|
  {
    if IsDigits(run) then LastWithNumber(blocks, DigitsValue(run)) else None
  }

  /** The placeholder of the block one digit run names, if any. */
  function RunPlaceholder(blocks: seq<Block>, run: string): (r: seq<string>)
    ensures |r| <= 1
    ensures forall k :: 0 <= k < |r| ==> PlaceholderIndex(r[k]).Some? && PlaceholderIndex(r[k]).value < |blocks|
  {
    match NamedBlock(blocks, run)
    case Some(i) => PlaceholderRoundTrip(i); [Placeholder(i)]
    case None => []
  }

  /** The placeholders for the digit runs that name a block, in order. */
  function RunPlaceholders(runs: seq<string>, blocks: seq<Block>): (r: seq<string>)
    ensures forall k :: 0 <= k < |r| ==> PlaceholderIndex(r[k]).Some? && PlaceholderIndex(r[k]).value < |blocks|
    decreases |runs|
  {
    if |runs| == 0 then [] else RunPlaceholder(blocks, runs[0]) + RunPlaceholders(runs[1..], blocks)
  }

  /** A single digit run becomes the placeholder of the last block with its number, or nothing
      when no block has that number. */
  lemma RunPlaceholdersOne(run: string, blocks: seq<Block>)
    requires IsDigits(run)
    ensures LastWithNumber(blocks, DigitsValue(run)).Some? ==>
      RunPlaceholders([run], blocks) == [Placeholder(LastWithNumber(blocks, DigitsValue(run)).value)]
    ensures LastWithNumber(blocks, DigitsValue(run)).None? ==> RunPlaceholders([run], blocks) == []
  {
    RunPlaceholdersSingleton(run, blocks);
  }

  lemma RunPlaceholdersSingleton(run: string, blocks: seq<Block>)
    ensures RunPlaceholders([run], blocks) == RunPlaceholder(blocks, run)
  {
    assert [run][1..] == [];
  }

  /** Runs are resolved one at a time, in order: together with RunPlaceholdersOne this fixes the
      result for every list of runs. */
  lemma {:induction false} RunPlaceholdersConcat(a: seq<string>, b: seq<string>, blocks: seq<Block>)
    ensures RunPlaceholders(a + b, blocks) == RunPlaceholders(a, blocks) + RunPlaceholders(b, blocks)
    decreases |a|
  {
    if |a| > 0 {
      assert (a + b)[1..] == a[1..] + b;
      assert (a + b)[0] == a[0];
      RunPlaceholdersConcat(a[1..], b, blocks);
    } else {
      assert a + b == b;
    }
  }

  /** Every run naming a block contributes that block's placeholder, and every placeholder comes
      from such a run. */
  lemma {:induction false} RunPlaceholdersNamed(runs: seq<string>, blocks: seq<Block>)
    ensures forall j :: 0 <= j < |runs| && NamedBlock(blocks, runs[j]).Some? ==>
      Placeholder(NamedBlock(blocks, runs[j]).value) in RunPlaceholders(runs, blocks)
    ensures forall p :: p in RunPlaceholders(runs, blocks) ==>
      exists j :: 0 <= j < |runs| && NamedBlock(blocks, runs[j]).Some? &&
        p == Placeholder(NamedBlock(blocks, runs[j]).value)
    decreases |runs|
  {
    if |runs| > 0 {
      var rest := runs[1..];
      RunPlaceholdersNamed(rest, blocks);
      RunPlaceholdersSingleton(runs[0], blocks);
      assert runs == [runs[0]] + rest;
      RunPlaceholdersConcat([runs[0]], rest, blocks);
      forall j | 0 < j < |runs| ensures runs[j] == rest[j - 1] {
      }
      forall p | p in RunPlaceholders(runs, blocks)
        ensures exists j :: (0 <= j < |runs| && NamedBlock(blocks, runs[j]).Some? &&
                             p == Placeholder(NamedBlock(blocks, runs[j]).value))
      {
        if p !in RunPlaceholders([runs[0]], blocks) {
          var j :| 0 <= j < |rest| && NamedBlock(blocks, rest[j]).Some? &&
            p == Placeholder(NamedBlock(blocks, rest[j]).value);
          assert runs[j + 1] == rest[j];
        }
      }
    }
  }

  /** One "Depends on" entry after parsing: a placeholder for every number in it that names a
      task; a digit-free entry other than "none" is kept as written. */
  function ResolveNumber(dep: string, blocks: seq<Block>): (r: seq<string>)
    ensures DigitRuns(Strip(dep)) != [] ==> r == RunPlaceholders(DigitRuns(Strip(dep)), blocks)
    ensures DigitRuns(Strip(dep)) == [] ==>
      r == (if Lower(Strip(dep)) != "none" then [Strip(dep)] else [])
    ensures forall k :: 0 <= k < |r| ==>
      (PlaceholderIndex(r[k]).Some? && PlaceholderIndex(r[k]).value < |blocks|) ||
      (r[k] == Strip(dep) && PlaceholderIndex(r[k]).None?)
  {
    var d := Strip(dep);
    var runs := DigitRuns(d);
    if runs == [] then
      DigitFreeNotPlaceholder(d);
      if Lower(d) != "none" then [d] else []
    else RunPlaceholders(runs, blocks)
  }

  /** An entry holding one number resolves to the placeholder of the last block with that
      number, and to nothing when no block has it. */
  lemma ResolveOneNumber(dep: string, run: string, blocks: seq<Block>)
    requires DigitRuns(Strip(dep)) == [run] && IsDigits(run)
    ensures LastWithNumber(blocks, DigitsValue(run)).Some? ==>
      ResolveNumber(dep, blocks) == [Placeholder(LastWithNumber(blocks, DigitsValue(run)).value)]
    ensures LastWithNumber(blocks, DigitsValue(run)).None? ==> ResolveNumber(dep, blocks) == []
  {
    RunPlaceholdersOne(run, blocks);
  }

  /** A bare number is read as exactly that number. */
  lemma DigitsAreOneRun(s: string)
    requires IsDigits(s)
    ensures DigitRuns(Strip(s)) == [s]
  {
    assert IsDigit(s[0]) && IsDigit(s[|s| - 1]);
    StripUnchanged(s);
    DigitRunsOfDigits(s);
  }

  lemma DigitRunsOfDigits(s: string)
    requires IsDigits(s)
    ensures DigitRuns(s) == [s]
  {
    LeadingDigitsAll(s);
    assert s[|s|..] == [];
  }

  /** The entries after parsing: placeholders for positions of parsed tasks, or stripped
      entries that are no placeholder. */
  function ResolveNumbers(deps: seq<string>, blocks: seq<Block>): (r: seq<string>)
    ensures forall k :: 0 <= k < |r| ==>
      (PlaceholderIndex(r[k]).Some? && PlaceholderIndex(r[k]).value < |blocks|) ||
      (PlaceholderIndex(r[k]).None? && r[k] in StripAll(deps))
    decreases |deps|
  {
    if |deps| == 0 then []
    else
      var head := ResolveNumber(deps[0], blocks);
      var rest := ResolveNumbers(deps[1..], blocks);
      head + rest
  }

  /** One parsed task: its block's contract, with dependency numbers turned into placeholders. */
  function ParsedTask(b: Block, blocks: seq<Block>, ex: Extractors): (t: Task)
    ensures t.taskName == b.name && t.taskType in TaskTypes && t.taskId == ""
    ensures forall k :: 0 <= k < |t.dependsOn| ==>
      PlaceholderIndex(t.dependsOn[k]).Some? ==> PlaceholderIndex(t.dependsOn[k]).value < |blocks|
  {
    var t := BuildTaskContract(b, ex);
    t.(dependsOn := ResolveNumbers(t.dependsOn, blocks))
  }

  /** The parsed tasks of a sequence of blocks, one per block, in block order. */
  function ParseBlocks(blocks: seq<Block>, ex: Extractors): (r: seq<Task>)
    ensures |r| == |blocks|
    ensures forall i :: 0 <= i < |r| ==> r[i].taskName == blocks[i].name
    ensures forall i :: 0 <= i < |r| ==> r[i].taskType in TaskTypes && r[i].taskId == ""
    ensures forall i, k :: 0 <= i < |r| && 0 <= k < |r[i].dependsOn| ==>
      PlaceholderIndex(r[i].dependsOn[k]).Some? ==> PlaceholderIndex(r[i].dependsOn[k]).value < |r|
  {
    seq(|blocks|, i requires 0 <= i < |blocks| => ParsedTask(blocks[i], blocks, ex))
  }

  /** `_parse_task_contracts`: one task per header, dependency numbers turned into
      placeholders for the positions of the tasks they name. */
  function ParseTaskContracts(text: string, ex: Extractors): (r: seq<Task>)
    ensures |r| == |Headers(Classify(SplitLines(text)))|
    ensures forall i :: 0 <= i < |r| ==> r[i].taskName == Headers(Classify(SplitLines(text)))[i].1
    ensures forall i :: 0 <= i < |r| ==> r[i].taskType in TaskTypes && r[i].taskId == ""
    ensures forall i, k :: 0 <= i < |r| && 0 <= k < |r[i].dependsOn| ==>
      PlaceholderIndex(r[i].dependsOn[k]).Some? ==> PlaceholderIndex(r[i].dependsOn[k]).value < |r|
  {
    var ls := Classify(SplitLines(text));
    BlocksFollowHeaders(ls);
    ParseBlocks(Blocks(ls), ex)
  }

  /** Text without any task header gives no tasks. */
  lemma NoHeaderNoTasks(text: string, ex: Extractors)
    requires forall k :: 0 <= k < |SplitLines(text)| ==> ParseHeader(Strip(SplitLines(text)[k])).None?
    ensures ParseTaskContracts(text, ex) == []
  {
    var ls := Classify(SplitLines(text));
    HeadersSkipBody(ls, |ls|);
  }

  // ---------------------------------------------------------------------------
  // Placeholder resolution and the dependency graph
  // ---------------------------------------------------------------------------

  /** One dependency entry once ids exist: a placeholder in range becomes that task's id, one
      out of range is dropped, anything else is kept. */
  function ResolveDep(dep: string, tasks: seq<Task>): (r: seq<string>)
    ensures PlaceholderIndex(dep).None? ==> r == [dep]
    ensures PlaceholderIndex(dep).Some? && PlaceholderIndex(dep).value < |tasks| ==>
      r == [tasks[PlaceholderIndex(dep).value].taskId]
    ensures PlaceholderIndex(dep).Some? && PlaceholderIndex(dep).value >= |tasks| ==> r == []
  {
    match PlaceholderIndex(dep)
    case None => [dep]
    case Some(i) => if i < |tasks| then [tasks[i].taskId] else []
  }

  function ResolveDeps(deps: seq<string>, tasks: seq<Task>): (r: seq<string>)
    ensures |r| <= |deps|
    decreases |deps|
  {
    if |deps| == 0 then [] else ResolveDep(deps[0], tasks) + ResolveDeps(deps[1..], tasks)
  }

  /** The placeholder pass of `_resolve_dependencies`. */
  function ResolvePlaceholders(tasks: seq<Task>): (r: seq<Task>)
    ensures |r| == |tasks|
    ensures forall i :: 0 <= i < |tasks| ==>
      r[i] == tasks[i].(dependsOn := ResolveDeps(tasks[i].dependsOn, tasks))
  {
    seq(|tasks|, i requires 0 <= i < |tasks| => tasks[i].(dependsOn := ResolveDeps(tasks[i].dependsOn, tasks)))
  }

  /** A parsed dependency on a task number resolves to the id of the last task with that
      number: the two halves of the placeholder scheme fit together. */
  lemma PlaceholderResolves(i: nat, tasks: seq<Task>)
    requires i < |tasks|
    ensures ResolveDep(Placeholder(i), tasks) == [tasks[i].taskId]
  {
    PlaceholderRoundTrip(i);
  }

  /** End to end: an entry holding one number, once ids exist, depends on the id of the last
      task whose block carries that number; a number no block carries is dropped. */
  lemma NumberedDependencyResolves(dep: string, run: string, blocks: seq<Block>, tasks: seq<Task>)
    requires DigitRuns(Strip(dep)) == [run] && IsDigits(run) && |tasks| == |blocks|
    ensures LastWithNumber(blocks, DigitsValue(run)).Some? ==>
      ResolveDeps(ResolveNumber(dep, blocks), tasks) == [tasks[LastWithNumber(blocks, DigitsValue(run)).value].taskId]
    ensures LastWithNumber(blocks, DigitsValue(run)).None? ==> ResolveDeps(ResolveNumber(dep, blocks), tasks) == []
  {
    ResolveOneNumber(dep, run, blocks);
    var last := LastWithNumber(blocks, DigitsValue(run));
    if last.Some? {
      var p := Placeholder(last.value);
      PlaceholderResolves(last.value, tasks);
      assert [p][1..] == [];
      assert ResolveDeps([p], tasks) == ResolveDep(p, tasks) + ResolveDeps([], tasks);
    }
  }

  /** `task_id_to_idx[id]`: the last position with that id. */
  function IdIndex(tasks: seq<Task>, id: string): (r: Option<nat>)
    ensures r.Some? ==> r.value < |tasks| && tasks[r.value].taskId == id
    ensures r.Some? ==> forall j :: r.value < j < |tasks| ==> tasks[j].taskId != id
    ensures r.None? ==> forall j :: 0 <= j < |tasks| ==> tasks[j].taskId != id
    decreases |tasks|
  {
    if |tasks| == 0 then None
    else if tasks[|tasks| - 1].taskId == id then Some(|tasks| - 1)
    else IdIndex(tasks[..|tasks| - 1], id)
  }

  /** The positions of the in-set dependencies, one per entry; other ids are ignored. */
  function InSetDeps(deps: seq<string>, tasks: seq<Task>): (r: seq<nat>)
    ensures forall k :: 0 <= k < |r| ==> r[k] < |tasks|
    ensures |r| <= |deps|
    decreases |deps|
  {
    if |deps| == 0 then []
    else
      (match IdIndex(tasks, deps[0]) case Some(j) => [j] case None => []) + InSetDeps(deps[1..], tasks)
  }

  /** A dependency on an id outside the task set does not change the graph. */
  lemma {:induction false} UnknownIdIgnored(deps: seq<string>, tasks: seq<Task>, id: string)
    requires IdIndex(tasks, id).None?
    ensures InSetDeps(deps + [id], tasks) == InSetDeps(deps, tasks)
    decreases |deps|
  {
    if |deps| == 0 {
      assert deps + [id] == [id];
    } else {
      assert (deps + [id])[1..] == deps[1..] + [id];
      UnknownIdIgnored(deps[1..], tasks, id);
    }
  }

  function DepGraph(tasks: seq<Task>): (g: Graph)
    ensures |g| == |tasks| && ValidGraph(g)
    ensures forall i :: 0 <= i < |tasks| ==> g[i] == InSetDeps(tasks[i].dependsOn, tasks)
  {
    seq(|tasks|, i requires 0 <= i < |tasks| => InSetDeps(tasks[i].dependsOn, tasks))
  }

  /** The tasks in leveling order, each carrying its group. */
  function Arrange(tasks: seq<Task>, lv: Leveling): (r: seq<Task>)
    requires Below(lv.order, |tasks|) && |lv.group| == |tasks|
    ensures |r| == |lv.order|
    ensures forall k :: 0 <= k < |r| ==>
      r[k] == tasks[lv.order[k]].(parallelGroup := lv.group[lv.order[k]])
  {
    seq(|lv.order|, k requires 0 <= k < |lv.order| =>
      tasks[lv.order[k]].(parallelGroup := lv.group[lv.order[k]]))
  }

  /** `_resolve_dependencies`: placeholders resolved, tasks leveled and returned in order with
      their parallel groups, or `CyclicDependencyError` when a cycle keeps some task back.
      `lv` is the leveling the result follows. */
  method ResolveDependencies(tasks: seq<Task>) returns (r: Result<seq<Task>, CycleError>, lv: Leveling)
    ensures r.Success? ==> IsLeveling(DepGraph(ResolvePlaceholders(tasks)), lv)
    ensures r.Success? ==> r.value == Arrange(ResolvePlaceholders(tasks), lv)
    ensures r.Failure? <==> HasCycle(DepGraph(ResolvePlaceholders(tasks)))
    ensures r.Failure? ==> r.error.total == |tasks| && r.error.processed < |tasks|
    ensures tasks == [] ==> r == Success([])
  {
    var resolved := ResolvePlaceholders(tasks);
    var g := DepGraph(resolved);
    var leveled := Level(g);
    LevelFailsIffCycle(g, leveled);
    match leveled
    case Success(l) =>
      lv := l;
      r := Success(Arrange(resolved, lv));
    case Failure(e) =>
      lv := Leveling([], []);
      r := Failure(e);
  }

  /** In a successful resolution, groups never decrease along the output, and every in-set
      dependency of a task comes earlier with a smaller group. */
  lemma ResolvedOrder(tasks: seq<Task>, lv: Leveling, k: nat, j: nat)
    requires IsLeveling(DepGraph(ResolvePlaceholders(tasks)), lv)
    requires k < |tasks| && j < |DepGraph(ResolvePlaceholders(tasks))[lv.order[k]]|
    ensures var out := Arrange(ResolvePlaceholders(tasks), lv);
            var d := DepGraph(ResolvePlaceholders(tasks))[lv.order[k]][j];
            exists k' :: 0 <= k' < k && lv.order[k'] == d && out[k'].parallelGroup < out[k].parallelGroup
  {
    var g := DepGraph(ResolvePlaceholders(tasks));
    DependenciesFirst(g, lv, k, j);
    assert RuleAt(g, lv.group, lv.order[k]);
  }

  /** Arranged tasks carry non-decreasing groups. */
  lemma ArrangeSorted(tasks: seq<Task>, lv: Leveling)
    requires IsLeveling(DepGraph(tasks), lv)
    ensures forall k1, k2 :: 0 <= k1 <= k2 < |Arrange(tasks, lv)| ==>
      Arrange(tasks, lv)[k1].parallelGroup <= Arrange(tasks, lv)[k2].parallelGroup
  {
  }

  /** A task that depends on its own id can never be leveled. */
  lemma SelfDependencyIsCycle(g: Graph, i: nat)
    requires i < |g| && i in g[i]
    ensures HasCycle(g)
  {
    var k :| 0 <= k < |g[i]| && g[i][k] == i;
    assert Closed(g, {i});
  }

  // ---------------------------------------------------------------------------
  // Providers
  // ---------------------------------------------------------------------------

  /** A role's provider settings; a missing key reads as "". */
  datatype RoleConfig = RoleConfig(provider: string, model: string)

  /** `roles_config`: role name to settings. */
  type Roles = seq<(string, RoleConfig)>

  const ComplexTaskTypes: set<string> := {"state_schema", "flow", "constraint", "failure_recovery", "dependency_cascade"}
  const BUILDER_COMPLEX := "builder_complex"
  const BUILDER_SIMPLE := "builder_simple"

  function RoleFor(taskType: string): (r: string)
    ensures r == BUILDER_COMPLEX <==> taskType in ComplexTaskTypes
    ensures r == BUILDER_COMPLEX || r == BUILDER_SIMPLE
  {
    if taskType in ComplexTaskTypes then BUILDER_COMPLEX else BUILDER_SIMPLE
  }

  function RoleSettings(roles: Roles, role: string): RoleConfig {
    Get(roles, role).GetOr(RoleConfig("", ""))
  }

  /** The label `_assign_providers` stores: "provider/model", the provider alone, or the role. */
  function ProviderLabel(role: string, cfg: RoleConfig): (r: string)
    ensures cfg.provider != "" ==> cfg.provider <= r
    ensures cfg.provider != "" && cfg.model != "" ==> r == cfg.provider + "/" + cfg.model
    ensures cfg.provider != "" && cfg.model == "" ==> r == cfg.provider
    ensures cfg.provider == "" ==> r == role
  {
    if cfg.provider != "" && cfg.model != "" then cfg.provider + "/" + cfg.model
    else if cfg.provider != "" then cfg.provider
    else role
  }

  /** `_assign_providers`: every task gets the label of its role; nothing else changes. */
  function AssignProviders(tasks: seq<Task>, roles: Roles): (r: seq<Task>)
    ensures |r| == |tasks|
    ensures forall i :: 0 <= i < |tasks| ==> r[i] == tasks[i].(assignedProvider := r[i].assignedProvider)
    ensures forall i :: 0 <= i < |tasks| ==>
      r[i].assignedProvider == ProviderLabel(RoleFor(tasks[i].taskType), RoleSettings(roles, RoleFor(tasks[i].taskType)))
  {
    seq(|tasks|, i requires 0 <= i < |tasks| =>
      var role := RoleFor(tasks[i].taskType);
      tasks[i].(assignedProvider := ProviderLabel(role, RoleSettings(roles, role))))
  }

  /** Without a roles configuration every task is labelled with its role. */
  lemma NoRolesLabelsByRole(tasks: seq<Task>)
    ensures forall i :: 0 <= i < |tasks| ==>
      AssignProviders(tasks, [])[i].assignedProvider == RoleFor(tasks[i].taskType)
  {
  }

  // ---------------------------------------------------------------------------
  // Cost estimate (integer part)
  // ---------------------------------------------------------------------------

  /** The provider key a task counts under in `provider_mix`. */
  function MixKey(t: Task): string {
    if t.assignedProvider == "" then "unknown" else t.assignedProvider
  }

  function CountKey(tasks: seq<Task>, key: string): (n: nat)
    ensures n <= |tasks|
    decreases |tasks|
  {
    if |tasks| == 0 then 0
    else CountKey(tasks[..|tasks| - 1], key) + (if MixKey(tasks[|tasks| - 1]) == key then 1 else 0)
  }

  lemma CountKeyLast(tasks: seq<Task>, key: string)
    requires |tasks| > 0
    ensures CountKey(tasks, key) ==
      CountKey(tasks[..|tasks| - 1], key) + (if MixKey(tasks[|tasks| - 1]) == key then 1 else 0)
  {
  }

  /** `provider_mix`: how many tasks use each provider key, keys in first-use order. */
  function ProviderMix(tasks: seq<Task>): (r: seq<(string, nat)>)
    ensures DistinctKeys(r)
    ensures forall key :: Get(r, key) == CountEntry(tasks, key)
    decreases |tasks|
  {
    if |tasks| == 0 then []
    else
      var m := ProviderMix(tasks[..|tasks| - 1]);
      var key := MixKey(tasks[|tasks| - 1]);
      var v := Get(m, key).GetOr(0) + 1;
      MixStep(tasks, m, key, v);
      Put(m, key, v)
  }

  /** Counting one more task raises its key's count by one. */
  lemma MixStep(tasks: seq<Task>, m: seq<(string, nat)>, key: string, v: nat)
    requires |tasks| > 0 && DistinctKeys(m)
    requires forall k :: Get(m, k) == CountEntry(tasks[..|tasks| - 1], k)
    requires key == MixKey(tasks[|tasks| - 1]) && v == Get(m, key).GetOr(0) + 1
    ensures DistinctKeys(Put(m, key, v))
    ensures forall k :: Get(Put(m, key, v), k) == CountEntry(tasks, k)
  {
    PutDistinct(m, key, v);
    forall k ensures Get(Put(m, key, v), k) == CountEntry(tasks, k) {
      MixStepAt(tasks, m, key, v, k);
    }
  }

  /** One key's entry after counting one more task. */
  lemma MixStepAt(tasks: seq<Task>, m: seq<(string, nat)>, key: string, v: nat, k: string)
    requires |tasks| > 0
    requires Get(m, k) == CountEntry(tasks[..|tasks| - 1], k)
    requires Get(m, key) == CountEntry(tasks[..|tasks| - 1], key)
    requires key == MixKey(tasks[|tasks| - 1]) && v == Get(m, key).GetOr(0) + 1
    ensures Get(Put(m, key, v), k) == CountEntry(tasks, k)
  {
    CountKeyLast(tasks, k);
    if k == key {
      MixStepSame(tasks, tasks[..|tasks| - 1], key, Get(m, key), v);
    } else {
      MixStepOther(tasks, m, key, v, k);
    }
  }

  /** The counted key's new count, with `init` the tasks before the last one
      and `e` its entry before counting. */
  lemma MixStepSame(tasks: seq<Task>, init: seq<Task>, key: string, e: Option<nat>, v: nat)
    requires e == CountEntry(init, key) && v == e.GetOr(0) + 1
    requires CountKey(tasks, key) == CountKey(init, key) + 1
    ensures Some(v) == CountEntry(tasks, key)
  {
    EntryGetOr(init, key);
    EntryPositive(tasks, key);
  }

  lemma EntryGetOr(tasks: seq<Task>, key: string)
    ensures CountEntry(tasks, key).GetOr(0) == CountKey(tasks, key)
  {
  }

  lemma EntryPositive(tasks: seq<Task>, key: string)
    requires CountKey(tasks, key) > 0
    ensures CountEntry(tasks, key) == Some(CountKey(tasks, key))
  {
  }

  lemma MixStepOther(tasks: seq<Task>, m: seq<(string, nat)>, key: string, v: nat, k: string)
    requires |tasks| > 0 && k != key
    requires Get(m, k) == CountEntry(tasks[..|tasks| - 1], k)
    requires key == MixKey(tasks[|tasks| - 1])
    requires CountKey(tasks, k) == CountKey(tasks[..|tasks| - 1], k)
    ensures Get(Put(m, key, v), k) == CountEntry(tasks, k)
  {
  }

  /** What `provider_mix` holds for a key: its count, or nothing when no task uses it. */
  function CountEntry(tasks: seq<Task>, key: string): Option<nat> {
    if CountKey(tasks, key) == 0 then None else Some(CountKey(tasks, key))
  }

  function CountComplex(tasks: seq<Task>): (n: nat)
    ensures n <= |tasks|
    decreases |tasks|
  {
    if |tasks| == 0 then 0
    else (if tasks[0].taskType in ComplexTaskTypes then 1 else 0) + CountComplex(tasks[1..])
  }

  /** `TierCostEstimate` without its float cost figures. */
  datatype TierEstimate = TierEstimate(
    taskCount: nat, complexCount: nat, simpleCount: nat,
    providerMix: seq<(string, nat)>, costDrivers: seq<string>, savings: seq<string>)

  function ComplexDriver(c: nat): string {
    NatToString(c) + " complex tasks using higher-tier provider"
  }

  function SimpleDriver(s: nat): string {
    NatToString(s) + " simple tasks using cost-efficient provider"
  }

  const ComplexSaving := "Consider if any complex tasks can be simplified to use cheaper provider"
  const SimpleSaving := "Batch simple tasks where possible to reduce overhead"

  /** `_estimate_cost`'s counts, mix, drivers and savings advice. */
  function EstimateCost(tasks: seq<Task>): (r: TierEstimate)
    ensures r.taskCount == |tasks| == r.complexCount + r.simpleCount
    ensures r.complexCount == CountComplex(tasks)
    ensures forall key :: Get(r.providerMix, key).Some? <==> CountKey(tasks, key) > 0
    ensures |r.costDrivers| == (if r.complexCount > 0 then 1 else 0) + (if r.simpleCount > 0 then 1 else 0)
    ensures |r.savings| == (if r.complexCount > 2 then 1 else 0) + (if r.simpleCount > 5 then 1 else 0)
  {
    var c := CountComplex(tasks);
    var s := |tasks| - c;
    var drivers := (if c > 0 then [ComplexDriver(c)] else []) + (if s > 0 then [SimpleDriver(s)] else []);
    var savings := (if c > 2 then [ComplexSaving] else []) + (if s > 5 then [SimpleSaving] else []);
    TierEstimate(|tasks|, c, s, ProviderMix(tasks), drivers, savings)
  }

  // ---------------------------------------------------------------------------
  // The whole decomposition
  // ---------------------------------------------------------------------------

  /** The id, tier and creation time `decompose` stamps on each parsed task: task `i` takes the
      `i`-th id (`generate_id("task")`) and the `i`-th clock reading (`datetime.now()`). */
  function Stamp(tasks: seq<Task>, ids: nat -> string, tier: int, clock: nat -> string): (r: seq<Task>)
    ensures |r| == |tasks|
    ensures forall i :: 0 <= i < |tasks| ==>
      r[i] == tasks[i].(taskId := ids(i), buildTier := tier, createdAt := clock(i))
  {
    seq(|tasks|, i requires 0 <= i < |tasks| => tasks[i].(taskId := ids(i), buildTier := tier, createdAt := clock(i)))
  }

  /** With distinct ids drawn, the stamped tasks have pairwise distinct ids, and their
      dependency lists and names are those parsed. */
  lemma StampDistinctIds(tasks: seq<Task>, ids: nat -> string, tier: int, clock: nat -> string)
    requires forall i, j :: 0 <= i < j < |tasks| ==> ids(i) != ids(j)
    ensures var r := Stamp(tasks, ids, tier, clock);
      (forall i, j :: 0 <= i < j < |r| ==> r[i].taskId != r[j].taskId) &&
      (forall i :: 0 <= i < |r| ==> r[i].dependsOn == tasks[i].dependsOn && r[i].taskName == tasks[i].taskName)
  {
    var r := Stamp(tasks, ids, tier, clock);
    forall i, j | 0 <= i < j < |r| ensures r[i].taskId != r[j].taskId {
      assert r[i].taskId == ids(i) && r[j].taskId == ids(j);
    }
  }

  /** `decompose` on the architect's reply `content`: parse, stamp ids (from `ids`, standing
      for `generate_id("task")`, and creation times from `clock`), resolve and level, assign
      providers, estimate. */
  method Decompose(content: string, ex: Extractors, ids: nat -> string, tier: int, clock: nat -> string, roles: Roles)
    returns (r: Result<(seq<Task>, TierEstimate), CycleError>)
    ensures r.Success? ==> |r.value.0| == |Headers(Classify(SplitLines(content)))| == r.value.1.taskCount
    ensures r.Success? ==> forall k1, k2 :: 0 <= k1 <= k2 < |r.value.0| ==>
      r.value.0[k1].parallelGroup <= r.value.0[k2].parallelGroup
    ensures r.Failure? <==>
      HasCycle(DepGraph(ResolvePlaceholders(Stamp(ParseTaskContracts(content, ex), ids, tier, clock))))
  {
    var parsed := ParseTaskContracts(content, ex);
    var stamped := Stamp(parsed, ids, tier, clock);
    var resolved, lv := ResolveDependencies(stamped);
    match resolved
    case Failure(e) =>
      r := Failure(e);
    case Success(ordered) =>
      ArrangeSorted(ResolvePlaceholders(stamped), lv);
      var labelled := AssignProviders(ordered, roles);
      r := Success((labelled, EstimateCost(labelled)));
  }
}
