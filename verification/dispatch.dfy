/** Builder dispatch: which role configuration a task runs under, how a builder's reply becomes
    an output manifest, and the group-by-group dispatch of the whole task queue.
    The builder session (a language-model call), `json.loads` and the code-block extractor are
    parameters; the files written along the way are not modelled. `asyncio.gather` over one
    group is a map in queue order. */
module Dispatch {
  import opened Wrappers
  import opened Text
  import opened Values
  import opened Models
  import opened Kahn
  import opened Decomposer

  // ---------------------------------------------------------------------------
  // Role configuration
  // ---------------------------------------------------------------------------

  /** The configuration used when no `builder_complex` role is configured. */
  const DefaultRole := RoleConfig("anthropic", "claude-sonnet-4-5-20250929")

  /** A role's provider claims a task's provider tag: it is non-empty and occurs in the tag. */
  predicate Claims(cfg: RoleConfig, tag: string) {
    cfg.provider != "" && Contains(tag, cfg.provider)
  }

  /** `Get` finds an entry that is really in the list. */
  lemma {:induction false} GetFound<T>(l: seq<(string, T)>, k: string)
    requires Get(l, k).Some?
    ensures exists i :: 0 <= i < |l| && l[i] == (k, Get(l, k).value)
    decreases |l|
  {
    if l[0].0 != k {
      GetFound(l[1..], k);
      var i :| 0 <= i < |l[1..]| && l[1..][i] == (k, Get(l[1..], k).value);
      assert l[i + 1] == l[1..][i];
    }
  }

  /** `_get_role_config`: the role named by the task's provider tag; otherwise the first of
      `builder_complex` and `builder_simple` whose provider occurs in the tag; otherwise the
      `builder_complex` role, or the default when there is none. */
  function GetRoleConfig(t: Task, roles: Roles): (r: RoleConfig)
    ensures var named := Get(roles, t.assignedProvider);
      var complex := RoleSettings(roles, BUILDER_COMPLEX);
      var simple := RoleSettings(roles, BUILDER_SIMPLE);
      && (named.Some? ==> r == named.value)
      && (named.None? && Claims(complex, t.assignedProvider) ==> r == complex)
      && (named.None? && !Claims(complex, t.assignedProvider) && Claims(simple, t.assignedProvider) ==> r == simple)
      && (named.None? && !Claims(complex, t.assignedProvider) && !Claims(simple, t.assignedProvider) ==>
            r == Get(roles, BUILDER_COMPLEX).GetOr(DefaultRole))
    ensures r == DefaultRole || exists i :: 0 <= i < |roles| && roles[i].1 == r
  {
    var tag := t.assignedProvider;
    var complex := RoleSettings(roles, BUILDER_COMPLEX);
    var simple := RoleSettings(roles, BUILDER_SIMPLE);
    if Get(roles, tag).Some? then
      GetFound(roles, tag);
      Get(roles, tag).value
    else if Claims(complex, tag) then
      GetFound(roles, BUILDER_COMPLEX);
      complex
    else if Claims(simple, tag) then
      GetFound(roles, BUILDER_SIMPLE);
      simple
    else if Get(roles, BUILDER_COMPLEX).Some? then
      GetFound(roles, BUILDER_COMPLEX);
      Get(roles, BUILDER_COMPLEX).value
    else DefaultRole
  }

  // ---------------------------------------------------------------------------
  // Parsing a builder's reply
  // ---------------------------------------------------------------------------

  const JsonFence := "```json"
  const Fence := "```"

  /** After the whitespace run that starts at `p`, the position just past its last newline:
      where `\s*\n` leaves a fenced block's body to begin. */
  function BodyStart(s: string, p: nat): (r: Option<nat>)
    requires p <= |s|
    ensures r.Some? ==> p < r.value <= |s|
    decreases |s| - p
  {
    if p < |s| && IsSpace(s[p]) then
      match BodyStart(s, p + 1)
      case Some(q) => Some(q)
      case None => if s[p] == '\n' then Some(p + 1) else None
    else None
  }

  /** What `\s*\n` consumes: whitespace only, ending in a newline, and no newline in the
      whitespace left after it. */
  lemma {:induction false} BodyStartShape(s: string, p: nat)
    requires p <= |s| && BodyStart(s, p).Some?
    ensures var q := BodyStart(s, p).value;
      && s[q - 1] == '\n'
      && (forall j :: p <= j < q ==> IsSpace(s[j]))
      && (forall j :: q <= j < |s| && (forall m :: q <= m <= j ==> IsSpace(s[m])) ==> s[j] != '\n')
    decreases |s| - p
  {
    var q := BodyStart(s, p).value;
    var next := BodyStart(s, p + 1);
    if next.Some? {
      BodyStartShape(s, p + 1);
    } else {
      BodyStartNone(s, p + 1);
    }
  }

  /** With no body start after `p`, no newline follows within the whitespace run from `p`. */
  lemma {:induction false} BodyStartNone(s: string, p: nat)
    requires p <= |s| && BodyStart(s, p).None?
    ensures forall j :: p <= j < |s| && (forall m :: p <= m <= j ==> IsSpace(s[m])) ==> s[j] != '\n'
    decreases |s| - p
  {
    if p < |s| && IsSpace(s[p]) {
      BodyStartNone(s, p + 1);
    }
  }

  /** `re.findall(r"```json\s*\n(.*?)```", s, re.DOTALL)` from position `from`: the bodies of
      the fenced json blocks, each ending at the first fence after it begins. */
  function JsonBlocks(s: string, from: nat): (r: seq<string>)
    requires from <= |s|
    decreases |s| - from
  {
    match FindFrom(s, JsonFence, from)
    case None => []
    case Some(i) =>
      match BodyStart(s, i + |JsonFence|)
      case None => JsonBlocks(s, i + 1)
      case Some(st) =>
        match FindFrom(s, Fence, st)
        case None => JsonBlocks(s, i + 1)
        case Some(e) => [s[st..e]] + JsonBlocks(s, e + |Fence|)
  }

  /** Text without an opening json fence holds no blocks. */
  lemma JsonBlocksNone(s: string, from: nat)
    requires from <= |s|
    requires forall j :: from <= j ==> !OccursAt(s, JsonFence, j)
    ensures JsonBlocks(s, from) == []
  {
  }

  /** No fence occurs inside the text. */
  predicate FenceFree(b: string) {
    forall j :: 0 <= j < |b| ==> !OccursAt(b, Fence, j)
  }

  /** Text that stops at the first fence after its start holds no fence. */
  lemma BodyFenceFree(s: string, st: nat, e: nat)
    requires st <= |s| && FindFrom(s, Fence, st) == Some(e)
    ensures e <= |s| && FenceFree(s[st..e])
  {
    assert OccursAt(s, Fence, e);
    forall j | 0 <= j < e - st && OccursAt(s[st..e], Fence, j) ensures false {
      assert j + |Fence| <= e - st;
      var w := s[st..e][j..j + |Fence|];
      var v := s[st + j..st + j + |Fence|];
      forall m | 0 <= m < |w| ensures w[m] == v[m] {
      }
      assert w == v;
      assert OccursAt(s, Fence, st + j);
    }
  }

  /** The last '{' at or before position `i` (the backward walk of strategy 2). */
  function LastBraceAtOrBefore(s: string, i: int): (r: Option<nat>)
    requires i < |s|
    ensures r.Some? ==> r.value <= i && s[r.value] == '{' && forall j :: r.value < j <= i ==> s[j] != '{'
    ensures r.None? ==> forall j :: 0 <= j <= i ==> s[j] != '{'
    decreases i + 1
  {
    if i < 0 then None
    else if s[i] == '{' then Some(i)
    else LastBraceAtOrBefore(s, i - 1)
  }

  const TaskIdKey := "\"task_id\""
  const ArtifactsKey := "\"artifacts\""

  /** The brace before the first `"task_id"`, or failing that before the first `"artifacts"`. */
  function ObjectStart(s: string): (r: Option<nat>)
    ensures r.Some? ==> r.value < |s| && s[r.value] == '{'
  {
    var first := match Find(s, TaskIdKey)
      case Some(i) => LastBraceAtOrBefore(s, i)
      case None => None;
    if first.Some? then first
    else
      match Find(s, ArtifactsKey)
      case Some(i) => LastBraceAtOrBefore(s, i)
      case None => None
  }

  function BraceDelta(c: char): int {
    if c == '{' then 1 else if c == '}' then -1 else 0
  }

  /** Opening minus closing braces. */
  function Depth(t: string): int
    decreases |t|
  {
    if |t| == 0 then 0 else BraceDelta(t[0]) + Depth(t[1..])
  }

  /** The depth-counting scan: the position of the '}' that brings the depth back to zero. */
  function CloseFrom(s: string, i: nat, depth: int): (r: Option<nat>)
    requires i <= |s|
    ensures r.Some? ==> i <= r.value < |s| && s[r.value] == '}'
    decreases |s| - i
  {
    if i == |s| then None
    else if s[i] == '{' then CloseFrom(s, i + 1, depth + 1)
    else if s[i] == '}' then (if depth - 1 == 0 then Some(i) else CloseFrom(s, i + 1, depth - 1))
    else CloseFrom(s, i + 1, depth)
  }

  /** From a positive depth, the scan stops exactly where the depth first returns to zero. */
  lemma {:induction false} CloseFromBalanced(s: string, i: nat, depth: int)
    requires i <= |s| && depth >= 1
    ensures CloseFrom(s, i, depth).Some? ==>
      depth + Depth(s[i..CloseFrom(s, i, depth).value + 1]) == 0 &&
      forall k :: i <= k <= CloseFrom(s, i, depth).value ==> depth + Depth(s[i..k]) >= 1
    ensures CloseFrom(s, i, depth).None? ==> forall k :: i <= k <= |s| ==> depth + Depth(s[i..k]) >= 1
    decreases |s| - i
  {
    if i < |s| {
      var d' := depth + BraceDelta(s[i]);
      forall k | i < k <= |s| ensures Depth(s[i..k]) == BraceDelta(s[i]) + Depth(s[i + 1..k]) {
        assert s[i..k][1..] == s[i + 1..k];
      }
      if s[i] == '}' && depth - 1 == 0 {
        assert s[i..i + 1][1..] == [];
      } else {
        CloseFromBalanced(s, i + 1, d');
      }
    }
  }

  /** The candidate object of strategy 2 is the shortest brace-balanced text from its '{'. */
  lemma CandidateBalanced(s: string, start: nat)
    requires start < |s| && s[start] == '{'
    requires CloseFrom(s, start, 0).Some?
    ensures Depth(s[start..CloseFrom(s, start, 0).value + 1]) == 0
    ensures forall k :: start < k <= CloseFrom(s, start, 0).value ==> Depth(s[start..k]) >= 1
  {
    var e := CloseFrom(s, start, 0).value;
    CloseFromBalanced(s, start + 1, 1);
    forall k | start < k <= |s| ensures Depth(s[start..k]) == 1 + Depth(s[start + 1..k]) {
      assert s[start..k][1..] == s[start + 1..k];
    }
  }

  /** `data.setdefault("task_id", task_id)` on a dictionary. */
  function WithTaskId(d: Value, taskId: string): (r: Value)
    requires d.Dict?
    ensures r.Dict? && "task_id" in r.fields
    ensures "task_id" in d.fields ==> r == d
    ensures "task_id" !in d.fields ==> r.fields == d.fields["task_id" := Str(taskId)]
  {
    if "task_id" in d.fields then d
    else Dict(d.keys + ["task_id"], d.fields["task_id" := Str(taskId)])
  }

  /** A parsed dictionary without a task id gets the dispatched task's id. */
  lemma WithTaskIdFills(d: Value, taskId: string)
    requires d.Dict? && "task_id" !in d.fields
    ensures ManifestFromDict(WithTaskId(d, taskId)).taskId == taskId
  {
    assert ManifestKeys[0] == "task_id";
  }

  /** Strategy 3: a manifest carrying only the task id. */
  function Fallback(taskId: string): Manifest {
    Manifest(taskId, "", "", [], [], [], TokenUsage(0, 0, "", ""))
  }

  /** A parsed value that strategy 1 accepts: a dictionary naming a task id or artifacts. */
  predicate LooksLikeManifest(v: Value) {
    v.Dict? && ("task_id" in v.fields || "artifacts" in v.fields)
  }

  /** Strategy 1 takes the block: its stripped text parses to a manifest-like dictionary. */
  predicate Accepted(block: string, loads: string -> Option<Value>) {
    loads(Strip(block)).Some? && LooksLikeManifest(loads(Strip(block)).value)
  }

  /** The manifest of a parsed dictionary, with the task id filled in when missing. */
  function ManifestOf(d: Value, taskId: string): Manifest
    requires d.Dict?
  {
    ManifestFromDict(WithTaskId(d, taskId))
  }

  /** The position of the first block strategy 1 accepts at or after `i`. */
  function FirstAccepted(blocks: seq<string>, loads: string -> Option<Value>, i: nat): (r: Option<nat>)
    requires i <= |blocks|
    ensures r.Some? ==> i <= r.value < |blocks| && Accepted(blocks[r.value], loads)
    ensures r.None? ==> forall j :: i <= j < |blocks| ==> !Accepted(blocks[j], loads)
    decreases |blocks| - i
  {
    if i == |blocks| then None
    else if Accepted(blocks[i], loads) then Some(i)
    else FirstAccepted(blocks, loads, i + 1)
  }

  /** No block between `i` and the position found is accepted. */
  lemma {:induction false} FirstAcceptedLeast(blocks: seq<string>, loads: string -> Option<Value>, i: nat)
    requires i <= |blocks|
    ensures var r := FirstAccepted(blocks, loads, i);
      r.Some? ==> forall j :: i <= j < r.value ==> !Accepted(blocks[j], loads)
    decreases |blocks| - i
  {
    if i < |blocks| && !Accepted(blocks[i], loads) {
      var r := FirstAccepted(blocks, loads, i + 1);
      assert FirstAccepted(blocks, loads, i) == r;
      FirstAcceptedLeast(blocks, loads, i + 1);
      if r.Some? {
        forall j | i <= j < r.value
          ensures !Accepted(blocks[j], loads)
        {
          if j > i { assert i + 1 <= j < r.value; }
        }
      }
    }
  }

  /** Strategy 1: the first fenced block that parses to a manifest-like dictionary. */
  function FromBlocks(blocks: seq<string>, taskId: string, loads: string -> Option<Value>): (r: Option<Manifest>)
    ensures r.None? <==> forall k :: 0 <= k < |blocks| ==> !Accepted(blocks[k], loads)
  {
    match FirstAccepted(blocks, loads, 0)
    case None => None
    case Some(k) => Some(ManifestOf(loads(Strip(blocks[k])).value, taskId))
  }

  /** Strategy 1 returns the manifest of the first accepted block. */
  lemma FromBlocksFirst(blocks: seq<string>, taskId: string, loads: string -> Option<Value>, k: nat)
    requires k < |blocks| && Accepted(blocks[k], loads)
    requires forall j :: 0 <= j < k ==> !Accepted(blocks[j], loads)
    ensures FromBlocks(blocks, taskId, loads) == Some(ManifestOf(loads(Strip(blocks[k])).value, taskId))
  {
    var f := FirstAccepted(blocks, loads, 0);
    FirstAcceptedLeast(blocks, loads, 0);
    assert f.Some?;
    assert f.value == k;
  }

  /** The text strategy 2 hands to `json.loads`: from the brace before the first manifest key to
      the brace that balances it. */
  function Candidate(text: string): Option<string> {
    match ObjectStart(text)
    case None => None
    case Some(start) =>
      match CloseFrom(text, start, 0)
      case None => None
      case Some(e) => Some(text[start..e + 1])
  }

  /** Text that opens with '{', closes with '}', and balances its braces there and nowhere
      earlier. */
  predicate ObjectShaped(c: string) {
    && |c| >= 2 && c[0] == '{' && c[|c| - 1] == '}'
    && Depth(c) == 0 && forall k :: 0 < k < |c| ==> Depth(c[..k]) >= 1
  }

  /** The candidate opens with a brace at or before the first manifest key and is the shortest
      brace-balanced text from there. */
  lemma CandidateShape(text: string)
    requires Candidate(text).Some?
    ensures ObjectShaped(Candidate(text).value)
  {
    match ObjectStart(text)
    case Some(start) =>
      match CloseFrom(text, start, 0)
      case Some(e) => ClosedSliceShape(text, start, e);
  }

  /** The slice from an opening brace to the brace that balances it has the candidate's shape. */
  lemma ClosedSliceShape(text: string, start: nat, e: nat)
    requires start < |text| && text[start] == '{' && CloseFrom(text, start, 0) == Some(e)
    ensures ObjectShaped(text[start..e + 1])
  {
    CandidateBalanced(text, start);
    BalancedSliceShape(text, start, e);
  }

  /** A slice from a '{' to a '}' that balances only at its end has the candidate's shape. */
  lemma BalancedSliceShape(text: string, start: nat, e: nat)
    requires start <= e < |text| && text[start] == '{' && text[e] == '}'
    requires Depth(text[start..e + 1]) == 0
    requires forall k :: start < k <= e ==> Depth(text[start..k]) >= 1
    ensures ObjectShaped(text[start..e + 1])
  {
    var c := text[start..e + 1];
    forall k | 0 < k < |c| ensures Depth(c[..k]) >= 1 {
      assert c[..k] == text[start..start + k];
    }
  }

  /** Strategy 2: the candidate object, if `json.loads` makes a dictionary of it. */
  function FromObject(text: string, taskId: string, loads: string -> Option<Value>): (r: Option<Manifest>)
    ensures r.Some? <==>
      Candidate(text).Some? && loads(Candidate(text).value).Some? && loads(Candidate(text).value).value.Dict?
    ensures r.Some? ==> r.value == ManifestOf(loads(Candidate(text).value).value, taskId)
  {
    match Candidate(text)
    case None => None
    case Some(c) =>
      var v := loads(c);
      if v.Some? && v.value.Dict? then Some(ManifestOf(v.value, taskId)) else None
  }

  /** `parse_builder_output`: never fails. The first accepted fenced block wins; failing that,
      the candidate object if it parses to a dictionary; failing both, the fallback. */
  function ParseBuilderOutput(text: string, taskId: string, loads: string -> Option<Value>): (r: Manifest)
    ensures var blocks := JsonBlocks(text, 0);
      && ((exists k :: 0 <= k < |blocks| && Accepted(blocks[k], loads)) ==>
            r == FromBlocks(blocks, taskId, loads).value)
      && ((forall k :: 0 <= k < |blocks| ==> !Accepted(blocks[k], loads)) && FromObject(text, taskId, loads).Some? ==>
            r == FromObject(text, taskId, loads).value)
      && ((forall k :: 0 <= k < |blocks| ==> !Accepted(blocks[k], loads)) && FromObject(text, taskId, loads).None? ==>
            r == Fallback(taskId))
    ensures r == Fallback(taskId) ||
      exists s :: loads(s).Some? && loads(s).value.Dict? && r == ManifestOf(loads(s).value, taskId)
    ensures (forall s :: loads(s).None?) ==> r == Fallback(taskId)
  {
    match FromBlocks(JsonBlocks(text, 0), taskId, loads)
    case Some(m) => m
    case None =>
      match FromObject(text, taskId, loads)
      case Some(m) => m
      case None => Fallback(taskId)
  }

  /** A reply that opens with a json fence around a manifest-like body, with any text after the
      closing fence, is read as that body's manifest. */
  lemma FencedManifest(body: string, post: string, taskId: string, loads: string -> Option<Value>)
    requires FenceFree(body) && (body == [] || (!IsSpace(body[0]) && body[|body| - 1] != '`'))
    requires Accepted(body, loads)
    ensures ParseBuilderOutput(JsonFence + "\n" + body + Fence + post, taskId, loads)
         == ManifestOf(loads(Strip(body)).value, taskId)
  {
    var text := JsonFence + "\n" + body + Fence + post;
    JsonBlockRoundTrip(body, post);
    var blocks := JsonBlocks(text, 0);
    assert blocks[0] == body;
    FromBlocksFirst(blocks, taskId, loads, 0);
  }

  /** The fenced-block reader finds a fence-free body written between a json fence (with its
      newline) and a closing fence, as the first block, whatever follows the closing fence. */
  lemma JsonBlockRoundTrip(body: string, post: string)
    requires FenceFree(body) && (body == [] || (!IsSpace(body[0]) && body[|body| - 1] != '`'))
    ensures var blocks := JsonBlocks(JsonFence + "\n" + body + Fence + post, 0);
      |blocks| > 0 && blocks[0] == body
  {
    var text := JsonFence + "\n" + body + Fence + post;
    OpeningFence(body, post);
    BodyAfterFence(body, post);
    ClosingFence(body, post);
    JsonBlocksFirst(text, 0, 0, 8, |body| + 8);
    assert text[8..|body| + 8] == body;
  }

  /** One block found: the fence at `i`, the body from `st` to the closing fence at `e`. */
  lemma JsonBlocksFirst(s: string, from: nat, i: nat, st: nat, e: nat)
    requires from <= |s|
    requires FindFrom(s, JsonFence, from) == Some(i)
    requires i + |JsonFence| <= |s| && BodyStart(s, i + |JsonFence|) == Some(st)
    requires FindFrom(s, Fence, st) == Some(e)
    ensures |JsonBlocks(s, from)| > 0 && JsonBlocks(s, from)[0] == s[st..e]
  {
    assert OccursAt(s, Fence, e);
    assert e + |Fence| <= |s|;
  }

  lemma OpeningFence(body: string, post: string)
    ensures FindFrom(JsonFence + "\n" + body + Fence + post, JsonFence, 0) == Some(0)
  {
    var text := JsonFence + "\n" + body + Fence + post;
    assert text[0..|JsonFence|] == JsonFence;
  }

  lemma BodyAfterFence(body: string, post: string)
    requires body == [] || !IsSpace(body[0])
    ensures BodyStart(JsonFence + "\n" + body + Fence + post, 7) == Some(8)
  {
    var text := JsonFence + "\n" + body + Fence + post;
    assert text[7] == '\n';
    assert text[8] == if body == [] then '`' else body[0];
    assert BodyStart(text, 8) == None;
  }

  lemma ClosingFence(body: string, post: string)
    requires FenceFree(body) && (body == [] || body[|body| - 1] != '`')
    ensures FindFrom(JsonFence + "\n" + body + Fence + post, Fence, 8) == Some(|body| + 8)
  {
    var text := JsonFence + "\n" + body + Fence + post;
    var e := |body| + 8;
    assert text[e..e + 3] == Fence;
    assert OccursAt(text, Fence, e);
    forall j | 8 <= j < e ensures !OccursAt(text, Fence, j) {
      NoFenceInBody(body, post, j);
    }
    var r := FindFrom(text, Fence, 8);
    assert r.Some? && r.value <= e;
  }

  lemma NoFenceInBody(body: string, post: string, j: nat)
    requires FenceFree(body) && (body == [] || body[|body| - 1] != '`')
    requires 8 <= j < |body| + 8
    ensures !OccursAt(JsonFence + "\n" + body + Fence + post, Fence, j)
  {
    var text := JsonFence + "\n" + body + Fence + post;
    if OccursAt(text, Fence, j) {
      if j + 3 <= |body| + 8 {
        assert text[j..j + 3] == body[j - 8..j - 5];
        assert OccursAt(body, Fence, j - 8);
      } else {
        FenceChar(text, j, |body| + 7);
      }
    }
  }

  /** Every character of a fence occurrence is a backtick. */
  lemma FenceChar(text: string, j: nat, k: nat)
    requires OccursAt(text, Fence, j) && j <= k < j + 3
    ensures text[k] == '`'
  {
    assert text[k] == text[j..j + 3][k - j];
  }

  /** An empty reply gives the fallback manifest. */
  lemma EmptyReplyFallback(taskId: string, loads: string -> Option<Value>)
    ensures ParseBuilderOutput("", taskId, loads) == Fallback(taskId)
  {
    assert Find("", TaskIdKey).None?;
    assert Find("", ArtifactsKey).None?;
  }

  // ---------------------------------------------------------------------------
  // Merging extracted code blocks into the manifest
  // ---------------------------------------------------------------------------

  /** `art.get("file") == path` for a dictionary artifact. */
  predicate NamesFile(art: Value, path: string) {
    art.Dict? && "file" in art.fields && art.fields["file"] == Str(path)
  }

  /** Some artifact names the path. */
  predicate Named(arts: seq<Value>, path: string) {
    exists i :: 0 <= i < |arts| && NamesFile(arts[i], path)
  }

  /** The entry added for a saved code block: `{"file": path, "implements": ""}`. */
  function FileEntry(path: string): (r: Value)
    ensures NamesFile(r, path)
  {
    Dict(["file", "implements"], map["file" := Str(path), "implements" := Str("")])
  }

  /** The artifact merge of `BuilderSession.dispatch`: each extracted path not yet named gets an
      entry at the end; existing entries stay as they are. */
  function MergeArtifacts(arts: seq<Value>, paths: seq<string>): (r: seq<Value>)
    ensures |arts| <= |r| <= |arts| + |paths|
    ensures r[..|arts|] == arts
    ensures forall p :: p in paths ==> Named(r, p)
    ensures forall p :: Named(arts, p) ==> Named(r, p)
    decreases |paths|
  {
    if |paths| == 0 then arts
    else
      var a := if Named(arts, paths[0]) then arts else arts + [FileEntry(paths[0])];
      assert Named(a, paths[0]) by {
        if !Named(arts, paths[0]) { assert NamesFile(a[|arts|], paths[0]); }
      }
      assert forall p :: Named(arts, p) ==> Named(a, p) by {
        forall p | Named(arts, p) ensures Named(a, p) {
          var i :| 0 <= i < |arts| && NamesFile(arts[i], p);
          assert a[i] == arts[i];
        }
      }
      var r := MergeArtifacts(a, paths[1..]);
      assert r[..|arts|] == arts by {
        assert r[..|a|] == a;
        assert a[..|arts|] == arts;
      }
      assert forall p :: p in paths <==> p == paths[0] || p in paths[1..];
      r
  }

  /** Every entry the merge adds names a path that no earlier entry names: nothing is added twice. */
  lemma {:induction false} MergeAddsOnlyNew(arts: seq<Value>, paths: seq<string>, i: int)
    requires |arts| <= i < |MergeArtifacts(arts, paths)|
    ensures exists p :: p in paths && MergeArtifacts(arts, paths)[i] == FileEntry(p) &&
                        !Named(MergeArtifacts(arts, paths)[..i], p)
    decreases |paths|
  {
    var r := MergeArtifacts(arts, paths);
    var a := if Named(arts, paths[0]) then arts else arts + [FileEntry(paths[0])];
    assert r == MergeArtifacts(a, paths[1..]);
    if i < |a| {
      assert r[..|a|] == a;
      assert r[i] == FileEntry(paths[0]);
      assert r[..i] == arts;
    } else {
      MergeAddsOnlyNew(a, paths[1..], i);
    }
  }

  /** The paths of the extracted (path, content) pairs. */
  function Paths(blocks: seq<(string, string)>): (r: seq<string>)
    ensures |r| == |blocks| && forall k :: 0 <= k < |r| ==> r[k] == blocks[k].0
  {
    seq(|blocks|, k requires 0 <= k < |blocks| => blocks[k].0)
  }

  // ---------------------------------------------------------------------------
  // Dispatching one task
  // ---------------------------------------------------------------------------

  /** What a builder session returns: its text, token counts and session id. */
  datatype Reply = Reply(content: string, inputTokens: int, outputTokens: int, sessionId: string)

  /** Everything outside the model: the builder, `json.loads`, `extract_code_artifacts` and the
      clock, read twice per dispatch position: reading `2k` for the `k`-th manifest, reading
      `2k + 1` for the `k`-th task. */
  datatype Env = Env(
    builder: (Task, RoleConfig) -> Reply,
    loads: string -> Option<Value>,
    codeBlocks: string -> seq<(string, string)>,
    now: nat -> string)

  /** A task after its dispatch. */
  function Done(t: Task, at: string): Task {
    t.(status := COMPLETED, completedAt := at)
  }

  /** `dispatch_single` as the `k`-th dispatch: the task is marked dispatched and handed to its
      builder under its role configuration; the manifest is stamped when the session returns,
      and the task is marked completed at a later clock reading. */
  function DispatchSingle(t: Task, roles: Roles, env: Env, k: nat): (r: (Task, Manifest))
    ensures r.0 == Done(t, env.now(2 * k + 1)) && r.1.completedAt == env.now(2 * k)
  {
    var cfg := GetRoleConfig(t, roles);
    var reply := env.builder(t.(status := DISPATCHED), cfg);
    var parsed := ParseBuilderOutput(reply.content, t.taskId, env.loads);
    var m := parsed.(builderSessionId := reply.sessionId, completedAt := env.now(2 * k),
                     tokenUsage := TokenUsage(reply.inputTokens, reply.outputTokens, cfg.provider, cfg.model),
                     artifacts := MergeArtifacts(parsed.artifacts, Paths(env.codeBlocks(reply.content))));
    (Done(t, env.now(2 * k + 1)), m)
  }

  /** The manifest of a dispatch keeps what the reply's manifest listed, names every code file
      the reply carried, and records the builder's session and token usage under the role
      configuration the task ran with. */
  lemma DispatchRecords(t: Task, roles: Roles, env: Env, k: nat)
    ensures var cfg := GetRoleConfig(t, roles);
      var reply := env.builder(t.(status := DISPATCHED), cfg);
      var parsed := ParseBuilderOutput(reply.content, t.taskId, env.loads);
      var m := DispatchSingle(t, roles, env, k).1;
      && m.artifacts[..|parsed.artifacts|] == parsed.artifacts
      && (forall p :: p in Paths(env.codeBlocks(reply.content)) ==> Named(m.artifacts, p))
      && m.tokenUsage == TokenUsage(reply.inputTokens, reply.outputTokens, cfg.provider, cfg.model)
      && m.builderSessionId == reply.sessionId
      && m.taskId == parsed.taskId && m.incomplete == parsed.incomplete
      && m.questionsForArchitect == parsed.questionsForArchitect
  {
  }

  // ---------------------------------------------------------------------------
  // Dispatch order
  // ---------------------------------------------------------------------------

  predicate Increasing(s: seq<int>) {
    forall i, j :: 0 <= i < j < |s| ==> s[i] < s[j]
  }

  /** Adds a group number to an increasing sequence of group numbers. */
  function InsertKey(keys: seq<int>, g: int): (r: seq<int>)
    requires Increasing(keys)
    ensures Increasing(r)
    ensures forall x :: x in r <==> x in keys || x == g
    decreases |keys|
  {
    if |keys| == 0 then [g]
    else if g < keys[0] then [g] + keys
    else if g == keys[0] then keys
    else
      var rest := InsertKey(keys[1..], g);
      assert forall x :: x in keys <==> x == keys[0] || x in keys[1..];
      assert forall x :: x in rest ==> keys[0] < x;
      var r := [keys[0]] + rest;
      assert forall j :: 1 <= j < |r| ==> r[j] == rest[j - 1] && rest[j - 1] in rest;
      r
  }

  /** `sorted(groups.keys())`: the queue's distinct parallel groups, ascending. */
  function GroupKeys(q: seq<Task>): (r: seq<int>)
    ensures Increasing(r)
    ensures forall g :: g in r <==> exists i :: 0 <= i < |q| && q[i].parallelGroup == g
    decreases |q|
  {
    if |q| == 0 then []
    else
      var init := q[..|q| - 1];
      var r := InsertKey(GroupKeys(init), q[|q| - 1].parallelGroup);
      assert forall i :: 0 <= i < |init| ==> init[i] == q[i];
      r
  }

  /** `groups[g]` from position `from` on: the queue positions in group `g`, ascending. */
  function GroupMembers(q: seq<Task>, g: int, from: nat): (r: seq<nat>)
    requires from <= |q|
    ensures forall i: nat :: i in r <==> from <= i < |q| && q[i].parallelGroup == g
    ensures forall k :: 0 <= k < |r| ==> from <= r[k]
    ensures forall a, b :: 0 <= a < b < |r| ==> r[a] < r[b]
    decreases |q| - from
  {
    if from == |q| then []
    else if q[from].parallelGroup == g then [from] + GroupMembers(q, g, from + 1)
    else GroupMembers(q, g, from + 1)
  }

  /** Queue positions ordered by (group, position): ascending groups, queue order within one. */
  predicate GroupOrdered(q: seq<Task>, order: seq<nat>) {
    Below(order, |q|) &&
    forall a, b :: 0 <= a < b < |order| && order[a] < |q| && order[b] < |q| ==>
      q[order[a]].parallelGroup < q[order[b]].parallelGroup ||
      (q[order[a]].parallelGroup == q[order[b]].parallelGroup && order[a] < order[b])
  }

  /** The members of the given groups, one group after another. */
  function Concat(q: seq<Task>, keys: seq<int>): (r: seq<nat>)
    ensures forall i: nat :: i in r <==> i < |q| && q[i].parallelGroup in keys
    decreases |keys|
  {
    if |keys| == 0 then []
    else
      assert forall x :: x in keys <==> x == keys[0] || x in keys[1..];
      GroupMembers(q, keys[0], 0) + Concat(q, keys[1..])
  }

  /** In an increasing sequence every later key is above the first. */
  lemma KeyAbove(keys: seq<int>, x: int)
    requires Increasing(keys) && |keys| > 0 && x in keys[1..]
    ensures keys[0] < x
  {
    var j :| 0 <= j < |keys[1..]| && keys[1..][j] == x;
    assert keys[j + 1] == x;
  }

  lemma {:induction false} ConcatOrdered(q: seq<Task>, keys: seq<int>)
    requires Increasing(keys)
    ensures GroupOrdered(q, Concat(q, keys))
    decreases |keys|
  {
    if |keys| > 0 {
      var A := GroupMembers(q, keys[0], 0);
      var B := Concat(q, keys[1..]);
      ConcatOrdered(q, keys[1..]);
      var r := A + B;
      assert r == Concat(q, keys);
      forall a, b | 0 <= a < b < |r| && r[a] < |q| && r[b] < |q|
        ensures q[r[a]].parallelGroup < q[r[b]].parallelGroup ||
                (q[r[a]].parallelGroup == q[r[b]].parallelGroup && r[a] < r[b])
      {
        if b < |A| {
          assert r[a] == A[a] && r[b] == A[b];
          assert A[a] in A && A[b] in A;
        } else if a < |A| {
          assert r[a] in A && r[b] == B[b - |A|] && B[b - |A|] in B;
          KeyAbove(keys, q[r[b]].parallelGroup);
        } else {
          assert r[a] == B[a - |A|] && r[b] == B[b - |A|];
        }
      }
      forall k | 0 <= k < |r| ensures r[k] < |q| {
        assert r[k] in r;
      }
    }
  }

  /** The members of all the queue's groups cover the queue exactly once. */
  lemma ConcatCovers(q: seq<Task>)
    ensures IsPermutation(Concat(q, GroupKeys(q)), |q|)
    ensures GroupOrdered(q, Concat(q, GroupKeys(q)))
  {
    var keys := GroupKeys(q);
    var r := Concat(q, keys);
    ConcatOrdered(q, keys);
    assert Distinct(r) by {
      forall a, b | 0 <= a < b < |r| ensures r[a] != r[b] {
        assert r[a] < |q| && r[b] < |q|;
      }
    }
    Pigeonhole(r, |q|);
  }

  /** The order `dispatch_all` dispatches in, as queue positions: every task exactly once,
      groups ascending, queue order within a group. */
  function DispatchOrder(q: seq<Task>): (r: seq<nat>)
    ensures IsPermutation(r, |q|)
    ensures GroupOrdered(q, r)
  {
    ConcatCovers(q);
    Concat(q, GroupKeys(q))
  }

  // ---------------------------------------------------------------------------
  // Dispatching the queue
  // ---------------------------------------------------------------------------

  /** `BuildResult` without its float cost. */
  datatype BuildResult = BuildResult(
    manifests: seq<Manifest>,
    totalInputTokens: int,
    totalOutputTokens: int,
    completedCount: int,
    failedCount: int,
    incompleteItems: seq<Value>,
    questionsForArchitect: seq<string>)

  const EmptyBuild := BuildResult([], 0, 0, 0, 0, [], [])

  function SumInput(ms: seq<Manifest>): int
    decreases |ms|
  {
    if |ms| == 0 then 0 else SumInput(ms[..|ms| - 1]) + ms[|ms| - 1].tokenUsage.input
  }

  function SumOutput(ms: seq<Manifest>): int
    decreases |ms|
  {
    if |ms| == 0 then 0 else SumOutput(ms[..|ms| - 1]) + ms[|ms| - 1].tokenUsage.output
  }

  function AllIncomplete(ms: seq<Manifest>): seq<Value>
    decreases |ms|
  {
    if |ms| == 0 then [] else AllIncomplete(ms[..|ms| - 1]) + ms[|ms| - 1].incomplete
  }

  function AllQuestions(ms: seq<Manifest>): seq<string>
    decreases |ms|
  {
    if |ms| == 0 then [] else AllQuestions(ms[..|ms| - 1]) + ms[|ms| - 1].questionsForArchitect
  }

  /** One more manifest extends each running total by that manifest's share. */
  lemma TotalsStep(ms: seq<Manifest>, k: nat)
    requires k < |ms|
    ensures SumInput(ms[..k + 1]) == SumInput(ms[..k]) + ms[k].tokenUsage.input
    ensures SumOutput(ms[..k + 1]) == SumOutput(ms[..k]) + ms[k].tokenUsage.output
    ensures AllIncomplete(ms[..k + 1]) == AllIncomplete(ms[..k]) + ms[k].incomplete
    ensures AllQuestions(ms[..k + 1]) == AllQuestions(ms[..k]) + ms[k].questionsForArchitect
  {
    assert ms[..k + 1][..k] == ms[..k];
  }

  /** The first `k` values sit at the positions the order names. */
  predicate Placed<T(==)>(u: seq<T>, order: seq<nat>, vals: seq<T>, k: nat) {
    k <= |order| && k <= |vals| && forall j :: 0 <= j < k ==> order[j] < |u| && u[order[j]] == vals[j]
  }

  /** Writing the next value at its position keeps the earlier ones, as the order never repeats. */
  lemma PlaceStep<T>(u: seq<T>, order: seq<nat>, vals: seq<T>, k: nat)
    requires Distinct(order) && Below(order, |u|) && k < |order| && k < |vals|
    requires Placed(u, order, vals, k)
    ensures Placed(u[order[k] := vals[k]], order, vals, k + 1)
  {
  }

  /** The totals of `BuildResult`: summed token counts, gathered incomplete items and questions,
      in manifest order. */
  method Totals(ms: seq<Manifest>) returns (totalIn: int, totalOut: int, incomplete: seq<Value>, questions: seq<string>)
    ensures totalIn == SumInput(ms) && totalOut == SumOutput(ms)
    ensures incomplete == AllIncomplete(ms) && questions == AllQuestions(ms)
  {
    totalIn, totalOut := 0, 0;
    incomplete, questions := [], [];
    var k := 0;
    while k < |ms|
      invariant 0 <= k <= |ms|
      invariant totalIn == SumInput(ms[..k]) && totalOut == SumOutput(ms[..k])
      invariant incomplete == AllIncomplete(ms[..k]) && questions == AllQuestions(ms[..k])
    {
      TotalsStep(ms, k);
      totalIn := totalIn + ms[k].tokenUsage.input;
      totalOut := totalOut + ms[k].tokenUsage.output;
      incomplete := incomplete + ms[k].incomplete;
      questions := questions + ms[k].questionsForArchitect;
      k := k + 1;
    }
    assert ms[..k] == ms;
  }

  /** Writes each value at the queue position the order gives it (`task.status = ...` on the
      queued task objects). */
  method PlaceAll<T(==)>(u: seq<T>, order: seq<nat>, vals: seq<T>) returns (r: seq<T>)
    requires IsPermutation(order, |u|) && |vals| == |order|
    ensures |r| == |u|
    ensures forall j :: 0 <= j < |order| ==> r[order[j]] == vals[j]
  {
    r := u;
    var k := 0;
    while k < |order|
      invariant 0 <= k <= |order| && |r| == |u|
      invariant Placed(r, order, vals, k)
    {
      PlaceStep(r, order, vals, k);
      r := r[order[k] := vals[k]];
      k := k + 1;
    }
  }

  /** Every queue position written with its own task, completed, leaves the whole queue completed. */
  lemma CompletedInPlace(q: seq<Task>, order: seq<nat>, done: seq<Task>, updated: seq<Task>)
    requires IsPermutation(order, |q|) && |done| == |order| && |updated| == |q|
    requires forall j :: 0 <= j < |order| ==> updated[order[j]] == done[j]
    requires forall j :: 0 <= j < |order| ==> done[j] == Done(q[order[j]], done[j].completedAt)
    ensures forall i :: 0 <= i < |q| ==> updated[i] == Done(q[i], updated[i].completedAt)
  {
    Pigeonhole(order, |q|);
    forall i | 0 <= i < |q| ensures updated[i] == Done(q[i], updated[i].completedAt) {
      assert i in order;
      var j :| 0 <= j < |order| && order[j] == i;
    }
  }

  /** The dispatches of the queue in dispatch order, the `k`-th at clock readings `2k` and `2k + 1`. */
  function Steps(q: seq<Task>, roles: Roles, env: Env): (r: seq<(Task, Manifest)>)
    ensures |r| == |q|
    ensures forall k :: 0 <= k < |q| ==> r[k] == DispatchSingle(q[DispatchOrder(q)[k]], roles, env, k)
    ensures forall k :: 0 <= k < |q| ==> r[k].0 == Done(q[DispatchOrder(q)[k]], env.now(2 * k + 1))
  {
    var order := DispatchOrder(q);
    seq(|order|, k requires 0 <= k < |order| => DispatchSingle(q[order[k]], roles, env, k))
  }

  function Firsts<A, B>(s: seq<(A, B)>): (r: seq<A>)
    ensures |r| == |s| && forall k :: 0 <= k < |s| ==> r[k] == s[k].0
  {
    seq(|s|, k requires 0 <= k < |s| => s[k].0)
  }

  function Seconds<A, B>(s: seq<(A, B)>): (r: seq<B>)
    ensures |r| == |s| && forall k :: 0 <= k < |s| ==> r[k] == s[k].1
  {
    seq(|s|, k requires 0 <= k < |s| => s[k].1)
  }

  /** The manifests of the dispatches in order, and each dispatched task completed. */
  method RunSteps(q: seq<Task>, roles: Roles, env: Env) returns (ms: seq<Manifest>, done: seq<Task>)
    ensures ms == Seconds(Steps(q, roles, env)) && |ms| == |q| && |done| == |q|
    ensures forall j :: 0 <= j < |q| ==> done[j] == Done(q[DispatchOrder(q)[j]], done[j].completedAt)
  {
    var steps := Steps(q, roles, env);
    ms := Seconds(steps);
    done := Firsts(steps);
  }

  /** `BuilderDispatcher.dispatch_all`: dispatches every queued task once, in `DispatchOrder`,
      and sums the token usage and gathers the questions and incomplete items of the manifests
      in that order. The queue's tasks come back completed. No dispatch fails in this model. */
  method DispatchAll(q: seq<Task>, roles: Roles, env: Env) returns (r: BuildResult, updated: seq<Task>)
    ensures |q| == 0 ==>
      && r.manifests == [] && r.totalInputTokens == 0 && r.totalOutputTokens == 0
      && r.incompleteItems == [] && r.questionsForArchitect == [] && updated == []
    ensures |r.manifests| == |q| && r.completedCount == |q| && r.failedCount == 0
    ensures r.manifests == Seconds(Steps(q, roles, env))
    ensures r.totalInputTokens == SumInput(r.manifests) && r.totalOutputTokens == SumOutput(r.manifests)
    ensures r.incompleteItems == AllIncomplete(r.manifests)
    ensures r.questionsForArchitect == AllQuestions(r.manifests)
    ensures |updated| == |q|
    ensures forall i :: 0 <= i < |q| ==> updated[i] == Done(q[i], updated[i].completedAt)
  {
    var order := DispatchOrder(q);
    var ms, done := RunSteps(q, roles, env);
    var totalIn, totalOut, incomplete, questions := Totals(ms);
    updated := PlaceAll(q, order, done);
    CompletedInPlace(q, order, done, updated);
    r := BuildResult(ms, totalIn, totalOut, |ms|, 0, incomplete, questions);
  }
}
