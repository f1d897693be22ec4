/** The Architect's journal: an append-only text file of entries separated by a line of
    sixty '=' characters, split back on any newline-bracketed run of at least fifty. */
module Journal {
  import opened Wrappers
  import opened Text

  // ---------------------------------------------------------------------------
  // Writing
  // ---------------------------------------------------------------------------

  /** `n` '=' characters. */
  function Bar(n: nat): (r: string)
    ensures |r| == n && forall i :: 0 <= i < n ==> r[i] == '='
  {
    seq(n, _ => '=')
  }

  /** The inter-entry separator: a newline, sixty '=', a newline. */
  function Separator(): string {
    "\n" + Bar(60) + "\n"
  }

  /** The default texts of the optional entry fields. */
  const NoOtherOptions := "None beyond presented options."
  const NoneYet := "None at this time."

  /** The entry template filled in; the date is supplied by the caller. */
  function FormatEntry(date: string, phase: string, tier: int, context: string, reasoning: string,
                       optionsExplored: string, openQuestions: string, concerns: string,
                       notes: string): (r: string)
    ensures EntryHeader() <= r && !IsBlank(r)
  {
    var rest := date + "\nPhase:      " + phase + "\nTier:       " + IntToString(tier)
      + Section("Context", context) + Section("Key reasoning", reasoning)
      + Section("Options explored", optionsExplored) + Section("Open questions", openQuestions)
      + Section("Concerns", concerns) + Section("Notes for next session", notes) + "\n";
    HeaderFirst(rest);
    EntryHeader() + rest
  }

  /** Whatever follows it, the header opens the text and its 'J' makes it non-blank. */
  lemma HeaderFirst(rest: string)
    ensures EntryHeader() <= EntryHeader() + rest && !IsBlank(EntryHeader() + rest)
  {
    assert (EntryHeader() + rest)[0] == 'J';
  }

  /** A blank line, a labelled heading and the indented value. */
  function Section(heading: string, value: string): string {
    "\n\n" + heading + ":\n  " + value
  }

  /** The first two lines of every entry and the start of its date line. */
  function EntryHeader(): string {
    "JOURNAL ENTRY\n=============\nDate:       "
  }

  /** An entry with the optional fields left at their defaults. */
  function FormatDefaultEntry(date: string, phase: string, tier: int, context: string,
                              reasoning: string): (r: string)
    ensures EntryHeader() <= r && !IsBlank(r)
  {
    FormatEntry(date, phase, tier, context, reasoning, NoOtherOptions, NoneYet, NoneYet, "")
  }

  /** The file content after appending `entry` to the journal `file` (None when it does not exist). */
  function AppendEntry(file: Option<string>, entry: string): (r: string)
    ensures var existing := if file.Some? then file.value else "";
      && existing <= r
      && EndsWith(r, entry + "\n")
      && (IsBlank(existing) ==> |r| == |existing| + |entry| + 1)
      && (!IsBlank(existing) ==> |r| == |existing| + |Separator()| + |entry| + 1
                                 && r[|existing|..|existing| + |Separator()|] == Separator())
  {
    var existing := if file.Some? then file.value else "";
    var separator := if !IsBlank(existing) then Separator() else "";
    existing + separator + entry + "\n"
  }

  /** The journal file after appending `entries` one by one, starting without a file. */
  function Written(entries: seq<string>): (r: Option<string>)
    ensures r.None? <==> entries == []
    decreases |entries|
  {
    if |entries| == 0 then None
    else Some(AppendEntry(Written(entries[..|entries| - 1]), entries[|entries| - 1]))
  }

  // ---------------------------------------------------------------------------
  // Reading: re.split(r"\n={50,}\n", text)
  // ---------------------------------------------------------------------------

  /** The number of leading '=' characters. */
  function RunLen(s: string): (n: nat)
    ensures n <= |s|
    ensures forall i :: 0 <= i < n ==> s[i] == '='
    ensures n < |s| ==> s[n] != '='
  {
    if |s| > 0 && s[0] == '=' then 1 + RunLen(s[1..]) else 0
  }

  /** The separator pattern matches at `i`: a newline, at least fifty '=', a newline.
      The greedy run cannot give back an '=' to make room for the closing newline. */
  predicate SepAt(t: string, i: nat) {
    i + 1 < |t| && t[i] == '\n'
    && var n := RunLen(t[i + 1..]);
       n >= 50 && i + 1 + n < |t| && t[i + 1 + n] == '\n'
  }

  /** One past the closing newline of the match at `i`. */
  function SepEnd(t: string, i: nat): (e: nat)
    requires SepAt(t, i)
    ensures i + 52 <= e <= |t|
  {
    i + 2 + RunLen(t[i + 1..])
  }

  /** The leftmost match at or after `from`. */
  function FirstSep(t: string, from: nat): (r: Option<nat>)
    ensures r.Some? ==> from <= r.value && SepAt(t, r.value)
    ensures r.Some? ==> forall j :: from <= j < r.value ==> !SepAt(t, j)
    ensures r.None? ==> forall j :: from <= j ==> !SepAt(t, j)
    decreases |t| - from
  {
    if from >= |t| then None
    else if SepAt(t, from) then Some(from)
    else FirstSep(t, from + 1)
  }

  /** The pieces of `t` between non-overlapping leftmost separator matches. */
  function SplitSeps(t: string): (r: seq<string>)
    ensures |r| >= 1
    decreases |t|
  {
    match FirstSep(t, 0)
    case None => [t]
    case Some(i) => [t[..i]] + SplitSeps(t[SepEnd(t, i)..])
  }

  /** A loaded entry: non-empty and already stripped. */
  predicate IsStripped(e: string) {
    e != [] && Strip(e) == e
  }

  /** `[e.strip() for e in pieces if e.strip()]` */
  function KeepStripped(pieces: seq<string>): (r: seq<string>)
    ensures |r| <= |pieces|
    ensures forall k :: 0 <= k < |r| ==> IsStripped(r[k])
  {
    if |pieces| == 0 then []
    else
      var head := Kept(pieces[0]);
      var tail := KeepStripped(pieces[1..]);
      AllStrippedConcat(head, tail);
      head + tail
  }

  lemma AllStrippedConcat(a: seq<string>, b: seq<string>)
    requires forall k :: 0 <= k < |a| ==> IsStripped(a[k])
    requires forall k :: 0 <= k < |b| ==> IsStripped(b[k])
    ensures forall k :: 0 <= k < |a + b| ==> IsStripped((a + b)[k])
  {
    forall k | 0 <= k < |a + b| ensures IsStripped((a + b)[k]) {
      if k >= |a| {
        assert (a + b)[k] == b[k - |a|];
      }
    }
  }

  /** `[p.strip()]` when that is non-empty, else nothing. */
  function Kept(p: string): (r: seq<string>)
    ensures |r| <= 1
    ensures |r| == 1 <==> !IsBlank(p)
    ensures forall k :: 0 <= k < |r| ==> IsStripped(r[k])
  {
    StripIdempotent(p);
    if IsBlank(p) then [] else [Strip(p)]
  }

  /** The entries of the journal `file`; a missing or blank file has none. */
  function LoadEntries(file: Option<string>): (r: seq<string>)
    ensures file.None? || IsBlank(file.value) ==> r == []
    ensures forall k :: 0 <= k < |r| ==> IsStripped(r[k])
  {
    match file
    case None => []
    case Some(content) =>
      var text := Strip(content);
      if |text| == 0 then [] else KeepStripped(SplitSeps(text))
  }

  /** Python's `xs[start:]` for any integer `start`, negative ones counting from the end. */
  function PySliceFrom<T>(xs: seq<T>, start: int): (r: seq<T>)
    ensures |r| <= |xs| && r == xs[|xs| - |r|..]
    ensures start >= 0 ==> |r| == if start <= |xs| then |xs| - start else 0
    ensures start < 0 ==> |r| == if -start <= |xs| then -start else |xs|
  {
    var k := if start < 0 then start + |xs| else start;
    var lo := if k < 0 then 0 else if k > |xs| then |xs| else k;
    xs[lo..]
  }

  /** load_recent_entries as written: `entries[-count:]`, which for count 0 is every entry. */
  function LoadRecentAsWritten(file: Option<string>, count: int): (r: seq<string>)
    ensures var es := LoadEntries(file); |r| <= |es| && r == es[|es| - |r|..]
  {
    PySliceFrom(LoadEntries(file), -count)
  }

  /** The last `count` entries, none for a count of zero or less. */
  function LoadRecent(file: Option<string>, count: int): (r: seq<string>)
    ensures var es := LoadEntries(file);
      && |r| == (if count <= 0 then 0 else if count < |es| then count else |es|)
      && r == es[|es| - |r|..]
  {
    var es := LoadEntries(file);
    if count <= 0 then [] else PySliceFrom(es, -count)
  }

  // ---------------------------------------------------------------------------
  // Round trip: what successive appends write, load_entries reads back
  // ---------------------------------------------------------------------------

  /** No run of fifty '=' anywhere, so no separator match can start inside the text. */
  predicate Clean(x: string) {
    forall i :: 0 <= i < |x| ==> RunLen(x[i..]) < 50
  }

  /** Entries the journal can hold: none blank, none containing a separator-length run. */
  predicate Writable(entries: seq<string>) {
    NoneBlank(entries) && forall i :: 0 <= i < |entries| ==> Clean(entries[i])
  }

  /** A run of '=' that reaches the end of `a` stops at the first character of `b`. */
  lemma RunLenConcat(a: string, b: string)
    requires b == [] || b[0] != '=' || (a != [] && a[|a| - 1] != '=')
    ensures RunLen(a + b) == RunLen(a)
  {
    var n := RunLen(a);
    var s := a + b;
    forall i | 0 <= i < n ensures s[i] == '=' {
      assert s[i] == a[i];
    }
    if n < |a| {
      assert s[n] == a[n];
    } else if n < |s| {
      assert s[n] == b[0];
    }
  }

  /** A run of '=' never grows when the text is cut short. */
  lemma RunLenPrefix(s: string, k: nat)
    requires k <= |s|
    ensures RunLen(s[..k]) <= RunLen(s)
  {
    var n := RunLen(s[..k]);
    var m := RunLen(s);
    if m < n {
      assert false;
    }
  }

  lemma CleanSuffix(x: string, k: nat)
    requires Clean(x) && k <= |x|
    ensures Clean(x[k..])
  {
    forall i | 0 <= i < |x| - k ensures RunLen(x[k..][i..]) < 50 {
      assert x[k..][i..] == x[k + i..];
    }
  }

  lemma CleanPrefix(x: string, k: nat)
    requires Clean(x) && k <= |x|
    ensures Clean(x[..k])
  {
    forall i | 0 <= i < k ensures RunLen(x[..k][i..]) < 50 {
      CleanPrefixAt(x, k, i);
    }
  }

  lemma CleanPrefixAt(x: string, k: nat, i: nat)
    requires i < k <= |x| && RunLen(x[i..]) < 50
    ensures RunLen(x[..k][i..]) < 50
  {
    assert x[..k][i..] == x[i..][..k - i];
    RunLenPrefix(x[i..], k - i);
  }

  /** Two clean texts joined where no run of '=' can cross the seam stay clean. */
  lemma CleanConcat(a: string, b: string)
    requires Clean(a) && Clean(b)
    requires (b != [] && b[0] != '=') || (a != [] && a[|a| - 1] != '=')
    ensures Clean(a + b)
  {
    forall i | 0 <= i < |a + b| ensures RunLen((a + b)[i..]) < 50 {
      if i < |a| {
        CleanConcatLeft(a, b, i);
      } else {
        CleanConcatRight(a, b, i);
      }
    }
  }

  lemma CleanConcatLeft(a: string, b: string, i: nat)
    requires Clean(a) && i < |a|
    requires (b != [] && b[0] != '=') || a[|a| - 1] != '='
    ensures RunLen((a + b)[i..]) < 50
  {
    assert (a + b)[i..] == a[i..] + b;
    assert a[i..][|a| - i - 1] == a[|a| - 1];
    RunLenConcat(a[i..], b);
  }

  lemma CleanConcatRight(a: string, b: string, i: nat)
    requires Clean(b) && |a| <= i < |a + b|
    ensures RunLen((a + b)[i..]) < 50
  {
    assert (a + b)[i..] == b[i - |a|..];
  }

  /** A clean text splits into itself alone. */
  lemma NoSepInClean(x: string)
    requires Clean(x)
    ensures SplitSeps(x) == [x]
  {
    forall j: nat ensures !SepAt(x, j) {
      if j + 1 < |x| {
        assert RunLen(x[j + 1..]) < 50;
      }
    }
  }

  /** No separator match starts inside a clean entry or at its closing newline. */
  lemma NoSepBefore(x: string, rest: string, j: nat)
    requires Clean(x) && j <= |x|
    ensures !SepAt(x + "\n" + Separator() + rest, j)
  {
    var t := x + "\n" + Separator() + rest;
    if j + 1 < |x| {
      assert t[j + 1..] == x[j + 1..] + ("\n" + Separator() + rest);
      RunLenConcat(x[j + 1..], "\n" + Separator() + rest);
      assert RunLen(x[j + 1..]) < 50;
    } else {
      assert t[j + 1] == '\n';
    }
  }

  /** A clean entry, its newline and a separator split off as one piece. */
  lemma SplitStep(x: string, rest: string)
    requires Clean(x)
    ensures SplitSeps(x + "\n" + Separator() + rest) == [x + "\n"] + SplitSeps(rest)
  {
    var t := x + "\n" + Separator() + rest;
    FirstSepAfterEntry(x, rest);
    SepAfterEntry(x, rest);
    PiecesAroundSep(x, rest);
  }

  /** The first separator match is the one right after the entry's newline. */
  lemma FirstSepAfterEntry(x: string, rest: string)
    requires Clean(x)
    ensures FirstSep(x + "\n" + Separator() + rest, 0) == Some(|x| + 1)
  {
    var t := x + "\n" + Separator() + rest;
    forall j: nat | j < |x| + 1 ensures !SepAt(t, j) {
      NoSepBefore(x, rest, j);
    }
    SepAfterEntry(x, rest);
  }

  /** The separator after the entry's newline matches exactly. */
  lemma SepAfterEntry(x: string, rest: string)
    ensures SepAt(x + "\n" + Separator() + rest, |x| + 1)
    ensures SepEnd(x + "\n" + Separator() + rest, |x| + 1) == |x| + 63
  {
    var t := x + "\n" + Separator() + rest;
    var m := |x| + 1;
    assert t[m + 1..] == Bar(60) + ("\n" + rest);
    RunLenConcat(Bar(60), "\n" + rest);
    assert t[m] == '\n' && t[m + 61] == '\n';
  }

  lemma PiecesAroundSep(x: string, rest: string)
    ensures (x + "\n" + Separator() + rest)[..|x| + 1] == x + "\n"
    ensures (x + "\n" + Separator() + rest)[|x| + 63..] == rest
  {
  }

  /** What ends with a non-blank entry and its newline is not blank. */
  lemma NotBlankEnding(r: string, entry: string)
    requires EndsWith(r, entry + "\n") && !IsBlank(entry)
    ensures !IsBlank(r)
  {
    var k :| 0 <= k < |entry| && !IsSpace(entry[k]);
    assert r[|r| - |entry| - 1 + k] == (entry + "\n")[k] == entry[k];
  }

  lemma WrittenNotBlank(entries: seq<string>)
    requires |entries| > 0 && !IsBlank(entries[|entries| - 1])
    ensures !IsBlank(Written(entries).value)
  {
    NotBlankEnding(Written(entries).value, entries[|entries| - 1]);
  }

  /** Appending to a non-blank journal writes the separator first. */
  lemma AppendOnto(existing: string, entry: string)
    requires !IsBlank(existing)
    ensures AppendEntry(Some(existing), entry) == existing + Tail(entry)
  {
  }

  /** What an append after a non-blank journal adds. */
  function Tail(entry: string): string {
    Separator() + entry + "\n"
  }

  /** None of the entries is blank. */
  predicate NoneBlank(entries: seq<string>) {
    forall i :: 0 <= i < |entries| ==> !IsBlank(entries[i])
  }

  lemma NoneBlankPrefix(entries: seq<string>, k: nat)
    requires NoneBlank(entries) && k <= |entries|
    ensures NoneBlank(entries[..k])
  {
    forall i | 0 <= i < k ensures !IsBlank(entries[..k][i]) {
      assert entries[..k][i] == entries[i];
    }
  }

  /** The first append to a missing file writes the entry and a newline. */
  lemma WrittenOne(x: string)
    ensures Written([x]).value == x + "\n"
  {
    assert [x][..0] == [];
  }

  /** The last append of a non-empty run of entries. */
  lemma WrittenSnoc(init: seq<string>, last: string)
    ensures Written(init + [last]).value == AppendEntry(Written(init), last)
  {
    assert (init + [last])[..|init|] == init;
  }

  lemma ConcatAssoc<T>(a: seq<T>, b: seq<T>, c: seq<T>)
    ensures (a + b) + c == a + (b + c)
  {
  }

  /** Reading the appends front to back: the first entry, its newline, a separator, the rest. */
  lemma {:induction false} WrittenCons(x: string, more: seq<string>)
    requires !IsBlank(x) && |more| > 0 && NoneBlank(more)
    ensures Written([x] + more).value == x + "\n" + Separator() + Written(more).value
    decreases |more|
  {
    var last := more[|more| - 1];
    var init := more[..|more| - 1];
    assert more == init + [last];
    assert [x] + more == ([x] + init) + [last];
    WrittenSnoc([x] + init, last);
    WrittenSnoc(init, last);
    var head := x + "\n" + Separator();
    if |init| == 0 {
      assert [x] + init == [x];
      WrittenOne(x);
      WrittenOne(last);
      NotBlankEnding(x + "\n", x);
      AppendOnto(x + "\n", last);
      ConcatAssoc(x + "\n", Separator(), last + "\n");
      ConcatAssoc(x, "\n", Separator());
      ConcatAssoc(Separator(), last, "\n");
    } else {
      NoneBlankPrefix(more, |more| - 1);
      WrittenCons(x, init);
      var wi := Written(init).value;
      WrittenNotBlank([x] + init);
      WrittenNotBlank(init);
      AppendOnto(Written([x] + init).value, last);
      AppendOnto(wi, last);
      ConcatAssoc(head, wi, Tail(last));
    }
  }

  /** Clean entries are split back apart after str.rstrip() of the whole file. */
  lemma {:induction false} TailRoundTrip(entries: seq<string>)
    requires |entries| > 0 && Writable(entries)
    ensures KeepStripped(SplitSeps(RStrip(Written(entries).value))) == StripAll(entries)
    decreases |entries|
  {
    var x := entries[0];
    if |entries| == 1 {
      assert entries == [x];
      TailOne(x);
    } else {
      var more := entries[1..];
      assert entries == [x] + more;
      TailRoundTrip(more);
      TailStep(x, more);
    }
  }

  /** The base case: a journal of one entry. */
  lemma TailOne(x: string)
    requires Writable([x])
    ensures KeepStripped(SplitSeps(RStrip(Written([x]).value))) == StripAll([x])
  {
    assert [x][..0] == [];
    assert Written([x]).value == x + "\n";
    RStripAppendNewline(x);
    var r := RStrip(x);
    CleanPrefix(x, |r|);
    NoSepInClean(r);
    StripOfRStrip(x);
    assert KeepStripped([r]) == Kept(r);
  }

  /** The step: one more entry in front of a journal that splits back correctly. */
  lemma TailStep(x: string, more: seq<string>)
    requires |more| > 0 && Writable([x] + more)
    requires KeepStripped(SplitSeps(RStrip(Written(more).value))) == StripAll(more)
    ensures KeepStripped(SplitSeps(RStrip(Written([x] + more).value))) == StripAll([x] + more)
  {
    WritableCons(x, more);
    TailSplit(x, more);
    KeepStrippedHead(x, SplitSeps(RStrip(Written(more).value)));
    var es := [x] + more;
    assert es[0] == x && es[1..] == more;
  }

  lemma WritableCons(x: string, more: seq<string>)
    requires |more| > 0 && Writable([x] + more)
    ensures Clean(x) && !IsBlank(x) && NoneBlank(more) && !IsBlank(more[|more| - 1])
  {
    var es := [x] + more;
    assert es[0] == x && es[|es| - 1] == more[|more| - 1];
    forall i | 0 <= i < |more| ensures !IsBlank(more[i]) {
      assert es[i + 1] == more[i];
    }
  }

  /** The file of one more entry splits into that entry with its newline, then the rest. */
  lemma TailSplit(x: string, more: seq<string>)
    requires Clean(x) && !IsBlank(x) && |more| > 0 && NoneBlank(more) && !IsBlank(more[|more| - 1])
    ensures SplitSeps(RStrip(Written([x] + more).value)) == [x + "\n"] + SplitSeps(RStrip(Written(more).value))
  {
    var w := Written(more).value;
    var a := x + "\n" + Separator();
    WrittenCons(x, more);
    WrittenNotBlank(more);
    RStripConcat(a, w);
    SplitStep(x, RStrip(w));
  }

  /** A non-blank entry with its newline is kept, stripped, in front of the rest. */
  lemma KeepStrippedHead(x: string, rest: seq<string>)
    requires !IsBlank(x)
    ensures KeepStripped([x + "\n"] + rest) == [Strip(x)] + KeepStripped(rest)
  {
    var pieces := [x + "\n"] + rest;
    assert pieces[0] == x + "\n" && pieces[1..] == rest;
    StripAppendNewline(x);
    assert !IsBlank(x + "\n") by {
      var k :| 0 <= k < |x| && !IsSpace(x[k]);
      assert (x + "\n")[k] == x[k];
    }
  }

  /** The first entry, its newline and a separator, regrouped around the first entry. */
  lemma Regroup(x: string, w: string)
    ensures x + "\n" + Separator() + w == x + ("\n" + Separator() + w)
  {
    ConcatAssoc(x + "\n", Separator(), w);
    ConcatAssoc(x, "\n", Separator() + w);
    ConcatAssoc("\n", Separator(), w);
  }

  /** Replacing the first entry by another writable one keeps the list writable. */
  lemma WritableNewHead(entries: seq<string>, y: string)
    requires |entries| > 0 && Writable(entries) && Clean(y) && !IsBlank(y)
    ensures Writable([y] + entries[1..])
  {
    var es := [y] + entries[1..];
    forall i | 1 <= i < |es| ensures es[i] == entries[i] {
    }
  }

  /** Replacing the first entry by one with the same stripped text keeps the stripped list. */
  lemma StripAllNewHead(entries: seq<string>, y: string)
    requires |entries| > 0 && Strip(y) == Strip(entries[0])
    ensures StripAll([y] + entries[1..]) == StripAll(entries)
  {
    assert ([y] + entries[1..])[1..] == entries[1..];
  }

  /** str.lstrip() of the file only reaches into the first entry. */
  lemma LStripWritten(x: string, more: seq<string>)
    requires !IsBlank(x) && NoneBlank(more)
    ensures LStrip(Written([x] + more).value) == Written([LStrip(x)] + more).value
  {
    if |more| == 0 {
      LStripWrittenOne(x);
      assert [x] + more == [x] && [LStrip(x)] + more == [LStrip(x)];
    } else {
      LStripWrittenMore(x, more);
    }
  }

  lemma LStripWrittenOne(x: string)
    requires !IsBlank(x)
    ensures LStrip(Written([x]).value) == Written([LStrip(x)]).value
  {
    WrittenOne(x);
    WrittenOne(LStrip(x));
    LStripConcat(x, "\n");
  }

  lemma LStripWrittenMore(x: string, more: seq<string>)
    requires !IsBlank(x) && |more| > 0 && NoneBlank(more)
    ensures LStrip(Written([x] + more).value) == Written([LStrip(x)] + more).value
  {
    var lx := LStrip(x);
    StripOfLStrip(x);
    var w := Written(more).value;
    WrittenCons(x, more);
    WrittenCons(lx, more);
    Regroup(x, w);
    Regroup(lx, w);
    LStripConcat(x, "\n" + Separator() + w);
  }

  /** The stripped file is the unstripped-at-the-front journal of the stripped first entry. */
  lemma StripWritten(entries: seq<string>)
    requires |entries| > 0 && Writable(entries)
    ensures var es := [LStrip(entries[0])] + entries[1..];
      && Writable(es)
      && StripAll(es) == StripAll(entries)
      && Strip(Written(entries).value) == RStrip(Written(es).value)
  {
    var lx := LStrip(entries[0]);
    assert !IsBlank(entries[0]) && Clean(entries[0]);
    LStripClean(entries[0]);
    WritableNewHead(entries, lx);
    StripOfLStrip(entries[0]);
    StripAllNewHead(entries, lx);
    StripWrittenFile(entries);
  }

  lemma LStripClean(x: string)
    requires Clean(x) && !IsBlank(x)
    ensures Clean(LStrip(x)) && !IsBlank(LStrip(x))
  {
    CleanSuffix(x, |x| - |LStrip(x)|);
  }

  lemma StripWrittenFile(entries: seq<string>)
    requires |entries| > 0 && NoneBlank(entries)
    ensures Strip(Written(entries).value) == RStrip(Written([LStrip(entries[0])] + entries[1..]).value)
  {
    NoneBlankSuffix(entries);
    HeadAndRest(entries);
    LStripWritten(entries[0], entries[1..]);
    StripIsBoth(Written(entries).value);
  }

  lemma HeadAndRest(entries: seq<string>)
    requires |entries| > 0
    ensures entries == [entries[0]] + entries[1..]
  {
  }

  lemma StripIsBoth(s: string)
    ensures Strip(s) == RStrip(LStrip(s))
  {
  }

  /** Entries written by successive appends load back stripped, in append order. */
  lemma LoadWritten(entries: seq<string>)
    requires Writable(entries)
    ensures LoadEntries(Written(entries)) == StripAll(entries)
  {
    if |entries| > 0 {
      StripWritten(entries);
      TailRoundTrip([LStrip(entries[0])] + entries[1..]);
      WrittenNotBlank(entries);
    }
  }

  lemma NoneBlankSuffix(entries: seq<string>)
    requires |entries| > 0 && NoneBlank(entries)
    ensures NoneBlank(entries[1..])
  {
    forall i | 0 <= i < |entries| - 1 ensures !IsBlank(entries[1..][i]) {
      assert entries[1..][i] == entries[i + 1];
    }
  }

  /** Appending one more entry adds exactly its stripped text at the end of the load. */
  lemma LoadAfterAppend(entries: seq<string>, entry: string)
    requires Writable(entries) && Clean(entry) && !IsBlank(entry)
    ensures LoadEntries(Some(AppendEntry(Written(entries), entry)))
         == LoadEntries(Written(entries)) + [Strip(entry)]
  {
    var es := entries + [entry];
    WrittenSnoc(entries, entry);
    WritableSnoc(entries, entry);
    LoadWritten(entries);
    LoadWritten(es);
    StripAllSnoc(entries, entry);
  }

  lemma WritableSnoc(entries: seq<string>, entry: string)
    requires Writable(entries) && Clean(entry) && !IsBlank(entry)
    ensures Writable(entries + [entry])
  {
    var es := entries + [entry];
    forall i | 0 <= i < |entries| ensures es[i] == entries[i] {
    }
  }

  lemma {:induction false} StripAllSnoc(entries: seq<string>, entry: string)
    ensures StripAll(entries + [entry]) == StripAll(entries) + [Strip(entry)]
    decreases |entries|
  {
    if |entries| > 0 {
      assert (entries + [entry])[1..] == entries[1..] + [entry];
      StripAllSnoc(entries[1..], entry);
    } else {
      assert entries + [entry] == [entry];
    }
  }

  /** Two appends to a missing file load back as the two entries, in order. */
  lemma TwoAppends(first: string, second: string)
    requires Clean(first) && !IsBlank(first) && Clean(second) && !IsBlank(second)
    ensures Written([first, second]) == Some(AppendEntry(Some(AppendEntry(None, first)), second))
    ensures var r := LoadEntries(Written([first, second]));
      |r| == 2 && r[0] == Strip(first) && r[1] == Strip(second)
  {
    WrittenPair(first, second);
    WritablePair(first, second);
    LoadWritten([first, second]);
    StripAllAt([first, second], 0);
    StripAllAt([first, second], 1);
  }

  lemma WrittenPair(first: string, second: string)
    ensures Written([first, second]) == Some(AppendEntry(Some(AppendEntry(None, first)), second))
  {
    var es := [first, second];
    assert es[..1] == [first] && [first][..0] == [];
  }

  lemma WritablePair(first: string, second: string)
    requires Clean(first) && !IsBlank(first) && Clean(second) && !IsBlank(second)
    ensures Writable([first, second])
  {
    var es := [first, second];
    forall i | 0 <= i < 2 ensures es[i] == first || es[i] == second {
    }
  }

  // ---------------------------------------------------------------------------
  // Formatted entries are writable
  // ---------------------------------------------------------------------------

  /** Text too short to hold fifty '=' is clean. */
  lemma ShortClean(x: string)
    requires |x| < 50
    ensures Clean(x)
  {
  }

  /** Text without any '=' is clean. */
  lemma NoEqualsClean(x: string)
    requires forall i :: 0 <= i < |x| ==> x[i] != '='
    ensures Clean(x)
  {
    forall i | 0 <= i < |x| ensures RunLen(x[i..]) < 50 {
      assert x[i..][0] == x[i];
    }
  }

  lemma IntToStringClean(n: int)
    ensures Clean(IntToString(n))
  {
    var s := IntToString(n);
    if n >= 0 {
      assert IsDigits(NatToString(n));
    } else {
      var d := NatToString(-n);
      assert IsDigits(d);
      forall i | 1 <= i < |s| ensures s[i] == d[i - 1] {
      }
    }
    NoEqualsClean(s);
  }

  lemma SectionClean(heading: string, value: string)
    requires |heading| < 40 && Clean(value)
    ensures Clean(Section(heading, value)) && Section(heading, value)[0] == '\n'
  {
    var head := "\n\n" + heading + ":\n  ";
    ShortClean(head);
    assert head[|head| - 1] == ' ';
    CleanConcat(head, value);
  }

  /** The header lines up to and including the tier are clean when the date and phase are. */
  lemma EntryHeadClean(date: string, phase: string, tier: int)
    requires Clean(date) && Clean(phase)
    ensures var h := date + "\nPhase:      " + phase + "\nTier:       " + IntToString(tier);
      Clean(h) && h[|h| - 1] != '='
  {
    var l1 := "\nPhase:      ";
    var l2 := "\nTier:       ";
    ShortClean(l1);
    ShortClean(l2);
    IntToStringClean(tier);
    CleanConcat(date, l1);
    assert (date + l1)[|date + l1| - 1] == ' ';
    CleanConcat(date + l1, phase);
    CleanConcat(date + l1 + phase, l2);
    var a := date + l1 + phase + l2;
    assert a[|a| - 1] == ' ';
    CleanConcat(a, IntToString(tier));
    var s := IntToString(tier);
    assert s != [] && s[|s| - 1] != '=' by {
      if tier >= 0 {
        assert IsDigits(NatToString(tier));
      } else {
        assert IsDigits(NatToString(-tier));
        assert s[|s| - 1] == NatToString(-tier)[|NatToString(-tier)| - 1];
      }
    }
    assert (a + s)[|a + s| - 1] == s[|s| - 1];
  }

  /** An entry whose fields hold no separator-length run of '=' can be written and read back. */
  lemma FormatEntryClean(date: string, phase: string, tier: int, context: string, reasoning: string,
                         optionsExplored: string, openQuestions: string, concerns: string,
                         notes: string)
    requires Clean(date) && Clean(phase) && Clean(context) && Clean(reasoning)
    requires Clean(optionsExplored) && Clean(openQuestions) && Clean(concerns) && Clean(notes)
    ensures Clean(FormatEntry(date, phase, tier, context, reasoning, optionsExplored,
                              openQuestions, concerns, notes))
  {
    var h := date + "\nPhase:      " + phase + "\nTier:       " + IntToString(tier);
    EntryHeadClean(date, phase, tier);
    var s1 := Section("Context", context);
    var s2 := Section("Key reasoning", reasoning);
    var s3 := Section("Options explored", optionsExplored);
    var s4 := Section("Open questions", openQuestions);
    var s5 := Section("Concerns", concerns);
    var s6 := Section("Notes for next session", notes);
    SectionClean("Context", context);
    SectionClean("Key reasoning", reasoning);
    SectionClean("Options explored", optionsExplored);
    SectionClean("Open questions", openQuestions);
    SectionClean("Concerns", concerns);
    SectionClean("Notes for next session", notes);
    CleanConcat(h, s1);
    CleanConcat(h + s1, s2);
    CleanConcat(h + s1 + s2, s3);
    CleanConcat(h + s1 + s2 + s3, s4);
    CleanConcat(h + s1 + s2 + s3 + s4, s5);
    CleanConcat(h + s1 + s2 + s3 + s4 + s5, s6);
    ShortClean("\n");
    CleanConcat(h + s1 + s2 + s3 + s4 + s5 + s6, "\n");
    var l0 := EntryHeader();
    ShortClean(l0);
    assert l0[|l0| - 1] == ' ';
    CleanConcat(l0, h + s1 + s2 + s3 + s4 + s5 + s6 + "\n");
  }

  // ---------------------------------------------------------------------------
  // Recent entries
  // ---------------------------------------------------------------------------

  /** As written, a count of zero returns the whole journal, not an empty list. */
  lemma RecentZeroAsWritten()
    ensures var file := Written(["first", "second"]);
      |LoadRecentAsWritten(file, 0)| == 2 && LoadRecent(file, 0) == []
  {
    ShortClean("first");
    ShortClean("second");
    assert !IsSpace("first"[0]) && !IsSpace("second"[0]);
    TwoAppends("first", "second");
  }

  /** For every positive count the corrected and the as-written versions agree. */
  lemma RecentAgrees(file: Option<string>, count: int)
    requires count > 0
    ensures LoadRecent(file, count) == LoadRecentAsWritten(file, count)
  {
  }

  /** Path components of the project's journal file below the projects directory. */
  function JournalPath(projectsDir: string, projectId: string): (r: seq<string>)
    ensures |r| == 3 && r[0] == projectsDir && r[1] == projectId
    ensures r[2] == "architect_journal.md"
  {
    [projectsDir, projectId, "architect_journal.md"]
  }
}
