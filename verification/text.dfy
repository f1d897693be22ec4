/** String helpers with the semantics of the Python `str` methods the orchestrator uses:
    strip/lstrip, lower/upper, `in` (substring), split/splitlines/join, isdigit/int/str.
    Characters are compared as ASCII: non-ASCII case mappings and Unicode whitespace
    and digits are outside this model. */
module Text {
  import opened Wrappers

  // ---------------------------------------------------------------------------
  // Whitespace and stripping
  // ---------------------------------------------------------------------------

  /** The ASCII characters str.strip(), str.split() and `\s` treat as whitespace: space, tab,
      the line and form feeds, carriage return, and the four separators 0x1C-0x1F. */
  predicate IsSpace(c: char) {
    c == ' ' || c == '\t' || c == '\n' || c == '\r' || c == '\U{000B}' || c == '\U{000C}' ||
    ('\U{001C}' <= c <= '\U{001F}')
  }

  predicate IsBlank(s: string) {
    forall i :: 0 <= i < |s| ==> IsSpace(s[i])
  }

  /** str.lstrip() */
  function LStrip(s: string): (r: string)
    ensures |r| <= |s| && r == s[|s| - |r|..]
    ensures r == [] || !IsSpace(r[0])
    ensures forall i :: 0 <= i < |s| - |r| ==> IsSpace(s[i])
  {
    if |s| > 0 && IsSpace(s[0]) then LStrip(s[1..]) else s
  }

  /** str.rstrip() */
  function RStrip(s: string): (r: string)
    ensures |r| <= |s| && r == s[..|r|]
    ensures r == [] || !IsSpace(r[|r| - 1])
    ensures forall i :: |r| <= i < |s| ==> IsSpace(s[i])
  {
    if |s| > 0 && IsSpace(s[|s| - 1]) then RStrip(s[..|s| - 1]) else s
  }

  /** str.strip() */
  function Strip(s: string): (r: string)
    ensures r == [] <==> IsBlank(s)
  {
    RStrip(LStrip(s))
  }

  /** Text without whitespace at either end is its own strip. */
  lemma StripUnchanged(s: string)
    requires s != [] && !IsSpace(s[0]) && !IsSpace(s[|s| - 1])
    ensures Strip(s) == s
  {
  }

  /** str.strip() leaves no whitespace at either end. */
  lemma StripEnds(s: string)
    ensures var r := Strip(s); r == [] || (!IsSpace(r[0]) && !IsSpace(r[|r| - 1]))
  {
    var l := LStrip(s);
    var r := RStrip(l);
    if r != [] {
      assert r[0] == l[0];
    }
  }

  /** str.strip() is idempotent. */
  lemma StripIdempotent(s: string)
    ensures Strip(Strip(s)) == Strip(s)
  {
    var r := Strip(s);
    StripEnds(s);
    if r != [] {
      assert LStrip(r) == r;
      assert RStrip(r) == r;
    }
  }

  /** Each string stripped, in order: `[x.strip() for x in xs]`. */
  function StripAll(xs: seq<string>): (r: seq<string>)
    ensures |r| == |xs|
  {
    if |xs| == 0 then [] else [Strip(xs[0])] + StripAll(xs[1..])
  }

  /** The k-th stripped string is the k-th string stripped. */
  lemma {:induction false} StripAllAt(xs: seq<string>, k: nat)
    requires k < |xs|
    ensures StripAll(xs)[k] == Strip(xs[k])
    decreases k
  {
    if k > 0 {
      StripAllAt(xs[1..], k - 1);
    }
  }

  /** Appending a whitespace character moves only the end of a non-blank string. */
  lemma {:induction false} LStripAppendSpace(s: string, c: char)
    requires IsSpace(c)
    ensures IsBlank(s) ==> LStrip(s + [c]) == []
    ensures !IsBlank(s) ==> LStrip(s + [c]) == LStrip(s) + [c]
    decreases |s|
  {
    if |s| > 0 {
      assert (s + [c])[1..] == s[1..] + [c];
      LStripAppendSpace(s[1..], c);
    }
  }

  /** A trailing newline does not survive str.strip(). */
  lemma StripAppendNewline(s: string)
    ensures Strip(s + "\n") == Strip(s)
  {
    LStripAppendSpace(s, '\n');
    if !IsBlank(s) {
      RStripAppendNewline(LStrip(s));
    }
  }

  /** str.lstrip() drops exactly the leading whitespace before position `a`. */
  lemma {:induction false} LStripAt(s: string, a: nat)
    requires a <= |s| && (forall i :: 0 <= i < a ==> IsSpace(s[i])) && (a == |s| || !IsSpace(s[a]))
    ensures LStrip(s) == s[a..]
    decreases a
  {
    if a > 0 {
      LStripAt(s[1..], a - 1);
      assert s[1..][a - 1..] == s[a..];
    }
  }

  /** str.rstrip() drops exactly the trailing whitespace from position `b` on. */
  lemma {:induction false} RStripAt(s: string, b: nat)
    requires b <= |s| && (forall i :: b <= i < |s| ==> IsSpace(s[i])) && (b == 0 || !IsSpace(s[b - 1]))
    ensures RStrip(s) == s[..b]
    decreases |s| - b
  {
    if b < |s| {
      RStripAt(s[..|s| - 1], b);
      assert s[..|s| - 1][..b] == s[..b];
    }
  }

  /** str.rstrip() of a suffix ends where the suffix's trailing whitespace starts. */
  lemma RStripOfSuffix(s: string, a: nat, b: nat)
    requires a < b <= |s|
    requires (forall i :: b <= i < |s| ==> IsSpace(s[i])) && !IsSpace(s[b - 1])
    ensures RStrip(s[a..]) == s[a..b]
  {
    var l := s[a..];
    forall i | b - a <= i < |l| ensures IsSpace(l[i]) {
      assert l[i] == s[a + i];
    }
    RStripAt(l, b - a);
    assert l[..b - a] == s[a..b];
  }

  /** str.strip() keeps exactly the text from the first to the last non-whitespace character. */
  lemma StripAt(s: string, a: nat, b: nat)
    requires a < b <= |s|
    requires (forall i :: 0 <= i < a ==> IsSpace(s[i])) && !IsSpace(s[a])
    requires (forall i :: b <= i < |s| ==> IsSpace(s[i])) && !IsSpace(s[b - 1])
    ensures Strip(s) == s[a..b]
  {
    LStripAt(s, a);
    RStripOfSuffix(s, a, b);
  }

  /** Stripping what str.lstrip() left is str.strip() of the whole. */
  lemma StripOfLStrip(s: string)
    ensures Strip(LStrip(s)) == Strip(s)
  {
    LStripAt(LStrip(s), 0);
  }

  /** The first and last non-whitespace positions of a non-blank string. */
  lemma StripBounds(s: string) returns (a: nat, b: nat)
    requires !IsBlank(s)
    ensures a < b <= |s| && b == |RStrip(s)|
    ensures (forall i :: 0 <= i < a ==> IsSpace(s[i])) && !IsSpace(s[a])
    ensures (forall i :: b <= i < |s| ==> IsSpace(s[i])) && !IsSpace(s[b - 1])
  {
    var k :| 0 <= k < |s| && !IsSpace(s[k]);
    a := FirstNonSpace(s, k);
    b := LastNonSpace(s, k);
  }

  /** str.lstrip() stops at or before any non-whitespace position `k`. */
  lemma FirstNonSpace(s: string, k: nat) returns (a: nat)
    requires k < |s| && !IsSpace(s[k])
    ensures a <= k && (forall i :: 0 <= i < a ==> IsSpace(s[i])) && !IsSpace(s[a])
  {
    var l := LStrip(s);
    a := |s| - |l|;
    assert a <= k;
    assert l[0] == s[a];
  }

  /** str.rstrip() keeps every non-whitespace position `k`. */
  lemma LastNonSpace(s: string, k: nat) returns (b: nat)
    requires k < |s| && !IsSpace(s[k])
    ensures k < b <= |s| && b == |RStrip(s)|
    ensures (forall i :: b <= i < |s| ==> IsSpace(s[i])) && !IsSpace(s[b - 1])
  {
    var r := RStrip(s);
    b := |r|;
    assert k < b;
    assert r[b - 1] == s[b - 1];
  }

  /** Stripping what str.rstrip() left is str.strip() of the whole. */
  lemma StripOfRStrip(s: string)
    ensures Strip(RStrip(s)) == Strip(s)
  {
    var r := RStrip(s);
    if IsBlank(s) {
      if |r| > 0 {
        assert r[|r| - 1] == s[|r| - 1];
      }
    } else {
      var a, b := StripBounds(s);
      StripAt(s, a, b);
      StripOfPrefix(s, r, a, b);
    }
  }

  /** A prefix that keeps the non-blank middle of `s` strips to the same text. */
  lemma StripOfPrefix(s: string, r: string, a: nat, b: nat)
    requires a < b == |r| <= |s| && r == s[..b]
    requires (forall i :: 0 <= i < a ==> IsSpace(s[i])) && !IsSpace(s[a]) && !IsSpace(s[b - 1])
    ensures Strip(r) == s[a..b]
  {
    forall i | 0 <= i < a ensures IsSpace(r[i]) {
      assert r[i] == s[i];
    }
    assert r[a] == s[a] && r[b - 1] == s[b - 1];
    StripAt(r, a, b);
    assert r[a..b] == s[a..b];
  }

  /** str.lstrip() of a concatenation whose first part is not blank only touches that part. */
  lemma {:induction false} LStripConcat(a: string, b: string)
    requires !IsBlank(a)
    ensures LStrip(a + b) == LStrip(a) + b
    decreases |a|
  {
    var s := a + b;
    assert s[0] == a[0];
    if IsSpace(a[0]) {
      assert s[1..] == a[1..] + b;
      var k :| 0 <= k < |a| && !IsSpace(a[k]);
      assert a[1..][k - 1] == a[k];
      LStripConcat(a[1..], b);
    }
  }

  /** str.rstrip() of a concatenation whose last part is not blank only touches that part. */
  lemma RStripConcat(a: string, b: string)
    requires !IsBlank(b)
    ensures RStrip(a + b) == a + RStrip(b)
  {
    var k :| 0 <= k < |b| && !IsSpace(b[k]);
    var j := LastNonSpace(b, k);
    var s := a + b;
    forall i | |a| + j <= i < |s| ensures IsSpace(s[i]) {
      assert s[i] == b[i - |a|];
    }
    assert s[|a| + j - 1] == b[j - 1];
    RStripAt(s, |a| + j);
    assert s[..|a| + j] == a + b[..j];
  }

  /** A trailing newline never survives str.rstrip(). */
  lemma RStripAppendNewline(s: string)
    ensures RStrip(s + "\n") == RStrip(s)
  {
    assert (s + "\n")[..|s|] == s;
  }

  /** str.lstrip(chars) */
  function LStripChars(s: string, cs: set<char>): (r: string)
    ensures |r| <= |s| && r == s[|s| - |r|..]
    ensures r == [] || r[0] !in cs
    ensures forall i :: 0 <= i < |s| - |r| ==> s[i] in cs
  {
    if |s| > 0 && s[0] in cs then LStripChars(s[1..], cs) else s
  }

  // ---------------------------------------------------------------------------
  // Case mapping
  // ---------------------------------------------------------------------------

  function LowerChar(c: char): char {
    if 'A' <= c <= 'Z' then (c as int + 32) as char else c
  }

  function UpperChar(c: char): char {
    if 'a' <= c <= 'z' then (c as int - 32) as char else c
  }

  /** str.lower() on ASCII letters */
  function Lower(s: string): (r: string)
    ensures |r| == |s|
    ensures forall i :: 0 <= i < |s| ==> r[i] == LowerChar(s[i])
  {
    seq(|s|, i requires 0 <= i < |s| => LowerChar(s[i]))
  }

  /** str.upper() on ASCII letters */
  function Upper(s: string): (r: string)
    ensures |r| == |s|
    ensures forall i :: 0 <= i < |s| ==> r[i] == UpperChar(s[i])
  {
    seq(|s|, i requires 0 <= i < |s| => UpperChar(s[i]))
  }

  lemma LowerAppend(a: string, b: string)
    ensures Lower(a + b) == Lower(a) + Lower(b)
  {
  }

  // ---------------------------------------------------------------------------
  // Substring search (`sub in s`, str.find)
  // ---------------------------------------------------------------------------

  /** `sub` occurs in `s` at position `i`. */
  predicate OccursAt(s: string, sub: string, i: int) {
    0 <= i && i + |sub| <= |s| && s[i..i + |sub|] == sub
  }

  /** Python's `sub in s`. */
  predicate Contains(s: string, sub: string)
    decreases |s|
  {
    sub <= s || (|s| > 0 && Contains(s[1..], sub))
  }

  lemma {:induction false} ContainsIff(s: string, sub: string)
    ensures Contains(s, sub) <==> exists i :: OccursAt(s, sub, i)
    decreases |s|
  {
    if sub <= s {
      assert OccursAt(s, sub, 0);
    } else if |s| > 0 {
      ContainsIff(s[1..], sub);
      if exists i :: OccursAt(s[1..], sub, i) {
        var i :| OccursAt(s[1..], sub, i);
        assert s[1..][i..i + |sub|] == s[i + 1..i + 1 + |sub|];
        assert OccursAt(s, sub, i + 1);
      }
      if exists i :: OccursAt(s, sub, i) {
        var i :| OccursAt(s, sub, i);
        if i > 0 {
          assert s[1..][i - 1..i - 1 + |sub|] == s[i..i + |sub|];
          assert OccursAt(s[1..], sub, i - 1);
        }
      }
    }
  }

  /** A string occurs in any string built around it. */
  lemma ContainsInfix(a: string, sub: string, b: string)
    ensures Contains(a + sub + b, sub)
  {
    var s := a + sub + b;
    assert s[|a|..|a| + |sub|] == sub;
    assert OccursAt(s, sub, |a|);
    ContainsIff(s, sub);
  }

  /** The first occurrence of `sub` in `s` at or after `from` (str.find with a start). */
  function FindFrom(s: string, sub: string, from: nat): (r: Option<nat>)
    requires from <= |s|
    ensures r.Some? ==> from <= r.value && OccursAt(s, sub, r.value)
    ensures r.Some? ==> forall j :: from <= j < r.value ==> !OccursAt(s, sub, j)
    ensures r.None? ==> forall j :: from <= j ==> !OccursAt(s, sub, j)
    decreases |s| - from
  {
    if OccursAt(s, sub, from) then Some(from)
    else if from == |s| then None
    else FindFrom(s, sub, from + 1)
  }

  /** str.find(sub), with `None` for -1. */
  function Find(s: string, sub: string): (r: Option<nat>)
    ensures r.Some? ==> OccursAt(s, sub, r.value) && forall j :: 0 <= j < r.value ==> !OccursAt(s, sub, j)
    ensures r.None? ==> forall j :: !OccursAt(s, sub, j)
  {
    FindFrom(s, sub, 0)
  }

  lemma FindIffContains(s: string, sub: string)
    ensures Find(s, sub).Some? <==> Contains(s, sub)
  {
    ContainsIff(s, sub);
  }

  predicate EndsWith(s: string, suffix: string) {
    |suffix| <= |s| && s[|s| - |suffix|..] == suffix
  }

  // ---------------------------------------------------------------------------
  // Splitting and joining
  // ---------------------------------------------------------------------------

  /** str.split(c) for a one-character separator: always at least one piece. */
  function SplitOn(s: string, c: char): (r: seq<string>)
    ensures |r| >= 1
    ensures forall k :: 0 <= k < |r| ==> c !in r[k]
    decreases |s|
  {
    if |s| == 0 then [""]
    else
      var rest := SplitOn(s[1..], c);
      if s[0] == c then [""] + rest else [[s[0]] + rest[0]] + rest[1..]
  }

  /** sep.join(parts) */
  function Join(parts: seq<string>, sep: string): string
    decreases |parts|
  {
    if |parts| == 0 then ""
    else if |parts| == 1 then parts[0]
    else parts[0] + sep + Join(parts[1..], sep)
  }

  lemma {:induction false} SplitOnPrefix(a: string, c: char, b: string)
    requires c !in a
    ensures SplitOn(a + [c] + b, c) == [a] + SplitOn(b, c)
    decreases |a|
  {
    if |a| == 0 {
      assert a + [c] + b == [c] + b;
      assert ([c] + b)[1..] == b;
    } else {
      SplitOnPrefix(a[1..], c, b);
      assert (a + [c] + b)[1..] == a[1..] + [c] + b;
      assert [a[0]] + a[1..] == a;
    }
  }

  lemma {:induction false} SplitOnNoSep(a: string, c: char)
    requires c !in a
    ensures SplitOn(a, c) == [a]
    decreases |a|
  {
    if |a| > 0 {
      SplitOnNoSep(a[1..], c);
      assert [a[0]] + a[1..] == a;
    }
  }

  /** Splitting a join on a character that no part contains gives the parts back. */
  lemma {:induction false} SplitJoin(parts: seq<string>, c: char)
    requires |parts| >= 1
    requires forall k :: 0 <= k < |parts| ==> c !in parts[k]
    ensures SplitOn(Join(parts, [c]), c) == parts
    decreases |parts|
  {
    if |parts| == 1 {
      SplitOnNoSep(parts[0], c);
    } else {
      SplitJoin(parts[1..], c);
      SplitOnPrefix(parts[0], c, Join(parts[1..], [c]));
      assert [parts[0]] + parts[1..] == parts;
    }
  }

  /** `s.split(c, 1)` when `c` occurs in `s`: the text before and after its first occurrence. */
  function SplitFirst(s: string, c: char): (r: (string, string))
    requires c in s
    ensures s == r.0 + [c] + r.1 && c !in r.0
  {
    if s[0] == c then ("", s[1..])
    else
      var t := SplitFirst(s[1..], c);
      ([s[0]] + t.0, t.1)
  }

  /** str.splitlines() for '\n'-terminated lines: a final newline does not open an empty line. */
  function SplitLines(s: string): (r: seq<string>)
    ensures forall k :: 0 <= k < |r| ==> '\n' !in r[k]
    ensures s == [] ==> r == []
  {
    var ps := SplitOn(s, '\n');
    if ps[|ps| - 1] == "" then ps[..|ps| - 1] else ps
  }

  lemma SplitLinesOfJoin(lines: seq<string>)
    requires |lines| >= 1 && lines[|lines| - 1] != ""
    requires forall k :: 0 <= k < |lines| ==> '\n' !in lines[k]
    ensures SplitLines(Join(lines, "\n")) == lines
  {
    JoinLinesSplitsBack(lines);
    SplitLinesOfPieces(Join(lines, "\n"), lines);
  }

  lemma JoinLinesSplitsBack(lines: seq<string>)
    requires |lines| >= 1
    requires forall k :: 0 <= k < |lines| ==> '\n' !in lines[k]
    ensures SplitOn(Join(lines, "\n"), '\n') == lines
  {
    assert "\n" == ['\n'];
    SplitJoin(lines, '\n');
  }

  /** A text whose last line is not empty splits into all its pieces. */
  lemma SplitLinesOfPieces(s: string, lines: seq<string>)
    requires SplitOn(s, '\n') == lines && lines[|lines| - 1] != ""
    ensures SplitLines(s) == lines
  {
  }

  /** The longest prefix of `s` made of non-space characters. */
  function TakeWord(s: string): (r: string)
    ensures r <= s
    ensures forall i :: 0 <= i < |r| ==> !IsSpace(r[i])
    ensures |r| < |s| ==> IsSpace(s[|r|])
  {
    if |s| == 0 || IsSpace(s[0]) then "" else [s[0]] + TakeWord(s[1..])
  }

  /** A non-empty run of non-space characters. */
  predicate IsWord(w: string) {
    w != [] && forall i :: 0 <= i < |w| ==> !IsSpace(w[i])
  }

  /** str.split() with no argument: the maximal runs of non-space characters. */
  function Words(s: string): (r: seq<string>)
    ensures forall k :: 0 <= k < |r| ==> IsWord(r[k])
    decreases |s|
  {
    var t := LStrip(s);
    if t == [] then []
    else
      var w := TakeWord(t);
      assert |w| >= 1 by { assert !IsSpace(t[0]); }
      var rest := Words(t[|w|..]);
      AllWordsCons(w, rest);
      [w] + rest
  }

  lemma AllWordsCons(w: string, rest: seq<string>)
    requires IsWord(w) && forall k :: 0 <= k < |rest| ==> IsWord(rest[k])
    ensures forall k :: 0 <= k < |[w] + rest| ==> IsWord(([w] + rest)[k])
  {
  }

  // ---------------------------------------------------------------------------
  // Decimal digits
  // ---------------------------------------------------------------------------

  predicate IsDigit(c: char) {
    '0' <= c <= '9'
  }

  /** str.isdigit() on ASCII: non-empty and digits only. */
  predicate IsDigits(s: string) {
    |s| > 0 && forall i :: 0 <= i < |s| ==> IsDigit(s[i])
  }

  /** int(s) for a string of decimal digits (leading zeros allowed). */
  function DigitsValue(s: string): nat
    requires forall i :: 0 <= i < |s| ==> IsDigit(s[i])
    decreases |s|
  {
    if |s| == 0 then 0
    else
      assert IsDigit(s[|s| - 1]);
      DigitsValue(s[..|s| - 1]) * 10 + (s[|s| - 1] as int - '0' as int)
  }

  function DigitChar(d: nat): char
    requires d < 10
  {
    ('0' as int + d) as char
  }

  /** str(n) for a natural number. */
  function NatToString(n: nat): (r: string)
    ensures IsDigits(r)
    decreases n
  {
    if n < 10 then [DigitChar(n)] else NatToString(n / 10) + [DigitChar(n % 10)]
  }

  /** str(i) for any integer. */
  function IntToString(i: int): string {
    if i >= 0 then NatToString(i) else "-" + NatToString(-i)
  }

  /** int(str(n)) == n */
  lemma {:induction false} NatToStringRoundTrip(n: nat)
    ensures DigitsValue(NatToString(n)) == n
    decreases n
  {
    if n >= 10 {
      NatToStringRoundTrip(n / 10);
      var s := NatToString(n);
      assert s[..|s| - 1] == NatToString(n / 10);
    }
  }

  /** The longest prefix of `s` made of decimal digits. */
  function LeadingDigits(s: string): (r: string)
    ensures r <= s
    ensures forall i :: 0 <= i < |r| ==> IsDigit(r[i])
    ensures |r| < |s| ==> !IsDigit(s[|r|])
  {
    if |s| == 0 || !IsDigit(s[0]) then "" else [s[0]] + LeadingDigits(s[1..])
  }

  /** re.findall(r'\d+', s): the maximal runs of digits, left to right. */
  function DigitRuns(s: string): (r: seq<string>)
    ensures forall k :: 0 <= k < |r| ==> IsDigits(r[k])
    ensures r == [] <==> forall i :: 0 <= i < |s| ==> !IsDigit(s[i])
    decreases |s|
  {
    if |s| == 0 then []
    else if IsDigit(s[0]) then
      var d := LeadingDigits(s);
      [d] + DigitRuns(s[|d|..])
    else
      var rest := DigitRuns(s[1..]);
      assert forall i :: 1 <= i < |s| ==> s[i] == s[1..][i - 1];
      rest
  }
}
