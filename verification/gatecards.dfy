/** Reading the Architect's free-text replies: the clarifying questions, the gate-card options
    (`OPTION A: "Name"` headers with their labelled fields) and which option it recommends.
    The regular expressions of the original are written out as explicit searches. */
module GateCards {
  import opened Wrappers
  import opened Text
  import opened Models

  // ---------------------------------------------------------------------------
  // Clarifying questions
  // ---------------------------------------------------------------------------

  /** The characters `lstrip` removes from the front of a question: bullets, numbering, spaces. */
  const BulletChars: set<char> :=
    {'-', '*', '0', '1', '2', '3', '4', '5', '6', '7', '8', '9', '.', ')', ' '}

  /** `s.endswith(c)` for a one-character suffix. */
  predicate EndsWithChar(s: string, c: char) {
    s != [] && s[|s| - 1] == c
  }

  /** What every extracted question looks like: more than ten characters, ending in '?'. */
  predicate IsQuestionText(s: string) {
    |s| > 10 && EndsWithChar(s, '?')
  }

  /** A question line without its bullet or number prefix. */
  function CleanQuestion(line: string): string {
    Strip(LStripChars(Strip(line), BulletChars))
  }

  /** The question a line contributes: its cleaned text when the stripped line ends in '?' and
      the cleaned text is longer than ten characters. */
  function QuestionOf(line: string): (r: Option<string>)
    ensures r.Some? ==> IsQuestionText(r.value)
  {
    if !EndsWithChar(Strip(line), '?') then None
    else
      var c := CleanQuestion(line);
      if |c| > 10 then
        CleanKeepsMark(Strip(line));
        Some(c)
      else None
  }

  /** Stripping leading characters from a set keeps a last character outside the set. */
  lemma LStripCharsKeepsLast(s: string, cs: set<char>)
    requires s != [] && s[|s| - 1] !in cs
    ensures var l := LStripChars(s, cs); l != [] && l[|l| - 1] == s[|s| - 1]
  {
  }

  /** Stripping whitespace keeps a last character that is not whitespace. */
  lemma StripKeepsLast(s: string)
    requires s != [] && !IsSpace(s[|s| - 1])
    ensures var r := Strip(s); r != [] && r[|r| - 1] == s[|s| - 1]
  {
    var l := LStrip(s);
    assert l[|l| - 1] == s[|s| - 1];
    assert RStrip(l) == l;
  }

  /** Cleaning a stripped line that ends in '?' keeps the '?' at its end. */
  lemma CleanKeepsMark(s: string)
    requires EndsWithChar(s, '?')
    ensures EndsWithChar(Strip(LStripChars(s, BulletChars)), '?')
  {
    LStripCharsKeepsLast(s, BulletChars);
    StripKeepsLast(LStripChars(s, BulletChars));
  }

  /** `[f(x) for x in xs]` */
  function Map<A, B>(f: A -> B, xs: seq<A>): (r: seq<B>)
    ensures |r| == |xs| && forall k :: 0 <= k < |xs| ==> r[k] == f(xs[k])
  {
    seq(|xs|, k requires 0 <= k < |xs| => f(xs[k]))
  }

  lemma MapConcat<A, B>(f: A -> B, xs: seq<A>, ys: seq<A>)
    ensures Map(f, xs + ys) == Map(f, xs) + Map(f, ys)
  {
  }

  /** The present values of `xs`, in order. */
  function Present<T>(xs: seq<Option<T>>): (r: seq<T>)
    ensures |r| <= |xs|
    decreases |xs|
  {
    if xs == [] then []
    else if xs[0].Some? then [xs[0].value] + Present(xs[1..])
    else Present(xs[1..])
  }

  lemma {:induction false} PresentIff<T>(xs: seq<Option<T>>, q: T)
    ensures q in Present(xs) <==> exists k :: 0 <= k < |xs| && xs[k] == Some(q)
    decreases |xs|
  {
    if xs != [] {
      PresentIff(xs[1..], q);
      if exists k :: 0 <= k < |xs[1..]| && xs[1..][k] == Some(q) {
        var k :| 0 <= k < |xs[1..]| && xs[1..][k] == Some(q);
        assert xs[k + 1] == xs[1..][k];
      }
      if exists k :: 0 <= k < |xs| && xs[k] == Some(q) {
        var k :| 0 <= k < |xs| && xs[k] == Some(q);
        if k > 0 {
          assert xs[1..][k - 1] == xs[k];
        }
      }
    }
  }

  lemma {:induction false} PresentConcat<T>(xs: seq<Option<T>>, ys: seq<Option<T>>)
    ensures Present(xs + ys) == Present(xs) + Present(ys)
    decreases |xs|
  {
    if xs != [] {
      assert (xs + ys)[1..] == xs[1..] + ys;
      PresentConcat(xs[1..], ys);
    } else {
      assert xs + ys == ys;
    }
  }

  /** A prefix without present values contributes nothing. */
  lemma {:induction false} PresentSkip<T>(xs: seq<Option<T>>, n: nat)
    requires n <= |xs| && forall k :: 0 <= k < n ==> xs[k].None?
    ensures Present(xs) == Present(xs[n..])
    decreases n
  {
    if n > 0 {
      PresentSkip(xs[1..], n - 1);
      assert xs[1..][n - 1..] == xs[n..];
    }
  }

  /** The questions of a sequence of lines, in order. */
  function Questions(lines: seq<string>): (r: seq<string>)
    ensures forall k :: 0 <= k < |r| ==> IsQuestionText(r[k])
  {
    var xs := Map(QuestionOf, lines);
    PresentQuestions(xs);
    Present(xs)
  }

  lemma {:induction false} PresentQuestions(xs: seq<Option<string>>)
    requires forall k :: 0 <= k < |xs| && xs[k].Some? ==> IsQuestionText(xs[k].value)
    ensures forall k :: 0 <= k < |Present(xs)| ==> IsQuestionText(Present(xs)[k])
    decreases |xs|
  {
    if xs != [] {
      assert forall k :: 0 <= k < |xs[1..]| ==> xs[1..][k] == xs[k + 1];
      PresentQuestions(xs[1..]);
    }
  }

  /** `_extract_questions`: the cleaned question lines of the reply, in order. */
  function ExtractQuestions(text: string): (r: seq<string>)
    ensures text == [] ==> r == []
    ensures forall k :: 0 <= k < |r| ==> IsQuestionText(r[k])
  {
    Questions(SplitLines(text))
  }

  /** A string is extracted exactly when some line of the reply yields it as its question. */
  lemma QuestionsIff(text: string, q: string)
    ensures var lines := SplitLines(text);
      q in ExtractQuestions(text) <==> exists k :: 0 <= k < |lines| && QuestionOf(lines[k]) == Some(q)
  {
    PresentIff(Map(QuestionOf, SplitLines(text)), q);
  }

  /** Questions keep the order of their lines: the questions of two blocks of lines are the
      questions of the first block followed by those of the second. */
  lemma QuestionsInOrder(a: seq<string>, b: seq<string>)
    ensures Questions(a + b) == Questions(a) + Questions(b)
  {
    MapConcat(QuestionOf, a, b);
    PresentConcat(Map(QuestionOf, a), Map(QuestionOf, b));
  }

  // ---------------------------------------------------------------------------
  // Option headers: OPTION <letter>: "<name>"<rest>
  // ---------------------------------------------------------------------------

  /** The quote characters that may open and close an option name (straight or curly). */
  const OpenQuotes: set<char> := {'"', '\U{201C}'}
  const CloseQuotes: set<char> := {'"', '\U{201D}'}

  /** The three groups of a header match. */
  datatype Header = Header(letter: char, name: string, rest: string)

  /** The first closing quote in `w` at or after `from`. */
  function CloseFrom(w: string, from: nat): (r: Option<nat>)
    requires from <= |w|
    ensures r.Some? ==> from <= r.value < |w| && w[r.value] in CloseQuotes
    ensures r.Some? ==> forall k :: from <= k < r.value ==> w[k] !in CloseQuotes
    ensures r.None? ==> forall k :: from <= k < |w| ==> w[k] !in CloseQuotes
    decreases |w| - from
  {
    if from == |w| then None
    else if w[from] in CloseQuotes then Some(from)
    else CloseFrom(w, from + 1)
  }

  /** `re.match(r'^OPTION\s+([A-Z]):\s*["“](.+?)["”](.*)$', line)` on a line without newlines,
      one step of the pattern at a time. */
  function ParseHeader(line: string): (r: Option<Header>)
    ensures r.Some? ==> 'A' <= r.value.letter <= 'Z' && |r.value.name| >= 1
  {
    if "OPTION" <= line then AfterKeyword(line[6..]) else None
  }

  /** `\s+` and then the letter and colon. */
  function AfterKeyword(t: string): (r: Option<Header>)
    ensures r.Some? ==> 'A' <= r.value.letter <= 'Z' && |r.value.name| >= 1
  {
    if t == [] || !IsSpace(t[0]) then None else AfterSpace(LStrip(t))
  }

  /** `([A-Z]):` and then `\s*` before the opening quote. */
  function AfterSpace(u: string): (r: Option<Header>)
    ensures r.Some? ==> 'A' <= r.value.letter <= 'Z' && |r.value.name| >= 1
  {
    if |u| < 2 || !('A' <= u[0] <= 'Z') || u[1] != ':' then None
    else QuotedName(u[0], LStrip(u[2..]))
  }

  /** The opening quote, then the name: the shortest non-empty text before a closing quote. */
  function QuotedName(letter: char, v: string): (r: Option<Header>)
    ensures r.Some? ==> r.value.letter == letter && |r.value.name| >= 1
  {
    if |v| < 2 || v[0] !in OpenQuotes then None
    else
      var w := v[1..];
      match CloseFrom(w, 1)
      case None => None
      case Some(j) => Some(Header(letter, w[..j], w[j + 1..]))
  }

  /** A header line in the layout the Architect is asked to use. */
  function HeaderLine(letter: char, name: string, rest: string): string {
    "OPTION" + (" " + ([letter] + ": " + Quoted(name, rest)))
  }

  /** A name in straight quotes followed by the rest of the line. */
  function Quoted(name: string, rest: string): string {
    "\"" + name + "\"" + rest
  }

  /** Every header in the requested layout is read back: the letter, the name and the text
      after the closing quote. */
  lemma HeaderRoundTrip(letter: char, name: string, rest: string)
    requires 'A' <= letter <= 'Z'
    requires |name| >= 1 && forall k :: 1 <= k < |name| ==> name[k] !in CloseQuotes
    ensures ParseHeader(HeaderLine(letter, name, rest)) == Some(Header(letter, name, rest))
  {
    HeaderSteps(letter, Quoted(name, rest));
    NameRoundTrip(letter, name, rest);
  }

  lemma HeaderSteps(letter: char, v: string)
    requires 'A' <= letter <= 'Z' && |v| >= 1 && v[0] == '"'
    ensures ParseHeader("OPTION" + (" " + ([letter] + ": " + v))) == QuotedName(letter, v)
  {
    KeywordStep(" " + ([letter] + ": " + v));
    AfterKeywordSteps(letter, v);
  }

  lemma AfterKeywordSteps(letter: char, v: string)
    requires 'A' <= letter <= 'Z' && |v| >= 1 && v[0] == '"'
    ensures AfterKeyword(" " + ([letter] + ": " + v)) == QuotedName(letter, v)
  {
    var u := [letter] + ": " + v;
    assert u[0] == letter;
    SpaceStep(u);
    LetterStep(letter, v);
  }

  lemma KeywordStep(t: string)
    ensures ParseHeader("OPTION" + t) == AfterKeyword(t)
  {
    assert "OPTION" <= "OPTION" + t;
    assert ("OPTION" + t)[6..] == t;
  }

  lemma SpaceStep(u: string)
    requires |u| >= 1 && !IsSpace(u[0])
    ensures AfterKeyword(" " + u) == AfterSpace(u)
  {
    LStripOne(" " + u);
    assert (" " + u)[1..] == u;
  }

  lemma LetterStep(letter: char, v: string)
    requires 'A' <= letter <= 'Z' && |v| >= 1 && !IsSpace(v[0])
    ensures AfterSpace([letter] + ": " + v) == QuotedName(letter, v)
  {
    var u := [letter] + ": " + v;
    assert u[2..] == " " + v;
    LStripOne(" " + v);
    assert (" " + v)[1..] == v;
  }

  lemma NameRoundTrip(letter: char, name: string, rest: string)
    requires |name| >= 1 && forall k :: 1 <= k < |name| ==> name[k] !in CloseQuotes
    ensures QuotedName(letter, Quoted(name, rest)) == Some(Header(letter, name, rest))
  {
    var w := name + "\"" + rest;
    assert Quoted(name, rest)[1..] == w;
    assert w[|name|] == '"';
    assert CloseFrom(w, 1) == Some(|name|);
    assert w[..|name|] == name;
    assert w[|name| + 1..] == rest;
  }

  /** One leading space before a non-space character is all `lstrip` removes. */
  lemma LStripOne(t: string)
    requires |t| >= 2 && t[0] == ' ' && !IsSpace(t[1])
    ensures LStrip(t) == t[1..]
  {
    assert t[1..][0] == t[1];
  }

  /** The option is marked as recommended by the text after its closing quote. */
  predicate MarksRecommended(rest: string) {
    rest != [] && Contains(Upper(rest), "RECOMMENDED")
  }

  // ---------------------------------------------------------------------------
  // Option cards
  // ---------------------------------------------------------------------------

  /** A header with the stripped lines that follow it up to the next header. */
  datatype Card = Card(header: Header, body: seq<string>)

  /** The header a raw reply line opens, if any (the line is stripped before matching). */
  function HeaderOf(line: string): Option<Header> {
    ParseHeader(Strip(line))
  }

  /** How many entries at the front of `hs` are not headers. */
  function BodyLen(hs: seq<Option<Header>>): (n: nat)
    ensures n <= |hs|
    ensures forall k :: 0 <= k < n ==> hs[k].None?
    ensures n < |hs| ==> hs[n].Some?
    decreases |hs|
  {
    if hs == [] || hs[0].Some? then 0
    else
      var n := BodyLen(hs[1..]);
      assert forall k :: 1 <= k < n + 1 ==> hs[k] == hs[1..][k - 1];
      n + 1
  }

  /** The line loop of `_parse_gate_options` over `lines` and their headers `hs`: lines before
      the first header are dropped, and each header opens a card that collects the following
      stripped lines. */
  function CardsFrom(lines: seq<string>, hs: seq<Option<Header>>): (r: seq<Card>)
    requires |hs| == |lines|
    decreases |lines|
  {
    if lines == [] then []
    else if hs[0].None? then CardsFrom(lines[1..], hs[1..])
    else
      var n := BodyLen(hs[1..]);
      [Card(hs[0].value, StripAll(lines[1..][..n]))] + CardsFrom(lines[1..][n..], hs[1..][n..])
  }

  function CardsOf(lines: seq<string>): seq<Card> {
    CardsFrom(lines, Map(HeaderOf, lines))
  }

  function HeadersOf(cards: seq<Card>): (r: seq<Header>)
    ensures |r| == |cards| && forall k :: 0 <= k < |cards| ==> r[k] == cards[k].header
  {
    seq(|cards|, k requires 0 <= k < |cards| => cards[k].header)
  }

  /** There is exactly one card per header, in order: nothing between two headers opens or hides
      a card. */
  lemma {:induction false} CardsFollowHeaders(lines: seq<string>, hs: seq<Option<Header>>)
    requires |hs| == |lines|
    ensures HeadersOf(CardsFrom(lines, hs)) == Present(hs)
    decreases |lines|
  {
    if lines != [] {
      if hs[0].None? {
        CardsFollowHeaders(lines[1..], hs[1..]);
      } else {
        var n := BodyLen(hs[1..]);
        CardsFollowHeaders(lines[1..][n..], hs[1..][n..]);
        PresentSkip(hs[1..], n);
        var c := Card(hs[0].value, StripAll(lines[1..][..n]));
        var rest := CardsFrom(lines[1..][n..], hs[1..][n..]);
        assert HeadersOf([c] + rest) == [c.header] + HeadersOf(rest);
      }
    }
  }

  /** The number of reply lines a card stands for: its header line and its body. */
  function CardLines(cards: seq<Card>): nat
    decreases |cards|
  {
    if cards == [] then 0 else 1 + |cards[0].body| + CardLines(cards[1..])
  }

  lemma {:induction false} CardLinesConcat(c: Card, cards: seq<Card>)
    ensures CardLines([c] + cards) == 1 + |c.body| + CardLines(cards)
  {
    assert ([c] + cards)[1..] == cards;
  }

  /** No line is lost or counted twice: every line from the first header on is a header line or
      belongs to exactly one card body. */
  lemma {:induction false} CardsCoverLines(lines: seq<string>, hs: seq<Option<Header>>)
    requires |hs| == |lines|
    ensures BodyLen(hs) + CardLines(CardsFrom(lines, hs)) == |lines|
    decreases |lines|
  {
    if lines != [] {
      if hs[0].None? {
        CardsCoverLines(lines[1..], hs[1..]);
      } else {
        var n := BodyLen(hs[1..]);
        CardsCoverLines(lines[1..][n..], hs[1..][n..]);
        BodyLenOfHeadersAt(hs[1..][n..]);
        var c := Card(hs[0].value, StripAll(lines[1..][..n]));
        CardLinesConcat(c, CardsFrom(lines[1..][n..], hs[1..][n..]));
      }
    }
  }

  lemma BodyLenOfHeadersAt(hs: seq<Option<Header>>)
    requires hs == [] || hs[0].Some?
    ensures BodyLen(hs) == 0
  {
  }

  /** Each body line of a card is a stripped reply line that opens no header. */
  lemma {:induction false} BodyLinesAreNotHeaders(lines: seq<string>, hs: seq<Option<Header>>, c: nat, k: nat)
    requires |hs| == |lines| && c < |CardsFrom(lines, hs)| && k < |CardsFrom(lines, hs)[c].body|
    ensures BodyLineFrom(lines, hs, c, k)
    decreases |lines|
  {
    if hs[0].None? {
      CardsFromSkip(lines, hs);
      BodyLinesAreNotHeaders(lines[1..], hs[1..], c, k);
      BodyLineSkip(lines, hs, c, k);
    } else if c == 0 {
      BodyLineFirst(lines, hs, k);
    } else {
      var n := BodyLen(hs[1..]);
      CardsFromLater(lines, hs, c);
      BodyLinesAreNotHeaders(lines[1..][n..], hs[1..][n..], c - 1, k);
      BodyLineLater(lines, hs, c, k);
    }
  }

  lemma CardsFromSkip(lines: seq<string>, hs: seq<Option<Header>>)
    requires |hs| == |lines| && lines != [] && hs[0].None?
    ensures CardsFrom(lines, hs) == CardsFrom(lines[1..], hs[1..])
  {
  }

  lemma CardsFromLater(lines: seq<string>, hs: seq<Option<Header>>, c: nat)
    requires |hs| == |lines| && lines != [] && hs[0].Some? && 0 < c < |CardsFrom(lines, hs)|
    ensures var n := BodyLen(hs[1..]);
      c - 1 < |CardsFrom(lines[1..][n..], hs[1..][n..])| &&
      CardsFrom(lines, hs)[c] == CardsFrom(lines[1..][n..], hs[1..][n..])[c - 1]
  {
  }

  /** Body line `k` of card `c` is some stripped line that opens no header. */
  predicate BodyLineFrom(lines: seq<string>, hs: seq<Option<Header>>, c: nat, k: nat) {
    |hs| == |lines| && c < |CardsFrom(lines, hs)| && k < |CardsFrom(lines, hs)[c].body| &&
    exists j :: 0 <= j < |lines| && hs[j].None? && CardsFrom(lines, hs)[c].body[k] == Strip(lines[j])
  }

  lemma BodyLineSkip(lines: seq<string>, hs: seq<Option<Header>>, c: nat, k: nat)
    requires |hs| == |lines| && lines != [] && hs[0].None?
    requires c < |CardsFrom(lines, hs)| && k < |CardsFrom(lines, hs)[c].body|
    requires BodyLineFrom(lines[1..], hs[1..], c, k)
    ensures BodyLineFrom(lines, hs, c, k)
  {
    assert CardsFrom(lines, hs) == CardsFrom(lines[1..], hs[1..]);
    var j :| 0 <= j < |lines[1..]| && hs[1..][j].None? && CardsFrom(lines[1..], hs[1..])[c].body[k] == Strip(lines[1..][j]);
    assert hs[j + 1].None? && lines[j + 1] == lines[1..][j];
  }

  lemma BodyLineFirst(lines: seq<string>, hs: seq<Option<Header>>, k: nat)
    requires |hs| == |lines| && lines != [] && hs[0].Some?
    requires 0 < |CardsFrom(lines, hs)| && k < |CardsFrom(lines, hs)[0].body|
    ensures BodyLineFrom(lines, hs, 0, k)
  {
    var n := BodyLen(hs[1..]);
    assert CardsFrom(lines, hs)[0].body == StripAll(lines[1..][..n]);
    StripAllAt(lines[1..][..n], k);
    assert lines[1..][..n][k] == lines[k + 1];
    assert hs[1..][k] == hs[k + 1];
  }

  lemma BodyLineLater(lines: seq<string>, hs: seq<Option<Header>>, c: nat, k: nat)
    requires |hs| == |lines| && lines != [] && hs[0].Some? && c > 0
    requires c < |CardsFrom(lines, hs)| && k < |CardsFrom(lines, hs)[c].body|
    requires BodyLineFrom(lines[1..][BodyLen(hs[1..])..], hs[1..][BodyLen(hs[1..])..], c - 1, k)
    ensures BodyLineFrom(lines, hs, c, k)
  {
    var n := BodyLen(hs[1..]);
    var tl, th := lines[1..][n..], hs[1..][n..];
    CardsFromLater(lines, hs, c);
    var j :| 0 <= j < |tl| && th[j].None? && CardsFrom(tl, th)[c - 1].body[k] == Strip(tl[j]);
    DropDrop(lines, n, j);
    DropDrop(hs, n, j);
    assert hs[j + 1 + n].None? && CardsFrom(lines, hs)[c].body[k] == Strip(lines[j + 1 + n]);
  }

  lemma DropDrop<T>(xs: seq<T>, n: nat, j: nat)
    requires 1 + n <= |xs| && j < |xs| - 1 - n
    ensures xs[1..][n..][j] == xs[j + 1 + n]
  {
  }

  /** A body line, read again as a header candidate, still opens no header. */
  lemma BodiesHoldNoHeader(lines: seq<string>, c: nat, k: nat)
    requires c < |CardsOf(lines)| && k < |CardsOf(lines)[c].body|
    ensures HeaderOf(CardsOf(lines)[c].body[k]).None?
  {
    var hs := Map(HeaderOf, lines);
    BodyLinesAreNotHeaders(lines, hs, c, k);
    var j :| 0 <= j < |lines| && hs[j].None? && CardsOf(lines)[c].body[k] == Strip(lines[j]);
    StripIdempotent(lines[j]);
  }

  /** The options of a reply are exactly its header lines, in order. */
  lemma OptionHeaders(lines: seq<string>)
    ensures HeadersOf(CardsOf(lines)) == Present(Map(HeaderOf, lines))
  {
    CardsFollowHeaders(lines, Map(HeaderOf, lines));
  }

  // ---------------------------------------------------------------------------
  // Labelled fields of a card
  // ---------------------------------------------------------------------------

  /** `\w` on ASCII: letters, digits and the underscore. */
  predicate IsWordChar(c: char) {
    'a' <= c <= 'z' || 'A' <= c <= 'Z' || IsDigit(c) || c == '_'
  }

  /** The end of the whitespace run that starts at `i` (greedy `\s*`). */
  function SpaceEnd(t: string, i: nat): (j: nat)
    requires i <= |t|
    ensures i <= j <= |t|
    ensures forall k :: i <= k < j ==> IsSpace(t[k])
    ensures j < |t| ==> !IsSpace(t[j])
    decreases |t| - i
  {
    if i < |t| && IsSpace(t[i]) then SpaceEnd(t, i + 1) else i
  }

  /** The lazy value may end at `e`: one of `\n\s*\w`, `\n\n` or `$` matches there. */
  predicate FieldStopsAt(t: string, e: nat)
    requires e <= |t|
  {
    e == |t|
    || (t[e] == '\n'
        && (e + 1 == |t| || t[e + 1] == '\n'
            || (SpaceEnd(t, e + 1) < |t| && IsWordChar(t[SpaceEnd(t, e + 1)]))))
  }

  /** The first position at or after `e` where the value may end. */
  function FieldEnd(t: string, e: nat): (r: nat)
    requires e <= |t|
    ensures e <= r <= |t| && FieldStopsAt(t, r)
    ensures forall k :: e <= k < r ==> !FieldStopsAt(t, k)
    decreases |t| - e
  {
    if FieldStopsAt(t, e) then e else FieldEnd(t, e + 1)
  }

  /** A label the pattern can anchor on: it does not start with whitespace. */
  predicate IsLabel(name: string) {
    name != [] && !IsSpace(name[0])
  }

  /** The match of `(?:^|\n)\s*{name}:\s*(.+?)(?:\n\s*\w|\n\n|$)` (case-insensitive, `.` matching
      newlines) that starts at `s`, stripped; `^` and `\n` followed by `\s*` both amount to
      skipping the whitespace from `s` on. */
  function FieldMatchAt(t: string, name: string, s: nat): (r: Option<string>)
    requires s <= |t| && IsLabel(name)
  {
    if !(s == 0 || (s < |t| && t[s] == '\n')) then None
    else
      var q := SpaceEnd(t, s);
      if !OccursAt(Lower(t), Lower(name) + ":", q) then None
      else FieldValueAt(t, q + |name| + 1)
  }

  /** The value part of a match whose colon ends just before `c0`: greedy `\s*`, then the lazy
      `(.+?)` up to the first stop, stripped. */
  function FieldValueAt(t: string, c0: nat): (r: Option<string>)
    requires c0 <= |t|
  {
    var g := SpaceEnd(t, c0);
    if g < |t| then Some(Strip(t[g..FieldEnd(t, g + 1)]))
    // Only whitespace follows the colon: `\s*` gives its last character back to the value.
    else if g > c0 then Some("")
    else None
  }

  /** `re.search`: the first start position, from `s` on, at which the field pattern matches. */
  function FieldFrom(t: string, name: string, s: nat): (r: string)
    requires s <= |t| && IsLabel(name)
    decreases |t| - s
  {
    match FieldMatchAt(t, name, s)
    case Some(v) => v
    case None => if s == |t| then "" else FieldFrom(t, name, s + 1)
  }

  /** `_extract_field`: the stripped value after the first `name:` label, or "". */
  function ExtractField(text: string, name: string): string
    requires IsLabel(name)
  {
    FieldFrom(text, name, 0)
  }

  /** A label matches at the front of any text that starts with it, whatever the letter case. */
  lemma LabelAtFront(name: string, more: string)
    ensures OccursAt(Lower(name + ":" + more), Lower(name) + ":", 0)
  {
    var t := name + ":" + more;
    assert Lower(t)[..|name| + 1] == Lower(name) + ":";
  }

  /** The whitespace run stops at or before the next non-whitespace character. */
  lemma SpaceEndBefore(t: string, i: nat, j: nat)
    requires i <= j < |t| && !IsSpace(t[j])
    ensures SpaceEnd(t, i) <= j
  {
  }

  /** Skipping the whitespace before a non-blank value lands inside it, on what `strip` keeps. */
  lemma SkipToValue(t: string, c0: nat, e0: nat, value: string)
    requires c0 < e0 <= |t| && t[c0..e0] == " " + value && !IsBlank(value)
    ensures SpaceEnd(t, c0) < e0 && Strip(t[SpaceEnd(t, c0)..e0]) == Strip(value)
  {
    SkipBound(t, c0, e0, value);
    SkipSuffix(t, c0, e0, value);
    StripOfLStrip(value);
  }

  lemma SkipBound(t: string, c0: nat, e0: nat, value: string)
    requires c0 < e0 <= |t| && t[c0..e0] == " " + value && !IsBlank(value)
    ensures SpaceEnd(t, c0) < e0
  {
    var k :| 0 <= k < |value| && !IsSpace(value[k]);
    assert t[c0 + 1 + k] == t[c0..e0][1 + k] == value[k];
    SpaceEndBefore(t, c0, c0 + 1 + k);
  }

  lemma SkipSuffix(t: string, c0: nat, e0: nat, value: string)
    requires c0 < e0 <= |t| && t[c0..e0] == " " + value && SpaceEnd(t, c0) < e0
    ensures t[SpaceEnd(t, c0)..e0] == LStrip(value)
  {
    var u := t[c0..e0];
    var g := SpaceEnd(t, c0);
    forall i | 0 <= i < g - c0 ensures IsSpace(u[i]) {
      assert u[i] == t[c0 + i];
    }
    assert u[g - c0] == t[g];
    LStripAt(u, g - c0);
    assert u[g - c0..] == t[g..e0];
    LStripSpace(value);
  }

  lemma LStripSpace(value: string)
    ensures LStrip(" " + value) == LStrip(value)
  {
    assert (" " + value)[1..] == value;
  }

  /** A value with no line break before a stop ends at that stop. */
  lemma {:induction false} LazyValueEnds(t: string, i: nat, e: nat)
    requires i <= e <= |t| && FieldStopsAt(t, e)
    requires forall k :: i <= k < e ==> t[k] != '\n'
    ensures FieldEnd(t, i) == e
    decreases e - i
  {
    if i < e {
      LazyValueEnds(t, i + 1, e);
    }
  }

  /** The match at the start of the text, once its parts are located: the label at the front,
      one space and a one-line value, then a stop. */
  lemma FieldMatchOfParts(t: string, name: string, e0: nat, value: string)
    requires IsLabel(name) && !IsBlank(value) && '\n' !in value
    requires OccursAt(Lower(t), Lower(name) + ":", 0)
    requires |name| + 1 < e0 <= |t| && t[|name| + 1..e0] == " " + value && FieldStopsAt(t, e0)
    ensures FieldMatchAt(t, name, 0) == Some(Strip(value))
  {
    assert !IsSpace(t[0]) by {
      assert Lower(t)[0] == (Lower(name) + ":")[0];
    }
    assert SpaceEnd(t, 0) == 0;
    FieldValueOfLine(t, |name| + 1, e0, value);
  }

  /** A one-line value after the colon, ended by a stop, is read back stripped. */
  lemma FieldValueOfLine(t: string, c0: nat, e0: nat, value: string)
    requires !IsBlank(value) && '\n' !in value
    requires c0 < e0 <= |t| && t[c0..e0] == " " + value && FieldStopsAt(t, e0)
    ensures FieldValueAt(t, c0) == Some(Strip(value))
  {
    SkipToValue(t, c0, e0, value);
    ValueEndsAtStop(t, c0, e0, value);
    FieldValueAtFound(t, c0, e0);
  }

  lemma ValueEndsAtStop(t: string, c0: nat, e0: nat, value: string)
    requires '\n' !in value
    requires c0 < e0 <= |t| && t[c0..e0] == " " + value && FieldStopsAt(t, e0) && SpaceEnd(t, c0) < e0
    ensures FieldEnd(t, SpaceEnd(t, c0) + 1) == e0
  {
    NoBreakAfter(t, c0, e0, value);
    LazyValueEnds(t, SpaceEnd(t, c0) + 1, e0);
  }

  lemma FieldValueAtFound(t: string, c0: nat, e0: nat)
    requires c0 <= |t| && SpaceEnd(t, c0) < e0 <= |t| && FieldEnd(t, SpaceEnd(t, c0) + 1) == e0
    ensures FieldValueAt(t, c0) == Some(Strip(t[SpaceEnd(t, c0)..e0]))
  {
  }

  lemma NoBreakAfter(t: string, c0: nat, e0: nat, value: string)
    requires '\n' !in value && c0 < e0 <= |t| && t[c0..e0] == " " + value
    ensures forall k :: c0 < k < e0 ==> t[k] != '\n'
  {
    forall k | c0 < k < e0 ensures t[k] != '\n' {
      assert t[k] == (" " + value)[k - c0];
    }
  }

  /** What may follow a value on its line: nothing, a final line break, a blank line or a line
      that starts with a word character. */
  predicate EndsField(tail: string) {
    tail == [] || (tail[0] == '\n' && (|tail| == 1 || tail[1] == '\n' || IsWordChar(tail[1])))
  }

  lemma StopBeforeTail(t: string, e0: nat, tail: string)
    requires e0 <= |t| && t[e0..] == tail && EndsField(tail)
    ensures FieldStopsAt(t, e0)
  {
    if tail != [] {
      assert t[e0] == tail[0];
      if |tail| > 1 {
        assert t[e0 + 1] == tail[1];
        if IsWordChar(tail[1]) {
          assert SpaceEnd(t, e0 + 1) == e0 + 1;
        }
      }
    }
  }

  /** A value on the label's own line, ended by the end of the text, a blank line or a line
      starting with a word character, is read back stripped. */
  lemma FieldOfFirstLine(name: string, value: string, tail: string)
    requires IsLabel(name) && !IsBlank(value) && '\n' !in value && EndsField(tail)
    ensures ExtractField(name + ": " + value + tail, name) == Strip(value)
  {
    var t := name + ": " + value + tail;
    assert t == name + ":" + (" " + value + tail);
    LabelAtFront(name, " " + value + tail);
    var e0 := |name| + 2 + |value|;
    LineParts(name + ":", " " + value, tail);
    StopBeforeTail(t, e0, tail);
    FieldMatchOfParts(t, name, e0, value);
  }

  /** The middle and the end of a three-part text are its second and third parts. */
  lemma LineParts(a: string, b: string, c: string)
    ensures (a + b + c)[|a|..|a| + |b|] == b && (a + b + c)[|a| + |b|..] == c
  {
    var t := a + b + c;
    assert t[|a|..|a| + |b|] == b by {
      forall i | 0 <= i < |b| ensures t[|a| + i] == b[i] {}
    }
  }

  // ---------------------------------------------------------------------------
  // Options
  // ---------------------------------------------------------------------------

  /** The `Subsystems` count: the first run of digits in the field, or 0. */
  function SubsystemCount(field: string): (n: int)
    ensures n >= 0
  {
    var nums := DigitRuns(field);
    if field != "" && nums != [] then DigitsValue(nums[0]) else 0
  }

  /** `_build_gate_option`: the card's letter, name and recommendation with its labelled fields.
      `bullets` stands for `_extract_bullet_list`. */
  function BuildGateOption(c: Card, bullets: (string, string) -> seq<string>): (o: GateOption)
    ensures o.letter == [c.header.letter] && o.name == c.header.name
    ensures o.isRecommended == MarksRecommended(c.header.rest)
    ensures !o.isRecommended ==> o.recommendationRationale == ""
    ensures o.subsystems >= 0
  {
    var text := Join(c.body, "\n");
    var recommended := MarksRecommended(c.header.rest);
    var reasoning := ExtractField(text, "reasoning");
    GateOption(
      letter := [c.header.letter],
      name := c.header.name,
      isRecommended := recommended,
      summary := ExtractField(text, "Summary"),
      keyCharacteristics := bullets(text, "Key characteristics"),
      optimizesFor := ExtractField(text, "Optimizes for"),
      costs := ExtractField(text, "Costs"),
      consequence1st := ExtractField(text, "1st order"),
      consequence2nd := ExtractField(text, "2nd order"),
      consequence3rd := ExtractField(text, "3rd order"),
      subsystems := SubsystemCount(ExtractField(text, "Subsystems")),
      builderTasks := ExtractField(text, "Builder tasks"),
      estimatedCost := ExtractField(text, "Estimated cost"),
      timeline := ExtractField(text, "Timeline"),
      risk := ExtractField(text, "Risk"),
      recommendationRationale :=
        if !recommended then ""
        else if reasoning != "" then reasoning
        else ExtractField(text, "rationale"))
  }

  /** `_parse_gate_options`: one option per card of the reply, in order. */
  function ParseGateOptions(text: string, bullets: (string, string) -> seq<string>): (r: seq<GateOption>)
    ensures text == [] ==> r == []
  {
    var cards := CardsOf(SplitLines(text));
    seq(|cards|, k requires 0 <= k < |cards| => BuildGateOption(cards[k], bullets))
  }

  /** The options are the header lines of the reply, in order: option k carries the letter and
      name of the k-th header, and it is recommended exactly when the text after that header's
      closing quote contains RECOMMENDED in any letter case. */
  lemma ParsedOptionsFollowHeaders(text: string, bullets: (string, string) -> seq<string>)
    ensures var hs := Present(Map(HeaderOf, SplitLines(text)));
      var os := ParseGateOptions(text, bullets);
      && |os| == |hs|
      && forall k :: 0 <= k < |os| ==>
           && os[k].letter == [hs[k].letter] && os[k].name == hs[k].name
           && os[k].isRecommended == MarksRecommended(hs[k].rest)
  {
    OptionHeaders(SplitLines(text));
  }

  /** The count of a field that is a bare number is that number. */
  lemma SubsystemCountOfDigits(digits: string)
    requires IsDigits(digits)
    ensures SubsystemCount(digits) == DigitsValue(digits)
  {
    assert LeadingDigits(digits) == digits;
    assert digits[|digits|..] == [];
    assert DigitRuns(digits) == [digits];
  }

  lemma SubsystemsLine(digits: string)
    requires IsDigits(digits)
    ensures ExtractField("Subsystems: " + digits, "Subsystems") == digits
  {
    assert "Subsystems: " + digits == "Subsystems" + ": " + digits + "";
    assert !IsSpace(digits[0]);
    FieldOfFirstLine("Subsystems", digits, "");
    StripAt(digits, 0, |digits|);
    assert digits[0..|digits|] == digits;
  }

  /** Every parsed option's letter is one upper-case letter, as its header demands. */
  lemma ParsedLettersUpper(text: string, bullets: (string, string) -> seq<string>)
    ensures var os := ParseGateOptions(text, bullets);
      forall k :: 0 <= k < |os| ==> |os[k].letter| == 1 && 'A' <= os[k].letter[0] <= 'Z'
  {
    var lines := SplitLines(text);
    var xs := Map(HeaderOf, lines);
    var hs := Present(xs);
    var os := ParseGateOptions(text, bullets);
    ParsedOptionsFollowHeaders(text, bullets);
    forall k | 0 <= k < |os| ensures |os[k].letter| == 1 && 'A' <= os[k].letter[0] <= 'Z' {
      assert hs[k] in hs;
      PresentIff(xs, hs[k]);
      var j :| 0 <= j < |xs| && xs[j] == Some(hs[k]);
      assert ParseHeader(Strip(lines[j])) == Some(hs[k]);
    }
  }

  /** A card whose body is the single line `Subsystems: <digits>` carries that count. */
  lemma SubsystemsOfCard(h: Header, digits: string, bullets: (string, string) -> seq<string>)
    requires IsDigits(digits)
    ensures BuildGateOption(Card(h, ["Subsystems: " + digits]), bullets).subsystems == DigitsValue(digits)
  {
    assert Join(["Subsystems: " + digits], "\n") == "Subsystems: " + digits;
    SubsystemsLine(digits);
    SubsystemCountOfDigits(digits);
  }

  // ---------------------------------------------------------------------------
  // Which option is recommended
  // ---------------------------------------------------------------------------

  /** The first position `i` in `from..n` at which `m` matches: `re.search` over start positions. */
  function Leftmost<T>(m: nat -> Option<T>, from: nat, n: nat): (r: Option<T>)
    requires from <= n
    ensures r.Some? ==> exists i :: from <= i <= n && m(i) == r && forall j :: from <= j < i ==> m(j).None?
    ensures r.None? ==> forall i :: from <= i <= n ==> m(i).None?
    decreases n - from
  {
    if m(from).Some? then m(from)
    else if from == n then None
    else Leftmost(m, from + 1, n)
  }

  /** The letter class `[A-Z]`: under IGNORECASE, as the reply parser compiles it, it also
      accepts lower-case letters; `strict` is the class as written, upper case only. */
  predicate LetterClass(c: char, strict: bool) {
    'A' <= c <= 'Z' || (!strict && 'a' <= c <= 'z')
  }

  /** The end of the line holding position `i`: `.` does not cross a line break. */
  function LineEnd(t: string, i: nat): (r: nat)
    requires i <= |t|
    ensures i <= r <= |t| && (r == |t| || t[r] == '\n')
    ensures forall k :: i <= k < r ==> t[k] != '\n'
    decreases |t| - i
  {
    if i == |t| || t[i] == '\n' then i else LineEnd(t, i + 1)
  }

  /** `option\s+([A-Z])` matched at `p` (in any letter case): the position of the letter. */
  function OptionLetterAt(t: string, p: nat, strict: bool): (r: Option<nat>)
    ensures r.Some? ==> OccursAt(Lower(t), "option", p) && p + 6 < r.value < |t|
    ensures r.Some? ==> LetterClass(t[r.value], strict)
    ensures r.Some? ==> forall k :: p + 6 <= k < r.value ==> IsSpace(t[k])
  {
    if !OccursAt(Lower(t), "option", p) then None
    else
      var k := SpaceEnd(t, p + 6);
      if p + 6 < k < |t| && LetterClass(t[k], strict) then Some(k) else None
  }

  /** `recommend.*?option\s+([A-Z])` matched at `i`: the lazy gap stays on the line. */
  function RecommendThenOptionAt(t: string, i: nat, strict: bool): (r: Option<char>)
    ensures r.Some? ==> OccursAt(Lower(t), "recommend", i) && LetterClass(r.value, strict) && r.value in t
  {
    if !OccursAt(Lower(t), "recommend", i) then None
    else
      var m := p => OptionLetterAt(t, p, strict);
      match Leftmost(m, i + 9, LineEnd(t, i + 9))
      case Some(k) => Some(t[k])
      case None => None
  }

  /** `option\s+([A-Z]).*?recommend` matched at `i`: the word follows on the letter's line. */
  function OptionThenRecommendAt(t: string, i: nat, strict: bool): (r: Option<char>)
    ensures r.Some? ==> OccursAt(Lower(t), "option", i) && LetterClass(r.value, strict) && r.value in t
  {
    match OptionLetterAt(t, i, strict)
    case None => None
    case Some(k) =>
      if Contains(Lower(t)[k + 1..LineEnd(t, k + 1)], "recommend") then Some(t[k]) else None
  }

  /** The first option marked recommended, if any. */
  function FirstRecommended(options: seq<GateOption>): (r: Option<nat>)
    ensures r.Some? ==> r.value < |options| && options[r.value].isRecommended
    ensures r.Some? ==> forall j :: 0 <= j < r.value ==> !options[j].isRecommended
    ensures r.None? ==> forall j :: 0 <= j < |options| ==> !options[j].isRecommended
  {
    if options == [] then None
    else if options[0].isRecommended then Some(0)
    else match FirstRecommended(options[1..])
      case Some(j) => Some(j + 1)
      case None => None
  }

  /** `_find_recommended` with the letter class chosen by `strict`: the first recommended option's
      letter, else the leftmost "recommend ... option X" on one line, else the leftmost
      "option X ... recommend" on one line, else "". */
  function FindRecommendedWith(text: string, options: seq<GateOption>, strict: bool): (r: string)
    ensures FirstRecommended(options).Some? ==> r == options[FirstRecommended(options).value].letter
    ensures FirstRecommended(options).None? ==> r == "" || (|r| == 1 && LetterClass(r[0], strict) && r[0] in text)
  {
    match FirstRecommended(options)
    case Some(k) => options[k].letter
    case None =>
      match Leftmost((i: nat) => RecommendThenOptionAt(text, i, strict), 0, |text|)
      case Some(c) => [c]
      case None =>
        match Leftmost((i: nat) => OptionThenRecommendAt(text, i, strict), 0, |text|)
        case Some(c) => [c]
        case None => ""
  }

  /** The fallback as the source writes it: `[A-Z]` under IGNORECASE. */
  function FindRecommendedAsWritten(text: string, options: seq<GateOption>): (r: string)
    ensures FirstRecommended(options).None? ==> r == "" || (|r| == 1 && LetterClass(r[0], false) && r[0] in text)
  {
    FindRecommendedWith(text, options, false)
  }

  /** The fallback as evidently intended: the option letter is an upper-case letter. */
  function FindRecommended(text: string, options: seq<GateOption>): (r: string)
    ensures FirstRecommended(options).Some? ==> r == options[FirstRecommended(options).value].letter
    ensures FirstRecommended(options).None? ==> r == "" || (|r| == 1 && 'A' <= r[0] <= 'Z' && r[0] in text)
  {
    FindRecommendedWith(text, options, true)
  }

  /** The reply used to show the difference: lower case only, so case folding changes nothing. */
  const Sample: string := "recommend" + " " + "option" + " " + "because"

  lemma SampleIsLower()
    ensures Lower(Sample) == Sample
  {
  }

  lemma SampleWords()
    ensures |Sample| == 24 && Sample[0..9] == "recommend" && Sample[9] == ' '
    ensures Sample[10..16] == "option" && Sample[16] == ' ' && Sample[17] == 'b'
    ensures forall k :: 9 <= k < 24 ==> Sample[k] != '\n'
  {
  }

  /** The as-written match of the sample: "recommend" at 0, "option" at 10, letter 'b' at 17. */
  lemma SampleMatch()
    ensures RecommendThenOptionAt(Sample, 0, false) == Some('b')
  {
    var t := Sample;
    SampleIsLower();
    SampleWords();
    assert OccursAt(Lower(t), "recommend", 0);
    LineEndAtEnd(t, 9);
    assert !OccursAt(Lower(t), "option", 9) by {
      assert Lower(t)[9..15][0] == ' ';
    }
    assert OccursAt(Lower(t), "option", 10);
    assert SpaceEnd(t, 17) == 17;
    assert SpaceEnd(t, 16) == 17;
    assert OptionLetterAt(t, 10, false) == Some(17);
  }

  lemma LineEndAtEnd(t: string, i: nat)
    requires i <= |t| && forall k :: i <= k < |t| ==> t[k] != '\n'
    ensures LineEnd(t, i) == |t|
  {
  }

  /** As written, an ordinary word after "option" is read as the option letter. */
  lemma AsWrittenReadsWordAsLetter()
    ensures FindRecommendedAsWritten(Sample, []) == "b"
  {
    SampleMatch();
  }

  /** As intended, a reply without an upper-case letter names no option unless one is marked. */
  lemma IntendedNeedsUpperCase(text: string, options: seq<GateOption>)
    requires forall k :: 0 <= k < |text| ==> !('A' <= text[k] <= 'Z')
    requires forall k :: 0 <= k < |options| ==> !options[k].isRecommended
    ensures FindRecommended(text, options) == ""
  {
  }

  /** With the letter class as intended, the same reply names no option. */
  lemma IntendedReadsNoLetter()
    ensures FindRecommended(Sample, []) == ""
  {
    IntendedNeedsUpperCase(Sample, []);
  }
}
