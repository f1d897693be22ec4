/** JSON-shaped values: what `to_dict()` produces and `from_dict()` consumes.
    A dictionary keeps its key order (Python dicts are ordered) next to a map for lookup.
    Decoding is total: a missing key, or a value of the wrong kind, yields the field's default. */
module Values {
  import opened Wrappers

  datatype Value =
    | Null
    | Bool(b: bool)
    | Int(i: int)
    | Str(s: string)
    | List(items: seq<Value>)
    | Dict(keys: seq<string>, fields: map<string, Value>)

  /** The key list of an ordered association list. */
  function KeysOf<T>(l: seq<(string, T)>): (r: seq<string>)
    ensures |r| == |l|
    ensures forall i :: 0 <= i < |l| ==> r[i] == l[i].0
  {
    seq(|l|, i requires 0 <= i < |l| => l[i].0)
  }

  predicate DistinctKeys<T>(l: seq<(string, T)>) {
    forall i, j :: 0 <= i < j < |l| ==> l[i].0 != l[j].0
  }

  // ---------------------------------------------------------------------------
  // Reading fields
  // ---------------------------------------------------------------------------

  /** `data.get(k)` */
  function Field(d: Value, k: string): (r: Option<Value>)
    ensures r.Some? <==> d.Dict? && k in d.fields
  {
    if d.Dict? && k in d.fields then Some(d.fields[k]) else None
  }

  /** A present string value, or the default. */
  function AsStr(o: Option<Value>, default: string): string {
    if o.Some? && o.value.Str? then o.value.s else default
  }

  function AsInt(o: Option<Value>, default: int): int {
    if o.Some? && o.value.Int? then o.value.i else default
  }

  function AsBool(o: Option<Value>, default: bool): bool {
    if o.Some? && o.value.Bool? then o.value.b else default
  }

  /** A `str | None` value whose default is None. */
  function AsOptStr(o: Option<Value>): Option<string> {
    if o.Some? && o.value.Str? then Some(o.value.s) else None
  }

  function AsList(o: Option<Value>): seq<Value> {
    if o.Some? && o.value.List? then o.value.items else []
  }

  /** Python truthiness: `if v:` */
  predicate Truthy(v: Value) {
    match v
    case Null => false
    case Bool(b) => b
    case Int(i) => i != 0
    case Str(s) => s != ""
    case List(items) => items != []
    case Dict(keys, _) => keys != []
  }

  /** The value under `k`, or Null when it is missing. */
  function FieldOrNull(d: Value, k: string): (r: Value)
    ensures Field(d, k).Some? ==> r == Field(d, k).value
    ensures Field(d, k).None? ==> r == Null
  {
    if d.Dict? && k in d.fields then d.fields[k] else Null
  }

  function OptStr(o: Option<string>): Value {
    match o
    case Some(s) => Str(s)
    case None => Null
  }

  function GetStr(d: Value, k: string, default: string): string {
    AsStr(Field(d, k), default)
  }

  function GetInt(d: Value, k: string, default: int): int {
    AsInt(Field(d, k), default)
  }

  function GetList(d: Value, k: string): seq<Value> {
    AsList(Field(d, k))
  }

  // ---------------------------------------------------------------------------
  // Lists of strings and of records
  // ---------------------------------------------------------------------------

  function StrList(xs: seq<string>): (r: Value)
    ensures r.List? && |r.items| == |xs|
    ensures AsStrList(r) == xs
  {
    List(seq(|xs|, i requires 0 <= i < |xs| => Str(xs[i])))
  }

  /** A list of strings; anything else reads as the empty list. */
  function AsStrList(v: Value): seq<string> {
    if v.List? && forall i :: 0 <= i < |v.items| ==> v.items[i].Str?
    then seq(|v.items|, i requires 0 <= i < |v.items| && v.items[i].Str? => v.items[i].s)
    else []
  }

  function AsStrListOpt(o: Option<Value>): seq<string> {
    if o.Some? then AsStrList(o.value) else []
  }

  lemma StrListRoundTrip(xs: seq<string>)
    ensures AsStrList(StrList(xs)) == xs
  {
  }

  function EncodeList<T>(xs: seq<T>, enc: T -> Value): (r: Value)
    ensures r.List? && |r.items| == |xs|
  {
    List(seq(|xs|, i requires 0 <= i < |xs| => enc(xs[i])))
  }

  function DecodeList<T>(v: Value, dec: Value -> T): seq<T> {
    if v.List? then seq(|v.items|, i requires 0 <= i < |v.items| => dec(v.items[i])) else []
  }

  lemma ListRoundTrip<T>(xs: seq<T>, enc: T -> Value, dec: Value -> T)
    requires forall x :: dec(enc(x)) == x
    ensures DecodeList(EncodeList(xs, enc), dec) == xs
  {
  }

  // ---------------------------------------------------------------------------
  // Ordered dictionaries (Python dicts keyed by strings)
  // ---------------------------------------------------------------------------

  /** The lookup map of an association list; a later entry overrides an earlier one. */
  function AssocMap<T>(l: seq<(string, T)>, enc: T -> Value): (m: map<string, Value>)
    ensures m.Keys == set i | 0 <= i < |l| :: l[i].0
  {
    if |l| == 0 then map[]
    else AssocMap(l[..|l| - 1], enc)[l[|l| - 1].0 := enc(l[|l| - 1].1)]
  }

  lemma {:induction false} AssocMapAt<T>(l: seq<(string, T)>, enc: T -> Value, i: int)
    requires DistinctKeys(l) && 0 <= i < |l|
    ensures l[i].0 in AssocMap(l, enc) && AssocMap(l, enc)[l[i].0] == enc(l[i].1)
  {
    if i < |l| - 1 {
      AssocMapAt(l[..|l| - 1], enc, i);
    }
  }

  /** `d.get(k)` on an association list: the first entry under `k`. */
  function Get<T>(l: seq<(string, T)>, k: string): (r: Option<T>)
    ensures r.Some? <==> k in KeysOf(l)
  {
    if |l| == 0 then None
    else if l[0].0 == k then Some(l[0].1)
    else Get(l[1..], k)
  }

  /** `d[k] = v`: an existing key keeps its position and takes the new value;
      a new key goes to the end. */
  function Put<T>(l: seq<(string, T)>, k: string, v: T): (r: seq<(string, T)>)
    ensures Get(r, k) == Some(v)
    ensures forall k' :: k' != k ==> Get(r, k') == Get(l, k')
    ensures k in KeysOf(l) ==> KeysOf(r) == KeysOf(l)
    ensures k !in KeysOf(l) ==> r == l + [(k, v)]
  {
    if |l| == 0 then [(k, v)]
    else if l[0].0 == k then
      PutHead(l, k, v);
      [(k, v)] + l[1..]
    else
      var rest := Put(l[1..], k, v);
      PutTailFound(l, k, v, rest);
      PutTailOthers(l, k, rest);
      PutTailKeys(l, k, v, rest);
      [l[0]] + rest
  }

  /** Replacing the first entry's value. */
  lemma PutHead<T>(l: seq<(string, T)>, k: string, v: T)
    requires |l| > 0 && l[0].0 == k
    ensures var r := [(k, v)] + l[1..];
      Get(r, k) == Some(v) && (forall k' :: k' != k ==> Get(r, k') == Get(l, k')) &&
      k in KeysOf(l) && KeysOf(r) == KeysOf(l)
  {
    var r := [(k, v)] + l[1..];
    assert r[1..] == l[1..];
    assert KeysOf(l)[0] == k;
  }

  /** Putting into the tail behind a different first key finds the new value. */
  lemma PutTailFound<T>(l: seq<(string, T)>, k: string, v: T, rest: seq<(string, T)>)
    requires |l| > 0 && l[0].0 != k && Get(rest, k) == Some(v)
    ensures Get([l[0]] + rest, k) == Some(v)
  {
    var r := [l[0]] + rest;
    assert r[0] == l[0] && r[1..] == rest;
  }

  /** ... and leaves every other key's value as it was. */
  lemma PutTailOthers<T>(l: seq<(string, T)>, k: string, rest: seq<(string, T)>)
    requires |l| > 0
    requires forall k' :: k' != k ==> Get(rest, k') == Get(l[1..], k')
    ensures forall k' :: k' != k ==> Get([l[0]] + rest, k') == Get(l, k')
  {
    var r := [l[0]] + rest;
    assert r[0] == l[0] && r[1..] == rest;
  }

  /** ... and keeps the keys, or appends the new one at the end. */
  lemma PutTailKeys<T>(l: seq<(string, T)>, k: string, v: T, rest: seq<(string, T)>)
    requires |l| > 0 && l[0].0 != k
    requires k in KeysOf(l[1..]) ==> KeysOf(rest) == KeysOf(l[1..])
    requires k !in KeysOf(l[1..]) ==> rest == l[1..] + [(k, v)]
    ensures k in KeysOf(l) ==> KeysOf([l[0]] + rest) == KeysOf(l)
    ensures k !in KeysOf(l) ==> [l[0]] + rest == l + [(k, v)]
  {
    var r := [l[0]] + rest;
    assert r[0] == l[0] && r[1..] == rest;
    KeysOfCons(l);
    KeysOfCons(r);
    if k !in KeysOf(l) {
      assert l == [l[0]] + l[1..];
    }
  }

  lemma KeysOfCons<T>(l: seq<(string, T)>)
    requires |l| > 0
    ensures KeysOf(l) == [l[0].0] + KeysOf(l[1..])
  {
  }

  lemma PutDistinct<T>(l: seq<(string, T)>, k: string, v: T)
    ensures DistinctKeys(l) ==> DistinctKeys(Put(l, k, v))
  {
    var r := Put(l, k, v);
    if DistinctKeys(l) && k in KeysOf(l) {
      assert KeysOf(r) == KeysOf(l);
      forall i, j | 0 <= i < j < |r| ensures r[i].0 != r[j].0 {
        assert r[i].0 == KeysOf(r)[i] && r[j].0 == KeysOf(r)[j];
        assert l[i].0 == KeysOf(l)[i] && l[j].0 == KeysOf(l)[j];
      }
    }
  }

  function EncodeAssoc<T>(l: seq<(string, T)>, enc: T -> Value): (r: Value)
    ensures r.Dict? && r.keys == KeysOf(l)
  {
    Dict(KeysOf(l), AssocMap(l, enc))
  }

  /** A dictionary read back in key order; a listed key without a field reads as `dec(Null)`. */
  function DecodeAssoc<T>(v: Value, dec: Value -> T): (r: seq<(string, T)>)
    ensures v.Dict? ==> KeysOf(r) == v.keys
  {
    if v.Dict? then
      seq(|v.keys|, i requires 0 <= i < |v.keys| =>
        (v.keys[i], if v.keys[i] in v.fields then dec(v.fields[v.keys[i]]) else dec(Null)))
    else []
  }

  lemma AssocRoundTrip<T>(l: seq<(string, T)>, enc: T -> Value, dec: Value -> T)
    requires DistinctKeys(l)
    requires forall x :: dec(enc(x)) == x
    ensures DecodeAssoc(EncodeAssoc(l, enc), dec) == l
  {
    var r := DecodeAssoc(EncodeAssoc(l, enc), dec);
    forall i | 0 <= i < |l| ensures r[i] == l[i] {
      AssocMapAt(l, enc, i);
    }
  }

  function EncodeStrMap(l: seq<(string, string)>): Value {
    EncodeAssoc(l, (s: string) => Str(s))
  }

  /** A dict of strings; a non-string value reads as "". */
  function DecodeStrMap(v: Value): seq<(string, string)> {
    DecodeAssoc(v, (x: Value) => if x.Str? then x.s else "")
  }

  lemma StrMapRoundTrip(l: seq<(string, string)>)
    requires DistinctKeys(l)
    ensures DecodeStrMap(EncodeStrMap(l)) == l
  {
    AssocRoundTrip(l, (s: string) => Str(s), (x: Value) => if x.Str? then x.s else "");
  }

  // ---------------------------------------------------------------------------
  // Records: a dictionary with a fixed key list, read back by position
  // ---------------------------------------------------------------------------

  predicate DistinctStrings(keys: seq<string>) {
    forall i, j :: 0 <= i < j < |keys| ==> keys[i] != keys[j]
  }

  /** Length and first two characters, which tell apart the keys of the longer records. */
  function KeySignature(k: string): (int, char, char) {
    if |k| < 2 then (|k|, ' ', ' ') else (|k|, k[0], k[1])
  }

  lemma DistinctBySignature(keys: seq<string>)
    requires forall i, j :: 0 <= i < j < |keys| ==> KeySignature(keys[i]) != KeySignature(keys[j])
    ensures DistinctStrings(keys)
  {
  }

  /** The lookup map of parallel key and value lists; a later key overrides an earlier one. */
  function Pairs(keys: seq<string>, vals: seq<Value>): (m: map<string, Value>)
    requires |keys| == |vals|
    ensures m.Keys == set i | 0 <= i < |keys| :: keys[i]
  {
    if |keys| == 0 then map[]
    else Pairs(keys[..|keys| - 1], vals[..|vals| - 1])[keys[|keys| - 1] := vals[|vals| - 1]]
  }

  lemma {:induction false} PairsAt(keys: seq<string>, vals: seq<Value>, i: int)
    requires |keys| == |vals| && DistinctStrings(keys) && 0 <= i < |keys|
    ensures keys[i] in Pairs(keys, vals) && Pairs(keys, vals)[keys[i]] == vals[i]
  {
    if i < |keys| - 1 {
      PairsAt(keys[..|keys| - 1], vals[..|vals| - 1], i);
    }
  }

  /** The dictionary `{keys[0]: vals[0], ...}` in key order. */
  function Record(keys: seq<string>, vals: seq<Value>): (r: Value)
    requires |keys| == |vals|
    ensures r.Dict? && r.keys == keys
  {
    Dict(keys, Pairs(keys, vals))
  }

  /** `[data.get(k) for k in keys]` */
  function Lookup(d: Value, keys: seq<string>): (r: seq<Option<Value>>)
    ensures |r| == |keys|
    ensures forall i :: 0 <= i < |keys| ==> r[i] == Field(d, keys[i])
  {
    seq(|keys|, i requires 0 <= i < |keys| => Field(d, keys[i]))
  }

  /** Every value present. */
  function Somes(vals: seq<Value>): (r: seq<Option<Value>>)
    ensures |r| == |vals|
    ensures forall i :: 0 <= i < |vals| ==> r[i] == Some(vals[i])
  {
    seq(|vals|, i requires 0 <= i < |vals| => Some(vals[i]))
  }

  /** Reading a record back by its own keys finds every value it was built from. */
  lemma LookupRecord(keys: seq<string>, vals: seq<Value>)
    requires |keys| == |vals| && DistinctStrings(keys)
    ensures Lookup(Record(keys, vals), keys) == Somes(vals)
  {
    forall i | 0 <= i < |keys| {
      PairsAt(keys, vals, i);
    }
  }

  // ---------------------------------------------------------------------------
  // Field filtering: `cls(**{k: v for k, v in data.items() if k in fields})`
  // ---------------------------------------------------------------------------

  /** Two dictionaries that hold the same values under every key in `names`: a decoder that
      reads only those keys cannot tell them apart, whatever else either one holds. */
  predicate AgreeOn(d1: Value, d2: Value, names: set<string>) {
    forall k :: k in names ==> Field(d1, k) == Field(d2, k)
  }

  lemma LookupAgree(d1: Value, d2: Value, keys: seq<string>)
    requires AgreeOn(d1, d2, set k | k in keys)
    ensures Lookup(d1, keys) == Lookup(d2, keys)
  {
    forall i | 0 <= i < |keys| ensures Field(d1, keys[i]) == Field(d2, keys[i]) {
      assert keys[i] in set k | k in keys;
    }
  }
}
