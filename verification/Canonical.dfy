/**
 * Canonical JSON (src/core/canonical.ts). `Json` is what a JavaScript caller hands in:
 * object fields in insertion order, `undefined` allowed. `Val` is the JSON value such an
 * input stands for: no `undefined`, objects as finite maps.
 */
module Canonical {
  import opened Basics

  datatype Json =
    | JUndefined
    | JNull
    | JBool(flag: bool)
    | JNum(num: int)
    | JStr(text: Text)
    | JArr(items: seq<Json>)
    | JObj(fields: seq<Field>)

  datatype Field = Field(key: Text, value: Json)

  datatype Val =
    | VNull
    | VBool(flag: bool)
    | VNum(num: int)
    | VStr(text: Text)
    | VArr(items: seq<Val>)
    | VObj(fields: map<Text, Val>)

  /** An optional string as an optional value. */
  function TextVal(t: Option<Text>): Option<Val> { if t.Some? then Some(VStr(t.value)) else None }

  // ---------------------------------------------------------------- meaning

  /** A JavaScript object never has the same key twice. */
  predicate Plain(j: Json) {
    match j
    case JArr(items) => forall x :: x in items ==> Plain(x)
    case JObj(fields) =>
      && (forall f :: f in fields ==> Plain(f.value))
      && (forall i, k :: 0 <= i < k < |fields| ==> fields[i].key != fields[k].key)
    case _ => true
  }

  /** The value an input stands for; None when it holds an `undefined` that is not a field. */
  function Meaning(j: Json): Option<Val> {
    match j
    case JUndefined => None
    case JNull => Some(VNull)
    case JBool(b) => Some(VBool(b))
    case JNum(n) => Some(VNum(n))
    case JStr(s) => Some(VStr(s))
    case JArr(items) =>
      var vs := Meanings(items);
      if vs.None? then None else Some(VArr(vs.value))
    case JObj(fields) =>
      var m := FieldMeanings(fields);
      if m.None? then None else Some(VObj(m.value))
  }

  function Meanings(items: seq<Json>): Option<seq<Val>> {
    if items == [] then Some([]) else
      var v := Meaning(items[0]);
      var vs := Meanings(items[1..]);
      if v.None? || vs.None? then None else Some([v.value] + vs.value)
  }

  function FieldMeanings(fields: seq<Field>): Option<map<Text, Val>> {
    if fields == [] then Some(map[]) else
      var m := FieldMeanings(fields[1..]);
      if fields[0].value == JUndefined then m else
        var v := Meaning(fields[0].value);
        if v.None? || m.None? then None else Some(m.value[fields[0].key := v.value])
  }

  // ---------------------------------------------------------------- key order

  /** Code-unit order, which is what `<` compares on JavaScript strings. */
  predicate Less(a: Text, b: Text) {
    b != [] && (a == [] || a[0] < b[0] || (a[0] == b[0] && Less(a[1..], b[1..])))
  }

  lemma LessTrans(a: Text, b: Text, c: Text)
    requires Less(a, b) && Less(b, c)
    ensures Less(a, c)
  {}

  lemma LessTotal(a: Text, b: Text)
    requires a != b
    ensures Less(a, b) || Less(b, a)
  {
    if a != [] && b != [] && a[0] == b[0] {
      assert a == [a[0]] + a[1..] && b == [b[0]] + b[1..];
      LessTotal(a[1..], b[1..]);
    }
  }

  lemma LessAsym(a: Text, b: Text)
    ensures !(Less(a, b) && Less(b, a))
  {}

  /** Strictly increasing in code-unit order. */
  predicate Sorted(ks: seq<Text>) {
    forall i, j :: 0 <= i < j < |ks| ==> Less(ks[i], ks[j])
  }

  predicate IsLeast(k: Text, s: set<Text>) {
    k in s && forall x :: x in s ==> x == k || Less(k, x)
  }

  lemma LeastExists(s: set<Text>) returns (k: Text)
    requires s != {}
    ensures IsLeast(k, s)
  {
    var y :| y in s;
    k := y;
    if s != {y} {
      var l := LeastExists(s - {y});
      LessTotal(y, l);
      if Less(l, y) {
        k := l;
      } else {
        forall x | x in s - {y} ensures Less(y, x) {
          if x != l { LessTrans(y, l, x); }
        }
      }
    }
  }

  lemma LeastUnique(a: Text, b: Text, s: set<Text>)
    requires IsLeast(a, s) && IsLeast(b, s)
    ensures a == b
  {
    LessAsym(a, b);
  }

  function Least(s: set<Text>): (k: Text)
    requires s != {}
    ensures IsLeast(k, s)
  {
    assert exists k :: IsLeast(k, s) by { var k := LeastExists(s); }
    assert forall a, b | IsLeast(a, s) && IsLeast(b, s) :: a == b by {
      forall a, b | IsLeast(a, s) && IsLeast(b, s) ensures a == b { LeastUnique(a, b, s); }
    }
    var k :| k in s && IsLeast(k, s);
    k
  }

  /** The members of a finite set of keys, in code-unit order. */
  function InOrder(s: set<Text>): (ks: seq<Text>)
    ensures Sorted(ks)
    ensures forall k :: k in ks <==> k in s
  {
    if s == {} then [] else
      var k := Least(s);
      var rest := InOrder(s - {k});
      assert forall x :: x in s <==> x == k || x in s - {k};
      [k] + rest
  }

  lemma HasMember<T>(b: seq<T>)
    requires b != []
    ensures exists k :: k in b
  {
    assert b[0] in b;
  }

  lemma {:induction false} SortedUnique(a: seq<Text>, b: seq<Text>)
    requires Sorted(a) && Sorted(b)
    requires forall k :: k in a <==> k in b
    ensures a == b
  {
    if a == [] {
      if b != [] { HasMember(b); }
    } else {
      assert a[0] in a && a[0] in b;
      assert b != [] && b[0] in b && b[0] in a;
      var i :| 0 <= i < |b| && b[i] == a[0];
      var j :| 0 <= j < |a| && a[j] == b[0];
      if i != 0 { LessAsym(a[0], b[0]); }
      assert a[0] == b[0];
      forall k ensures k in a[1..] <==> k in b[1..] {
        if k in a[1..] {
          var p :| 1 <= p < |a| && a[p] == k;
          LessAsym(a[0], k);
          assert k in a && k in b && k != b[0];
        }
        if k in b[1..] {
          var p :| 1 <= p < |b| && b[p] == k;
          LessAsym(b[0], k);
          assert k in b && k in a && k != a[0];
        }
      }
      SortedUnique(a[1..], b[1..]);
      assert a == [a[0]] + a[1..] && b == [b[0]] + b[1..];
    }
  }

  // ---------------------------------------------------------------- tokens

  const QUOTE: CodeUnit := 34
  const COMMA: CodeUnit := 44
  const COLON: CodeUnit := 58
  const BACKSLASH: CodeUnit := 92

  predicate High(u: CodeUnit) { 0xD800 <= u < 0xDC00 }

  predicate Low(u: CodeUnit) { 0xDC00 <= u < 0xE000 }

  function HexDigit(d: int): CodeUnit
    requires 0 <= d < 16
  {
    if d < 10 then 48 + d else 87 + d
  }

  function Hex4(u: CodeUnit): Text {
    [HexDigit(u / 16 / 16 / 16), HexDigit(u / 16 / 16 % 16), HexDigit(u / 16 % 16), HexDigit(u % 16)]
  }

  /** The letter of a two-character escape; 0 when the unit has none. */
  function ShortEscape(u: CodeUnit): CodeUnit {
    if u == QUOTE || u == BACKSLASH then u
    else if u == 8 then 98
    else if u == 9 then 116
    else if u == 10 then 110
    else if u == 12 then 102
    else if u == 13 then 114
    else 0
  }

  /** How one code unit is written inside a string; `paired` says it belongs to a surrogate pair. */
  function Token(u: CodeUnit, paired: bool): Text {
    if ShortEscape(u) != 0 then [BACKSLASH, ShortEscape(u)]
    else if u < 32 || ((High(u) || Low(u)) && !paired) then [BACKSLASH, 117] + Hex4(u)
    else [u]
  }

  function Escape(afterHigh: bool, s: Text): Text
    decreases s
  {
    if s == [] then [] else
      var paired := if High(s[0]) then |s| > 1 && Low(s[1]) else afterHigh;
      Token(s[0], paired) + Escape(High(s[0]), s[1..])
  }

  /** JSON.stringify of a string: section 7 of RFC 8259, lone surrogates escaped. */
  function Quote(s: Text): Text {
    [QUOTE] + Escape(false, s) + [QUOTE]
  }

  function Digits(n: nat): Text {
    if n < 10 then [48 + n] else Digits(n / 10) + [48 + n % 10]
  }

  /** An integer in decimal. */
  function Decimal(n: int): Text {
    if n < 0 then [45] + Digits(-n) else Digits(n)
  }

  // ---------------------------------------------------------------- printing values

  function Print(v: Val): Text
    decreases v, 1, 0
  {
    match v
    case VNull => Lit("null")
    case VBool(b) => if b then Lit("true") else Lit("false")
    case VNum(n) => Decimal(n)
    case VStr(s) => Quote(s)
    case VArr(items) => [91] + PrintItems(items) + [93]
    case VObj(m) => [123] + PrintFields(m, InOrder(m.Keys)) + [125]
  }

  function PrintItems(items: seq<Val>): Text {
    if items == [] then []
    else if |items| == 1 then Print(items[0])
    else Print(items[0]) + [COMMA] + PrintItems(items[1..])
  }

  function PrintFields(m: map<Text, Val>, ks: seq<Text>): Text
    requires forall k :: k in ks ==> k in m
    decreases VObj(m), 0, |ks|
  {
    if ks == [] then []
    else
      var head := Quote(ks[0]) + [COLON] + Print(m[ks[0]]);
      if |ks| == 1 then head else head + [COMMA] + PrintFields(m, ks[1..])
  }

  // ---------------------------------------------------------------- canonicalize

  function Join(parts: seq<Text>): Text {
    if parts == [] then []
    else if |parts| == 1 then parts[0]
    else parts[0] + [COMMA] + Join(parts[1..])
  }

  datatype Entry = Entry(key: Text, text: Text)

  function Insert(e: Entry, es: seq<Entry>): seq<Entry> {
    if es == [] || Less(e.key, es[0].key) then [e] + es
    else [es[0]] + Insert(e, es[1..])
  }

  function SortByKey(es: seq<Entry>): seq<Entry> {
    if es == [] then [] else Insert(es[0], SortByKey(es[1..]))
  }

  function Labelled(es: seq<Entry>): seq<Text> {
    if es == [] then [] else [Quote(es[0].key) + [COLON] + es[0].text] + Labelled(es[1..])
  }

  /** The source's recursion: print, drop undefined fields, sort by key, join. None is a throw. */
  function Canonicalize(j: Json): Option<Text> {
    match j
    case JUndefined => None
    case JNull => Some(Lit("null"))
    case JBool(b) => Some(if b then Lit("true") else Lit("false"))
    case JNum(n) => Some(Decimal(n))
    case JStr(s) => Some(Quote(s))
    case JArr(items) =>
      var ts := CanonicalItems(items);
      if ts.None? then None else Some([91] + Join(ts.value) + [93])
    case JObj(fields) =>
      var es := CanonicalFields(fields);
      if es.None? then None else Some([123] + Join(Labelled(SortByKey(es.value))) + [125])
  }

  function CanonicalItems(items: seq<Json>): Option<seq<Text>> {
    if items == [] then Some([]) else
      var t := Canonicalize(items[0]);
      var ts := CanonicalItems(items[1..]);
      if t.None? || ts.None? then None else Some([t.value] + ts.value)
  }

  function CanonicalFields(fields: seq<Field>): Option<seq<Entry>> {
    if fields == [] then Some([]) else
      var es := CanonicalFields(fields[1..]);
      if fields[0].value == JUndefined then es else
        var t := Canonicalize(fields[0].value);
        if t.None? || es.None? then None else Some([Entry(fields[0].key, t.value)] + es.value)
  }

  // ---------------------------------------------------------------- digests

  function HexOf(t: Text): Text {
    if t == [] then [] else Hex4(t[0]) + HexOf(t[1..])
  }

  /**
   * A digest stands as its preimage, spelled in hexadecimal after a tag: only injectivity is used of
   * it. What is so tagged counts as the 64 hexadecimal digits it stands for.
   */
  function Sha256(text: Text): Text {
    Lit("sha256:") + HexOf(text)
  }

  predicate LowerHex(c: CodeUnit) { 48 <= c < 58 || 97 <= c <= 102 }

  predicate Symbolic(t: Text) {
    StartsWith(t, Lit("sha256:")) && forall i :: 7 <= i < |t| ==> LowerHex(t[i])
  }
}
