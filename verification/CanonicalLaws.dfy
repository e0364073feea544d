/** What canonical JSON promises: the text determines the value, and nothing but the value. */
module CanonicalLaws {
  import opened Basics
  import opened Canonical

  // ---------------------------------------------------------------- strings

  lemma HexDigitInjective(d: int, e: int)
    requires 0 <= d < 16 && 0 <= e < 16 && HexDigit(d) == HexDigit(e)
    ensures d == e
  {}

  lemma LastDigit(u: int, w: int)
    requires u / 16 == w / 16 && u % 16 == w % 16
    ensures u == w
  {}

  lemma HexInjective(u: CodeUnit, w: CodeUnit)
    requires Hex4(u) == Hex4(w)
    ensures u == w
  {
    HexDigitInjective(u / 16 / 16 / 16, w / 16 / 16 / 16) by { assert Hex4(u)[0] == Hex4(w)[0]; }
    HexDigitInjective(u / 16 / 16 % 16, w / 16 / 16 % 16) by { assert Hex4(u)[1] == Hex4(w)[1]; }
    HexDigitInjective(u / 16 % 16, w / 16 % 16) by { assert Hex4(u)[2] == Hex4(w)[2]; }
    HexDigitInjective(u % 16, w % 16) by { assert Hex4(u)[3] == Hex4(w)[3]; }
    LastDigit(u / 16 / 16, w / 16 / 16);
    LastDigit(u / 16, w / 16);
    LastDigit(u, w);
  }

  /** A token is one raw unit, or starts with a backslash; it never starts with a quote. */
  lemma TokenStart(u: CodeUnit, p: bool)
    ensures Token(u, p) != []
    ensures Token(u, p)[0] != QUOTE
    ensures Token(u, p)[0] != BACKSLASH ==> Token(u, p) == [u]
    ensures forall c :: c in Token(u, p) ==> c >= 32
  {}

  /** A token starting with a backslash spells its unit in the characters after it. */
  lemma EscapedUnit(u: CodeUnit, p: bool, w: CodeUnit, q: bool)
    requires Token(u, p)[0] == BACKSLASH && Token(w, q)[0] == BACKSLASH
    requires Token(u, p)[1] == Token(w, q)[1]
    requires Token(u, p)[1] == 117 ==> Token(u, p)[2..] == Token(w, q)[2..]
    ensures u == w && |Token(u, p)| == |Token(w, q)|
  {
    if Token(u, p)[1] == 117 { HexInjective(u, w); }
  }

  /** Tokens can be read back one at a time from the front of any text. */
  lemma TokenSplit(u: CodeUnit, p: bool, w: CodeUnit, q: bool, x: Text, y: Text)
    requires Token(u, p) + x == Token(w, q) + y
    ensures u == w && x == y
  {
    var t, r, z := Token(u, p), Token(w, q), Token(u, p) + x;
    assert z[0] == t[0] == r[0];
    if t[0] == BACKSLASH {
      assert z[1] == t[1] == r[1];
      if t[1] == 117 { assert t[2..] == z[2..6] == r[2..]; }
      EscapedUnit(u, p, w, q);
    }
    assert x == z[|t|..] && y == z[|r|..];
  }

  /** Both strings end here, or both go on. */
  lemma EscapeEnds(h: bool, s: Text, k: bool, t: Text, x: Text, y: Text)
    requires Escape(h, s) + [QUOTE] + x == Escape(k, t) + [QUOTE] + y
    ensures s == [] <==> t == []
    ensures s == [] ==> x == y
  {
    EscapeFront(h, s, x);
    EscapeFront(k, t, y);
    assert s == [] ==> x == (Escape(h, s) + [QUOTE] + x)[1..];
    assert t == [] ==> y == (Escape(k, t) + [QUOTE] + y)[1..];
  }

  function Paired(h: bool, s: Text): bool
    requires s != []
  {
    if High(s[0]) then |s| > 1 && Low(s[1]) else h
  }

  lemma EscapeUnfold(h: bool, s: Text, x: Text)
    requires s != []
    ensures Escape(h, s) + [QUOTE] + x
         == Token(s[0], Paired(h, s)) + (Escape(High(s[0]), s[1..]) + [QUOTE] + x)
  {}

  lemma {:induction false} EscapeSplit(h: bool, s: Text, k: bool, t: Text, x: Text, y: Text)
    requires Escape(h, s) + [QUOTE] + x == Escape(k, t) + [QUOTE] + y
    ensures s == t && x == y
    decreases |s|
  {
    EscapeEnds(h, s, k, t, x, y);
    if s == [] {
    } else {
      var es, et := Escape(High(s[0]), s[1..]), Escape(High(t[0]), t[1..]);
      EscapeUnfold(h, s, x);
      EscapeUnfold(k, t, y);
      TokenSplit(s[0], Paired(h, s), t[0], Paired(k, t), es + [QUOTE] + x, et + [QUOTE] + y);
      EscapeSplit(High(s[0]), s[1..], High(t[0]), t[1..], x, y);
      assert s == [s[0]] + s[1..] && t == [t[0]] + t[1..];
    }
  }

  lemma EscapeFront(h: bool, s: Text, x: Text)
    ensures (Escape(h, s) + [QUOTE] + x)[0] == QUOTE <==> s == []
  {
    if s != [] {
      EscapeUnfold(h, s, x);
      TokenStart(s[0], Paired(h, s));
    }
  }

  lemma QuoteSplit(s: Text, t: Text, x: Text, y: Text)
    requires Quote(s) + x == Quote(t) + y
    ensures s == t && x == y
  {
    assert Quote(s) + x == [QUOTE] + (Escape(false, s) + [QUOTE] + x);
    assert Quote(t) + y == [QUOTE] + (Escape(false, t) + [QUOTE] + y);
    assert (Quote(s) + x)[1..] == Escape(false, s) + [QUOTE] + x;
    assert (Quote(t) + y)[1..] == Escape(false, t) + [QUOTE] + y;
    EscapeSplit(false, s, false, t, x, y);
  }

  // ---------------------------------------------------------------- numbers

  predicate IsDigit(c: CodeUnit) { 48 <= c < 58 }

  function Value(ds: Text): int {
    if ds == [] then 0 else Value(ds[..|ds| - 1]) * 10 + ds[|ds| - 1] as int - 48
  }

  lemma {:induction false} DigitsValue(n: nat)
    ensures Digits(n) != []
    ensures forall c :: c in Digits(n) ==> IsDigit(c)
    ensures Value(Digits(n)) == n
  {
    if n >= 10 {
      DigitsValue(n / 10);
      var ds := Digits(n / 10) + [48 + n % 10];
      assert ds[..|ds| - 1] == Digits(n / 10);
    } else {
      assert [48 + n][..0] == [];
    }
  }

  /** What may follow a value: nothing, a comma, a bracket or a brace. */
  predicate Stop(x: Text) {
    x != [] ==> x[0] == COMMA || x[0] == 93 || x[0] == 125
  }

  lemma DigitsNotLonger(a: Text, b: Text, x: Text, y: Text)
    requires a + x == b + y && Stop(x)
    requires forall c :: c in b ==> IsDigit(c)
    ensures |b| <= |a|
  {
    assert forall i :: 0 <= i < |b| ==> IsDigit((b + y)[i]) by {
      forall i | 0 <= i < |b| ensures IsDigit((b + y)[i]) { assert (b + y)[i] == b[i] && b[i] in b; }
    }
    assert x != [] ==> !IsDigit((a + x)[|a|]);
    assert |a + x| == |b + y|;
  }

  lemma DigitsSplit(n: nat, m: nat, x: Text, y: Text)
    requires Digits(n) + x == Digits(m) + y && Stop(x) && Stop(y)
    ensures n == m && x == y
  {
    var a, b := Digits(n), Digits(m);
    DigitsValue(n);
    DigitsValue(m);
    DigitsNotLonger(a, b, x, y);
    DigitsNotLonger(b, a, y, x);
    assert a == (a + x)[..|a|] && b == (b + y)[..|b|];
    assert x == (a + x)[|a|..] && y == (b + y)[|b|..];
  }

  lemma DecimalSign(n: int, x: Text)
    ensures Decimal(n) + x != []
    ensures (Decimal(n) + x)[0] == 45 <==> n < 0
    ensures n < 0 ==> Decimal(n) + x == [45] + (Digits(-n) + x)
  {
    DecimalStart(n);
  }

  lemma DecimalSplit(n: int, m: int, x: Text, y: Text)
    requires Decimal(n) + x == Decimal(m) + y && Stop(x) && Stop(y)
    ensures n == m && x == y
  {
    DecimalSign(n, x);
    DecimalSign(m, y);
    if n < 0 {
      Uncons(45, Digits(-n) + x, 45, Digits(-m) + y);
      DigitsSplit(-n, -m, x, y);
    } else {
      DigitsSplit(n, m, x, y);
    }
  }

  lemma Uncons(c: CodeUnit, x: Text, d: CodeUnit, y: Text)
    requires [c] + x == [d] + y
    ensures c == d && x == y
  {
    assert c == ([c] + x)[0] && d == ([d] + y)[0];
    assert x == ([c] + x)[1..] && y == ([d] + y)[1..];
  }

  lemma DecimalStart(n: int)
    ensures Decimal(n) != []
    ensures if n < 0 then Decimal(n)[0] == 45 else IsDigit(Decimal(n)[0])
  {
    if n >= 0 {
      DigitsValue(n);
      assert Digits(n)[0] in Digits(n);
    }
  }

  // ---------------------------------------------------------------- values

  /** The constructor a first character announces. */
  function Announced(c: CodeUnit): int {
    if c == 110 then 0
    else if c == 116 then 1
    else if c == 102 then 2
    else if c == 45 || IsDigit(c) then 3
    else if c == QUOTE then 4
    else if c == 91 then 5
    else if c == 123 then 6
    else 7
  }

  function Shape(v: Val): int {
    match v
    case VNull => 0
    case VBool(b) => if b then 1 else 2
    case VNum(_) => 3
    case VStr(_) => 4
    case VArr(_) => 5
    case VObj(_) => 6
  }

  lemma PrintStart(v: Val, x: Text)
    ensures Print(v) != [] && Announced((Print(v) + x)[0]) == Shape(v)
  {
    match v
    case VNum(n) => DecimalStart(n);
    case VBool(b) => assert Lit("true")[0] == 116 && Lit("false")[0] == 102;
    case _ => assert Lit("null")[0] == 110;
  }

  lemma SameTail(p: Text, x: Text, y: Text)
    requires p + x == p + y
    ensures x == y
  {
    assert x == (p + x)[|p|..] && y == (p + y)[|p|..];
  }

  /** Text after a list element: the next element, or the end of the list. */
  lemma ItemsUnfold(items: seq<Val>, x: Text)
    requires items != []
    ensures PrintItems(items) + [93] + x == Print(items[0]) + ItemsRest(items, x)
    ensures Stop(ItemsRest(items, x))
  {
    ItemsStep(items);
    CommaShift(Print(items[0]), PrintItems(items[1..]), x);
  }

  lemma ItemsStep(items: seq<Val>)
    requires items != []
    ensures PrintItems(items)
         == if |items| == 1 then Print(items[0]) else Print(items[0]) + [COMMA] + PrintItems(items[1..])
  {}

  lemma CommaShift(v: Text, more: Text, x: Text)
    ensures v + [COMMA] + more + [93] + x == v + ([COMMA] + (more + [93] + x))
    ensures v + [93] + x == v + ([93] + x)
  {}

  function ItemsRest(items: seq<Val>, x: Text): Text
    requires items != []
  {
    if |items| == 1 then [93] + x else [COMMA] + (PrintItems(items[1..]) + [93] + x)
  }

  lemma ItemsRestSplit(a: seq<Val>, b: seq<Val>, x: Text, y: Text)
    requires a != [] && b != [] && ItemsRest(a, x) == ItemsRest(b, y)
    ensures |a| == 1 <==> |b| == 1
    ensures |a| == 1 ==> x == y
    ensures |a| != 1 ==> PrintItems(a[1..]) + [93] + x == PrintItems(b[1..]) + [93] + y
  {
    Uncons(if |a| == 1 then 93 else COMMA, if |a| == 1 then x else PrintItems(a[1..]) + [93] + x,
           if |b| == 1 then 93 else COMMA, if |b| == 1 then y else PrintItems(b[1..]) + [93] + y);
  }

  lemma ItemsFront(items: seq<Val>, x: Text)
    ensures (PrintItems(items) + [93] + x)[0] == 93 <==> items == []
  {
    if items != [] {
      ItemsUnfold(items, x);
      PrintStart(items[0], ItemsRest(items, x));
    }
  }

  lemma ItemsHead(a: seq<Val>, b: seq<Val>, x: Text, y: Text)
    requires PrintItems(a) + [93] + x == PrintItems(b) + [93] + y
    ensures a == [] <==> b == []
    ensures a == [] ==> x == y
    ensures a != [] ==>
      Print(a[0]) + ItemsRest(a, x) == Print(b[0]) + ItemsRest(b, y) && Stop(ItemsRest(a, x)) && Stop(ItemsRest(b, y))
  {
    ItemsFront(a, x);
    ItemsFront(b, y);
    if a == [] {
      Uncons(93, x, 93, y) by { assert [] + [93] + x == [93] + x && [] + [93] + y == [93] + y; }
    } else {
      ItemsUnfold(a, x);
      ItemsUnfold(b, y);
    }
  }

  function FieldsRest(m: map<Text, Val>, ks: seq<Text>, x: Text): Text
    requires ks != [] && forall k :: k in ks ==> k in m
  {
    if |ks| == 1 then [125] + x else [COMMA] + (PrintFields(m, ks[1..]) + [125] + x)
  }

  lemma FieldsUnfold(m: map<Text, Val>, ks: seq<Text>, x: Text)
    requires ks != [] && forall k :: k in ks ==> k in m
    ensures PrintFields(m, ks) + [125] + x
         == Quote(ks[0]) + ([COLON] + (Print(m[ks[0]]) + FieldsRest(m, ks, x)))
    ensures Stop(FieldsRest(m, ks, x))
  {
    var q, v := Quote(ks[0]), Print(m[ks[0]]);
    if |ks| == 1 {
      Regroup(q, v, [], x);
    } else {
      Regroup(q, v, [COMMA] + PrintFields(m, ks[1..]), x);
    }
    FieldsStep(m, ks);
    Shift(PrintFields(m, ks[1..]), x);
  }

  lemma FieldsStep(m: map<Text, Val>, ks: seq<Text>)
    requires ks != [] && forall k :: k in ks ==> k in m
    ensures PrintFields(m, ks) == Quote(ks[0]) + [COLON] + Print(m[ks[0]])
      + (if |ks| == 1 then [] else [COMMA] + PrintFields(m, ks[1..]))
  {}

  lemma Regroup(q: Text, v: Text, more: Text, x: Text)
    ensures (q + [COLON] + v + more) + [125] + x == q + ([COLON] + (v + (more + [125] + x)))
    ensures [] + [125] + x == [125] + x
  {}

  lemma Shift(more: Text, x: Text)
    ensures ([COMMA] + more) + [125] + x == [COMMA] + (more + [125] + x)
  {}

  lemma FieldsRestSplit(m: map<Text, Val>, ks: seq<Text>, n: map<Text, Val>, ls: seq<Text>, x: Text, y: Text)
    requires ks != [] && (forall k :: k in ks ==> k in m) && ls != [] && (forall k :: k in ls ==> k in n)
    requires FieldsRest(m, ks, x) == FieldsRest(n, ls, y)
    ensures |ks| == 1 <==> |ls| == 1
    ensures |ks| == 1 ==> x == y
    ensures |ks| != 1 ==> PrintFields(m, ks[1..]) + [125] + x == PrintFields(n, ls[1..]) + [125] + y
  {
    Uncons(if |ks| == 1 then 125 else COMMA, if |ks| == 1 then x else PrintFields(m, ks[1..]) + [125] + x,
           if |ls| == 1 then 125 else COMMA, if |ls| == 1 then y else PrintFields(n, ls[1..]) + [125] + y);
  }

  lemma FieldsFront(m: map<Text, Val>, ks: seq<Text>, x: Text)
    requires forall k :: k in ks ==> k in m
    ensures (PrintFields(m, ks) + [125] + x)[0] == 125 <==> ks == []
  {
    if ks != [] { FieldsUnfold(m, ks, x); }
  }

  lemma FieldsHead(m: map<Text, Val>, ks: seq<Text>, n: map<Text, Val>, ls: seq<Text>, x: Text, y: Text)
    requires (forall k :: k in ks ==> k in m) && (forall k :: k in ls ==> k in n)
    requires PrintFields(m, ks) + [125] + x == PrintFields(n, ls) + [125] + y
    ensures ks == [] <==> ls == []
    ensures ks == [] ==> x == y
    ensures ks != [] ==>
      && ks[0] == ls[0]
      && Print(m[ks[0]]) + FieldsRest(m, ks, x) == Print(n[ls[0]]) + FieldsRest(n, ls, y)
      && Stop(FieldsRest(m, ks, x)) && Stop(FieldsRest(n, ls, y))
  {
    FieldsFront(m, ks, x);
    FieldsFront(n, ls, y);
    if ks == [] {
      Uncons(125, x, 125, y) by { assert [] + [125] + x == [125] + x && [] + [125] + y == [125] + y; }
    } else {
      var kr, lr := FieldsRest(m, ks, x), FieldsRest(n, ls, y);
      FieldsUnfold(m, ks, x);
      FieldsUnfold(n, ls, y);
      QuoteSplit(ks[0], ls[0], [COLON] + (Print(m[ks[0]]) + kr), [COLON] + (Print(n[ls[0]]) + lr));
      Uncons(COLON, Print(m[ks[0]]) + kr, COLON, Print(n[ls[0]]) + lr);
    }
  }

  lemma ArrUnfold(items: seq<Val>, x: Text)
    ensures Print(VArr(items)) + x == [91] + (PrintItems(items) + [93] + x)
  {}

  lemma ObjUnfold(m: map<Text, Val>, x: Text)
    ensures Print(VObj(m)) + x == [123] + (PrintFields(m, InOrder(m.Keys)) + [125] + x)
  {}

  /** A value can be read back from the front of any text: the heart of injectivity. */
  lemma {:induction false} PrintSplit(a: Val, b: Val, x: Text, y: Text)
    requires Print(a) + x == Print(b) + y && Stop(x) && Stop(y)
    ensures a == b && x == y
    decreases a, 2, 0
  {
    PrintStart(a, x);
    PrintStart(b, y);
    match a
    case VNull => SameTail(Lit("null"), x, y);
    case VBool(flag) => SameTail(Print(a), x, y);
    case VNum(n) => DecimalSplit(n, b.num, x, y);
    case VStr(s) => QuoteSplit(s, b.text, x, y);
    case VArr(items) => ArrSplit(items, b.items, x, y);
    case VObj(m) => ObjSplit(m, b.fields, x, y);
  }

  lemma {:induction false} ArrSplit(a: seq<Val>, b: seq<Val>, x: Text, y: Text)
    requires Print(VArr(a)) + x == Print(VArr(b)) + y && Stop(x) && Stop(y)
    ensures a == b && x == y
    decreases a, 1, 0
  {
    ArrUnfold(a, x);
    ArrUnfold(b, y);
    Uncons(91, PrintItems(a) + [93] + x, 91, PrintItems(b) + [93] + y);
    ItemsSplit(a, b, x, y);
  }

  lemma {:induction false} ObjSplit(m: map<Text, Val>, n: map<Text, Val>, x: Text, y: Text)
    requires Print(VObj(m)) + x == Print(VObj(n)) + y && Stop(x) && Stop(y)
    ensures m == n && x == y
    decreases VObj(m), 1, 0
  {
    var ks, ls := InOrder(m.Keys), InOrder(n.Keys);
    ObjUnfold(m, x);
    ObjUnfold(n, y);
    Uncons(123, PrintFields(m, ks) + [125] + x, 123, PrintFields(n, ls) + [125] + y);
    FieldsSplit(m, ks, n, ls, x, y);
    assert m.Keys == n.Keys;
    assert m == n;
  }

  lemma {:induction false} ItemsSplit(a: seq<Val>, b: seq<Val>, x: Text, y: Text)
    requires PrintItems(a) + [93] + x == PrintItems(b) + [93] + y && Stop(x) && Stop(y)
    ensures a == b && x == y
    decreases a, 0, 0
  {
    ItemsHead(a, b, x, y);
    if a == [] {
    } else {
      PrintSplit(a[0], b[0], ItemsRest(a, x), ItemsRest(b, y));
      ItemsRestSplit(a, b, x, y);
      if |a| > 1 { ItemsSplit(a[1..], b[1..], x, y); }
      assert a == [a[0]] + a[1..] && b == [b[0]] + b[1..];
    }
  }

  lemma {:induction false} FieldsSplit(m: map<Text, Val>, ks: seq<Text>, n: map<Text, Val>, ls: seq<Text>, x: Text, y: Text)
    requires (forall k :: k in ks ==> k in m) && (forall k :: k in ls ==> k in n)
    requires PrintFields(m, ks) + [125] + x == PrintFields(n, ls) + [125] + y && Stop(x) && Stop(y)
    ensures ks == ls && x == y
    ensures forall k :: k in ks ==> k in n && m[k] == n[k]
    decreases VObj(m), 0, |ks|
  {
    FieldsHead(m, ks, n, ls, x, y);
    if ks == [] {
    } else {
      PrintSplit(m[ks[0]], n[ls[0]], FieldsRest(m, ks, x), FieldsRest(n, ls, y));
      FieldsRestSplit(m, ks, n, ls, x, y);
      if |ks| > 1 { FieldsSplit(m, ks[1..], n, ls[1..], x, y); }
      assert ks == [ks[0]] + ks[1..] && ls == [ls[0]] + ls[1..];
      forall k | k in ks ensures k in n && m[k] == n[k] {
        if k != ks[0] { assert k in ks[1..]; }
      }
    }
  }

  /** Equal text, equal value. */
  lemma PrintInjective(a: Val, b: Val)
    requires Print(a) == Print(b)
    ensures a == b
  {
    assert Print(a) + [] == Print(b) + [];
    PrintSplit(a, b, [], []);
  }

  // ---------------------------------------------------------------- canonicalize prints the meaning

  function Keys(es: seq<Entry>): (ks: seq<Text>)
    ensures |ks| == |es| && forall i :: 0 <= i < |es| ==> ks[i] == es[i].key
  {
    if es == [] then [] else [es[0].key] + Keys(es[1..])
  }

  predicate Unique(es: seq<Entry>) {
    es != [] ==> (forall e :: e in es[1..] ==> e.key != es[0].key) && Unique(es[1..])
  }

  predicate Ascending(es: seq<Entry>) {
    es != [] ==> (forall e :: e in es[1..] ==> Less(es[0].key, e.key)) && Ascending(es[1..])
  }

  /** The entries list a map: each key once, each with the text of its value. */
  predicate Lists(es: seq<Entry>, m: map<Text, Val>) {
    && Unique(es)
    && (forall e :: e in es ==> e.key in m && e.text == Print(m[e.key]))
    && (forall k :: k in m ==> exists e :: e in es && e.key == k)
  }

  lemma {:induction false} InsertSorts(e: Entry, es: seq<Entry>)
    requires Ascending(es) && forall x :: x in es ==> x.key != e.key
    ensures Ascending(Insert(e, es))
    ensures forall x :: x in Insert(e, es) <==> x == e || x in es
  {
    var r := Insert(e, es);
    if es == [] {
    } else if Less(e.key, es[0].key) {
      assert r[1..] == es;
      forall x | x in es ensures Less(e.key, x.key) {
        if x != es[0] { LessTrans(e.key, es[0].key, x.key); }
      }
    } else {
      InsertSorts(e, es[1..]);
      assert r[1..] == Insert(e, es[1..]);
      assert es[0] in es;
      LessTotal(e.key, es[0].key);
      assert es == [es[0]] + es[1..];
    }
  }

  lemma {:induction false} SortSorts(es: seq<Entry>)
    requires Unique(es)
    ensures Ascending(SortByKey(es))
    ensures forall x :: x in SortByKey(es) <==> x in es
  {
    if es == [] {
    } else {
      SortSorts(es[1..]);
      InsertSorts(es[0], SortByKey(es[1..]));
      assert es == [es[0]] + es[1..];
    }
  }

  lemma {:induction false} AscendingKeys(es: seq<Entry>)
    requires Ascending(es)
    ensures Sorted(Keys(es))
  {
    if es == [] {
    } else {
      AscendingKeys(es[1..]);
      var ks, tail := Keys(es), Keys(es[1..]);
      assert ks == [es[0].key] + tail;
      forall i, j | 0 <= i < j < |ks| ensures Less(ks[i], ks[j]) {
        assert es[1..][j - 1] in es[1..];
        if i > 0 { assert Less(tail[i - 1], tail[j - 1]); }
      }
    }
  }

  lemma {:induction false} JoinFields(es: seq<Entry>, m: map<Text, Val>)
    requires forall e :: e in es ==> e.key in m && e.text == Print(m[e.key])
    ensures forall k :: k in Keys(es) ==> k in m
    ensures Join(Labelled(es)) == PrintFields(m, Keys(es))
  {
    if es == [] {
    } else {
      assert es[0] in es;
      JoinFields(es[1..], m);
      assert Keys(es) == [es[0].key] + Keys(es[1..]);
      assert Keys(es)[1..] == Keys(es[1..]);
      LabelledLength(es[1..]);
      var head := Quote(es[0].key) + [COLON] + es[0].text;
      assert Labelled(es) == [head] + Labelled(es[1..]);
      assert Labelled(es)[1..] == Labelled(es[1..]);
    }
  }

  lemma LabelledLength(es: seq<Entry>)
    ensures |Labelled(es)| == |es|
  {}

  lemma ObjectMeaning(es: seq<Entry>, m: map<Text, Val>)
    requires Lists(es, m)
    ensures [123] + Join(Labelled(SortByKey(es))) + [125] == Print(VObj(m))
  {
    SortSorts(es);
    var sorted := SortByKey(es);
    JoinFields(sorted, m);
    AscendingKeys(sorted);
    forall k ensures k in Keys(sorted) <==> k in InOrder(m.Keys) { KeyListed(es, sorted, m, k); }
    SortedUnique(Keys(sorted), InOrder(m.Keys));
  }

  lemma KeyListed(es: seq<Entry>, sorted: seq<Entry>, m: map<Text, Val>, k: Text)
    requires Lists(es, m) && forall x :: x in sorted <==> x in es
    ensures k in Keys(sorted) <==> k in m
  {
    if k in m {
      var e :| e in es && e.key == k;
      var i :| 0 <= i < |sorted| && sorted[i] == e;
      assert Keys(sorted)[i] == k;
    }
    if k in Keys(sorted) {
      var i :| 0 <= i < |sorted| && Keys(sorted)[i] == k;
      assert sorted[i] in sorted;
    }
  }

  /** The source's recursion prints exactly the meaning, and throws exactly when there is none. */
  lemma {:induction false} CanonicalizePrintsMeaning(j: Json)
    requires Plain(j)
    ensures Canonicalize(j).Some? <==> Meaning(j).Some?
    ensures Canonicalize(j).Some? ==> Canonicalize(j).value == Print(Meaning(j).value)
    decreases j
  {
    match j
    case JArr(items) => ItemsMeaning(items);
    case JObj(fields) =>
      FieldsMeaning(fields);
      if CanonicalFields(fields).Some? { ObjectMeaning(CanonicalFields(fields).value, FieldMeanings(fields).value); }
    case _ =>
  }

  lemma {:induction false} ItemsMeaning(items: seq<Json>)
    requires forall x :: x in items ==> Plain(x)
    ensures CanonicalItems(items).Some? <==> Meanings(items).Some?
    ensures CanonicalItems(items).Some? ==>
      |CanonicalItems(items).value| == |Meanings(items).value| &&
      Join(CanonicalItems(items).value) == PrintItems(Meanings(items).value)
    decreases items
  {
    if items == [] {
    } else {
      CanonicalizePrintsMeaning(items[0]);
      ItemsMeaning(items[1..]);
      if CanonicalItems(items).Some? {
        var ts, vs := CanonicalItems(items).value, Meanings(items).value;
        assert ts[1..] == CanonicalItems(items[1..]).value && vs[1..] == Meanings(items[1..]).value;
      }
    }
  }

  lemma {:induction false} FieldsMeaning(fields: seq<Field>)
    requires forall f :: f in fields ==> Plain(f.value)
    requires forall i, k :: 0 <= i < k < |fields| ==> fields[i].key != fields[k].key
    ensures CanonicalFields(fields).Some? <==> FieldMeanings(fields).Some?
    ensures CanonicalFields(fields).Some? ==> Lists(CanonicalFields(fields).value, FieldMeanings(fields).value)
    ensures FieldMeanings(fields).Some? ==>
      forall k :: k in FieldMeanings(fields).value ==> exists i :: 0 <= i < |fields| && fields[i].key == k
    decreases fields
  {
    if fields == [] {
    } else {
      FieldsMeaning(fields[1..]);
      var f := fields[0];
      CanonicalizePrintsMeaning(f.value);
      if FieldMeanings(fields).Some? {
        var m := FieldMeanings(fields[1..]).value;
        assert forall i :: 0 <= i < |fields[1..]| ==> fields[1..][i].key == fields[i + 1].key != f.key;
        forall k | k in FieldMeanings(fields).value ensures exists i :: 0 <= i < |fields| && fields[i].key == k {
          if k in m {
            var i :| 0 <= i < |fields[1..]| && fields[1..][i].key == k;
            assert fields[i + 1].key == k;
          } else {
            assert fields[0].key == k;
          }
        }
        if f.value != JUndefined {
          ListsCons(CanonicalFields(fields[1..]).value, m, f.key, Meaning(f.value).value);
        }
      }
    }
  }

  lemma ListsCons(es: seq<Entry>, m: map<Text, Val>, k: Text, v: Val)
    requires Lists(es, m) && k !in m
    ensures Lists([Entry(k, Print(v))] + es, m[k := v])
  {
    var e := Entry(k, Print(v));
    var all, n := [e] + es, m[k := v];
    UniqueCons(e, es);
    assert forall d :: d in all ==> d == e || d in es;
    forall x | x in n ensures exists d :: d in all && d.key == x {
      if x != k { Carried(es, all, x); } else { assert all[0].key == x; }
    }
  }

  lemma UniqueCons(e: Entry, es: seq<Entry>)
    requires Unique(es) && forall d :: d in es ==> d.key != e.key
    ensures Unique([e] + es)
  {
    assert ([e] + es)[1..] == es;
  }

  lemma Carried(es: seq<Entry>, all: seq<Entry>, x: Text)
    requires (exists d :: d in es && d.key == x) && forall d :: d in es ==> d in all
    ensures exists d :: d in all && d.key == x
  {}

  /** The law every digest rests on: same text exactly when same value. */
  lemma CanonicalizeInjective(a: Json, b: Json)
    requires Plain(a) && Plain(b)
    requires Canonicalize(a).Some? && Canonicalize(b).Some?
    ensures Canonicalize(a) == Canonicalize(b) <==> Meaning(a) == Meaning(b)
  {
    CanonicalizePrintsMeaning(a);
    CanonicalizePrintsMeaning(b);
    if Canonicalize(a) == Canonicalize(b) { PrintInjective(Meaning(a).value, Meaning(b).value); }
  }

  // ---------------------------------------------------------------- digests

  lemma {:induction false} HexOfInjective(a: Text, b: Text)
    requires HexOf(a) == HexOf(b)
    ensures a == b
  {
    HexOfIs(a);
    HexOfIs(b);
    if a != [] {
      assert HexOf(a)[..4] == Hex4(a[0]) && HexOf(b)[..4] == Hex4(b[0]);
      assert HexOf(a)[4..] == HexOf(a[1..]) && HexOf(b)[4..] == HexOf(b[1..]);
      HexInjective(a[0], b[0]);
      HexOfInjective(a[1..], b[1..]);
    }
  }

  lemma {:induction false} HexOfIs(t: Text)
    ensures |HexOf(t)| == 4 * |t| && forall i :: 0 <= i < |HexOf(t)| ==> LowerHex(HexOf(t)[i])
  {
    if t != [] { HexOfIs(t[1..]); }
  }

  lemma Sha256Injective(a: Text, b: Text)
    requires Sha256(a) == Sha256(b)
    ensures a == b
  {
    assert HexOf(a) == Sha256(a)[7..] && HexOf(b) == Sha256(b)[7..];
    HexOfInjective(a, b);
  }

  lemma Sha256IsSymbolic(text: Text)
    ensures Symbolic(Sha256(text)) && |Sha256(text)| == 7 + 4 * |text|
  {
    HexOfIs(text);
    assert |Lit("sha256:")| == 7;
  }
}
