/**
 * A reader for canonical JSON, by the grammar of RFC 8259 (values in section 3, numbers in section 6,
 * strings in section 7), and the proof that it reads back every value from its canonical text.
 */
module JsonReader {
  import opened Basics
  import opened Canonical
  import opened CanonicalLaws

  datatype Reading<+T> = Bad | Got(value: T, rest: Text)

  // ---------------------------------------------------------------- strings

  /** The character a two-character escape stands for: the table of section 7. */
  function Escaped(c: CodeUnit): Option<CodeUnit> {
    if c == 34 then Some(34)
    else if c == 92 then Some(92)
    else if c == 47 then Some(47)
    else if c == 98 then Some(8)
    else if c == 102 then Some(12)
    else if c == 110 then Some(10)
    else if c == 114 then Some(13)
    else if c == 116 then Some(9)
    else None
  }

  function HexValue(c: CodeUnit): Option<int> {
    if 48 <= c <= 57 then Some(c - 48)
    else if 97 <= c <= 102 then Some(c - 97 + 10)
    else if 65 <= c <= 70 then Some(c - 65 + 10)
    else None
  }

  /** Four hexadecimal digits, the most significant first. */
  function ReadHex(t: Text): Option<CodeUnit> {
    if |t| != 4 then None
    else
      var a, b, c, d := HexValue(t[0]), HexValue(t[1]), HexValue(t[2]), HexValue(t[3]);
      if a.None? || b.None? || c.None? || d.None? then None
      else Some(HexNumber(a.value, b.value, c.value, d.value))
  }

  function HexNumber(a: int, b: int, c: int, d: int): CodeUnit {
    (4096 * a + 256 * b + 16 * c + d) % 0x1_0000
  }

  /** The rest of a string after its opening quote, up to its closing one. */
  function ReadChars(t: Text): Reading<Text>
    decreases |t|
  {
    if t == [] || t[0] < 32 then Bad
    else if t[0] == 34 then Got([], t[1..])
    else if t[0] != 92 then Prepend(t[0], ReadChars(t[1..]))
    else if |t| == 1 then Bad
    else if t[1] != 117 then
      var c := Escaped(t[1]);
      if c.None? then Bad else Prepend(c.value, ReadChars(t[2..]))
    else if |t| < 6 then Bad
    else
      var u := ReadHex(t[2..6]);
      if u.None? then Bad else Prepend(u.value, ReadChars(t[6..]))
  }

  function Prepend(c: CodeUnit, r: Reading<Text>): Reading<Text> {
    if r.Bad? then Bad else Got([c] + r.value, r.rest)
  }

  // ---------------------------------------------------------------- numbers

  function DigitsAhead(t: Text): (n: nat)
    ensures n <= |t|
  {
    if t == [] || !(48 <= t[0] <= 57) then 0 else 1 + DigitsAhead(t[1..])
  }

  /** A numeral in base ten. */
  function Numeral(t: Text, so_far: int): int {
    if t == [] then so_far else Numeral(t[1..], 10 * so_far + (t[0] as int - 48))
  }

  function ReadDigits(t: Text): Reading<int> {
    var n := DigitsAhead(t);
    if n == 0 || (n > 1 && t[0] == 48) then Bad else Got(Numeral(t[..n], 0), t[n..])
  }

  function ReadNumber(t: Text): Reading<int> {
    if t != [] && t[0] == 45 then
      var r := ReadDigits(t[1..]);
      if r.Bad? then Bad else Got(-r.value, r.rest)
    else ReadDigits(t)
  }

  // ---------------------------------------------------------------- values

  function ReadWord(t: Text, word: Text, v: Val): Reading<Val> {
    if StartsWith(t, word) then Got(v, t[|word|..]) else Bad
  }

  function ReadValue(t: Text): Reading<Val>
    decreases |t|, 1
    ensures ReadValue(t).Got? ==> |ReadValue(t).rest| < |t|
  {
    if t == [] then Bad
    else if t[0] == 110 then ReadWord(t, [110, 117, 108, 108], VNull)
    else if t[0] == 116 then ReadWord(t, [116, 114, 117, 101], VBool(true))
    else if t[0] == 102 then ReadWord(t, [102, 97, 108, 115, 101], VBool(false))
    else if t[0] == 34 then
      var r := ReadString(t);
      if r.Bad? then Bad else Got(VStr(r.value), r.rest)
    else if t[0] == 91 then
      if |t| > 1 && t[1] == 93 then Got(VArr([]), t[2..])
      else
        var r := ReadItems(t[1..]);
        if r.Bad? then Bad else Got(VArr(r.value), r.rest)
    else if t[0] == 123 then
      if |t| > 1 && t[1] == 125 then Got(VObj(map[]), t[2..])
      else
        var r := ReadFields(t[1..]);
        if r.Bad? then Bad else Got(VObj(r.value), r.rest)
    else
      var r := ReadNumber(t);
      if r.Bad? || |r.rest| >= |t| then Bad else Got(VNum(r.value), r.rest)
  }

  function ReadString(t: Text): Reading<Text> {
    if t == [] || t[0] != 34 then Bad
    else
      var r := ReadChars(t[1..]);
      if r.Bad? || |r.rest| >= |t| then Bad else r
  }

  /** One or more values, separated by commas, up to the closing bracket. */
  function ReadItems(t: Text): Reading<seq<Val>>
    decreases |t|, 2
    ensures ReadItems(t).Got? ==> |ReadItems(t).rest| < |t|
  {
    var first := ReadValue(t);
    if first.Bad? || first.rest == [] then Bad
    else if first.rest[0] == 93 then Got([first.value], first.rest[1..])
    else if first.rest[0] != 44 then Bad
    else
      var more := ReadItems(first.rest[1..]);
      if more.Bad? then Bad else Got([first.value] + more.value, more.rest)
  }

  /** One or more named values, separated by commas, up to the closing brace; a name must not repeat. */
  function ReadFields(t: Text): Reading<map<Text, Val>>
    decreases |t|, 2
    ensures ReadFields(t).Got? ==> |ReadFields(t).rest| < |t|
  {
    var name := ReadString(t);
    if name.Bad? || |name.rest| >= |t| || name.rest == [] || name.rest[0] != 58 then Bad
    else
      var first := ReadValue(name.rest[1..]);
      if first.Bad? || first.rest == [] then Bad
      else if first.rest[0] == 125 then Got(map[name.value := first.value], first.rest[1..])
      else if first.rest[0] != 44 then Bad
      else
        var more := ReadFields(first.rest[1..]);
        if more.Bad? || name.value in more.value then Bad
        else Got(more.value[name.value := first.value], more.rest)
  }

  /** A whole text. */
  function ReadText(t: Text): Option<Val> {
    var r := ReadValue(t);
    if r.Bad? || r.rest != [] then None else Some(r.value)
  }

  // ---------------------------------------------------------------- strings are read back

  lemma HexDigitReads(d: int)
    requires 0 <= d < 16
    ensures HexValue(HexDigit(d)) == Some(d)
  {}

  lemma HexParts(u: CodeUnit)
    ensures 4096 * (u / 16 / 16 / 16) + 256 * (u / 16 / 16 % 16) + 16 * (u / 16 % 16) + u % 16 == u
    ensures 0 <= u / 16 / 16 / 16 < 16
  {}

  lemma HexReads(u: CodeUnit)
    ensures ReadHex(Hex4(u)) == Some(u)
  {
    HexParts(u);
    HexDigitReads(u / 16 / 16 / 16);
    HexDigitReads(u / 16 / 16 % 16);
    HexDigitReads(u / 16 % 16);
    HexDigitReads(u % 16);
  }

  lemma TokenReads(u: CodeUnit, p: bool, x: Text)
    ensures ReadChars(Token(u, p) + x) == Prepend(u, ReadChars(x))
  {
    var t := Token(u, p) + x;
    if ShortEscape(u) != 0 {
      assert t[0] == 92 && t[1] == ShortEscape(u) && t[2..] == x;
    } else if u < 32 || ((High(u) || Low(u)) && !p) {
      assert t[0] == 92 && t[1] == 117 && t[2..6] == Hex4(u) && t[6..] == x;
      HexReads(u);
    } else {
      assert t[0] == u && t[1..] == x;
    }
  }

  lemma ClosingReads(x: Text)
    ensures ReadChars([] + [QUOTE] + x) == Got([], x)
  {
    var t := [] + [QUOTE] + x;
    assert t[0] == 34 && t[1..] == x;
  }

  lemma EscapeStep(h: bool, s: Text, x: Text, t: Text)
    requires s != [] && t == Escape(High(s[0]), s[1..]) + [QUOTE] + x
    ensures Escape(h, s) + [QUOTE] + x == Token(s[0], Paired(h, s)) + t
    ensures ReadChars(Token(s[0], Paired(h, s)) + t) == Prepend(s[0], ReadChars(t))
  {
    EscapeUnfold(h, s, x);
    TokenReads(s[0], Paired(h, s), t);
  }

  lemma Prepended(s: Text, t: Text, u: Text, x: Text)
    requires s != [] && ReadChars(t) == Got(s[1..], x) && ReadChars(u) == Prepend(s[0], ReadChars(t))
    ensures ReadChars(u) == Got(s, x)
  {
    assert s == [s[0]] + s[1..];
  }

  lemma {:induction false} EscapeReads(h: bool, s: Text, x: Text, t: Text)
    requires t == Escape(h, s) + [QUOTE] + x
    ensures ReadChars(t) == Got(s, x)
    decreases |s|
  {
    if s == [] {
      ClosingReads(x);
    } else {
      var rest := Escape(High(s[0]), s[1..]) + [QUOTE] + x;
      EscapeReads(High(s[0]), s[1..], x, rest);
      EscapeStep(h, s, x, rest);
      Prepended(s, rest, t, x);
    }
  }

  /** A quoted string is read back, whatever follows it. */
  lemma QuoteReads(s: Text, x: Text)
    ensures ReadString(Quote(s) + x) == Got(s, x)
  {
    var t := Quote(s) + x;
    assert t[0] == 34 && t[1..] == Escape(false, s) + [QUOTE] + x;
    EscapeReads(false, s, x, t[1..]);
    assert |t| == 1 + |Escape(false, s)| + 1 + |x|;
  }

  // ---------------------------------------------------------------- numbers are read back

  lemma {:induction false} NumeralSnoc(t: Text, c: CodeUnit, so_far: int)
    ensures Numeral(t + [c], so_far) == 10 * Numeral(t, so_far) + (c as int - 48)
    decreases |t|
  {
    if t == [] {
      assert ([c])[1..] == [] && t + [c] == [c];
    } else {
      assert (t + [c])[1..] == t[1..] + [c];
      NumeralSnoc(t[1..], c, 10 * so_far + (t[0] as int - 48));
    }
  }

  /** Digits, without a leading zero unless that is all. */
  lemma {:induction false} DigitsRead(n: nat)
    ensures var ds := Digits(n);
      ds != [] && (forall c :: c in ds ==> 48 <= c <= 57) && Numeral(ds, 0) == n && (ds[0] == 48 ==> n == 0 && |ds| == 1)
  {
    if n < 10 {
      assert [48 + n][1..] == [];
    } else {
      DigitsRead(n / 10);
      NumeralSnoc(Digits(n / 10), 48 + n % 10, 0);
    }
  }

  lemma {:induction false} AheadStops(ds: Text, x: Text)
    requires (forall c :: c in ds ==> 48 <= c <= 57) && Stop(x)
    ensures DigitsAhead(ds + x) == |ds|
    decreases |ds|
  {
    if ds == [] {
      assert ds + x == x;
    } else {
      assert (ds + x)[1..] == ds[1..] + x && ds[0] in ds;
      assert forall c :: c in ds[1..] ==> c in ds;
      AheadStops(ds[1..], x);
    }
  }

  lemma NaturalReads(n: nat, x: Text)
    requires Stop(x)
    ensures ReadDigits(Digits(n) + x) == Got(n, x)
  {
    var ds := Digits(n);
    DigitsRead(n);
    AheadStops(ds, x);
    assert (ds + x)[..|ds|] == ds && (ds + x)[|ds|..] == x && (ds + x)[0] == ds[0];
  }

  lemma DigitsStart(n: nat, x: Text)
    ensures Digits(n) != [] && 48 <= (Digits(n) + x)[0] <= 57
  {
    DigitsRead(n);
    assert Digits(n)[0] in Digits(n) && (Digits(n) + x)[0] == Digits(n)[0];
  }

  lemma DecimalReads(n: int, x: Text)
    requires Stop(x)
    ensures ReadNumber(Decimal(n) + x) == Got(n, x)
    ensures var t := Decimal(n) + x; t != [] && (t[0] == 45 || 48 <= t[0] <= 57)
  {
    if n < 0 {
      var t := Decimal(n) + x;
      assert t[0] == 45 && t[1..] == Digits(-n) + x;
      NaturalReads(-n, x);
    } else {
      NaturalReads(n, x);
      DigitsStart(n, x);
    }
  }

  // ---------------------------------------------------------------- values are read back

  lemma WordReads(v: Val, x: Text)
    requires v.VNull? || v.VBool?
    ensures ReadValue(Print(v) + x) == Got(v, x)
  {
    var t := Print(v) + x;
    assert Lit("null") == [110, 117, 108, 108] && Lit("true") == [116, 114, 117, 101] && Lit("false") == [102, 97, 108, 115, 101];
    assert t[|Print(v)|..] == x && t[0] == Print(v)[0];
  }

  lemma DecimalLonger(n: int, x: Text)
    ensures |x| < |Decimal(n) + x|
  {
    DigitsStart(if n < 0 then -n else n, x);
  }

  lemma NumReads(n: int, x: Text)
    requires Stop(x)
    ensures ReadValue(Print(VNum(n)) + x) == Got(VNum(n), x)
  {
    DecimalReads(n, x);
    DecimalLonger(n, x);
  }

  lemma StrReads(s: Text, x: Text)
    ensures ReadValue(Print(VStr(s)) + x) == Got(VStr(s), x)
  {
    QuoteReads(s, x);
    assert (Quote(s) + x)[0] == 34;
  }

  /** Every value is read back from the front of any text that goes on as JSON may. */
  lemma {:induction false} PrintReads(v: Val, x: Text)
    requires Stop(x)
    ensures ReadValue(Print(v) + x) == Got(v, x)
    decreases v, 2, 0
  {
    match v
    case VNum(n) => NumReads(n, x);
    case VStr(s) => StrReads(s, x);
    case VArr(items) => ArrReads(items, x);
    case VObj(m) => ObjReads(m, x);
    case _ => WordReads(v, x);
  }

  lemma {:induction false} ArrReads(items: seq<Val>, x: Text)
    requires Stop(x)
    ensures ReadValue(Print(VArr(items)) + x) == Got(VArr(items), x)
    decreases items, 1, 0
  {
    var t := Print(VArr(items)) + x;
    ArrUnfold(items, x);
    assert t[0] == 91 && t[1..] == PrintItems(items) + [93] + x;
    ItemsFront(items, x);
    if items == [] {
      assert t[1] == 93 && t[2..] == x;
    } else {
      assert t[1] == (PrintItems(items) + [93] + x)[0];
      ItemsRead(items, x, t[1..]);
    }
  }

  lemma LastItem(t: Text, v: Val, x: Text)
    requires ReadValue(t) == Got(v, [93] + x)
    ensures ReadItems(t) == Got([v], x)
  {
    assert ([93] + x)[1..] == x;
  }

  lemma MoreItems(t: Text, v: Val, u: Text, vs: seq<Val>, x: Text)
    requires ReadValue(t) == Got(v, [44] + u) && ReadItems(u) == Got(vs, x)
    ensures ReadItems(t) == Got([v] + vs, x)
  {
    assert ([44] + u)[1..] == u;
  }

  lemma {:induction false} ItemsRead(items: seq<Val>, x: Text, t: Text)
    requires items != [] && Stop(x) && t == PrintItems(items) + [93] + x
    ensures ReadItems(t) == Got(items, x)
    decreases items, 0, 0
  {
    var rest := ItemsRest(items, x);
    ItemsUnfold(items, x);
    PrintReads(items[0], rest);
    if |items| == 1 {
      LastItem(t, items[0], x);
      assert items == [items[0]];
    } else {
      var u := PrintItems(items[1..]) + [93] + x;
      ItemsRead(items[1..], x, u);
      MoreItems(t, items[0], u, items[1..], x);
      assert items == [items[0]] + items[1..];
    }
  }

  lemma {:induction false} ObjReads(m: map<Text, Val>, x: Text)
    requires Stop(x)
    ensures ReadValue(Print(VObj(m)) + x) == Got(VObj(m), x)
    decreases VObj(m), 1, 0
  {
    var t, ks := Print(VObj(m)) + x, InOrder(m.Keys);
    ObjUnfold(m, x);
    assert t[0] == 123 && t[1..] == PrintFields(m, ks) + [125] + x;
    FieldsFront(m, ks, x);
    if ks == [] {
      assert t[1] == 125 && t[2..] == x;
      assert m == map[] by { assert forall k :: k in m ==> k in ks; }
    } else {
      assert t[1] == (PrintFields(m, ks) + [125] + x)[0];
      SortedDistinct(ks);
      FieldsRead(m, ks, x, t[1..]);
      assert Listed(m, ks) == m;
    }
  }

  lemma SortedDistinct(ks: seq<Text>)
    requires Sorted(ks)
    ensures Distinct(ks)
  {
    forall i, j | 0 <= i < j < |ks| ensures ks[i] != ks[j] { LessAsym(ks[i], ks[j]); }
  }

  /** The part of a map under these keys. */
  function Listed(m: map<Text, Val>, ks: seq<Text>): map<Text, Val> {
    map k | k in m && k in ks :: m[k]
  }

  lemma ListedCons(m: map<Text, Val>, ks: seq<Text>)
    requires ks != [] && Distinct(ks) && forall k :: k in ks ==> k in m
    ensures Distinct(ks[1..]) && ks[0] !in Listed(m, ks[1..])
    ensures Listed(m, ks) == Listed(m, ks[1..])[ks[0] := m[ks[0]]]
  {
    assert ks == [ks[0]] + ks[1..];
  }

  lemma LastField(t: Text, k: Text, v: Val, u: Text, x: Text)
    requires ReadString(t) == Got(k, [COLON] + u) && |[COLON] + u| < |t| && ReadValue(u) == Got(v, [125] + x)
    ensures ReadFields(t) == Got(map[k := v], x)
  {
    assert ([COLON] + u)[1..] == u && ([125] + x)[1..] == x;
  }

  lemma MoreFields(t: Text, k: Text, v: Val, u: Text, w: Text, m: map<Text, Val>, x: Text)
    requires ReadString(t) == Got(k, [COLON] + u) && |[COLON] + u| < |t| && ReadValue(u) == Got(v, [44] + w)
    requires ReadFields(w) == Got(m, x) && k !in m
    ensures ReadFields(t) == Got(m[k := v], x)
  {
    assert ([COLON] + u)[1..] == u && ([44] + w)[1..] == w;
  }

  lemma {:induction false} FieldsRead(m: map<Text, Val>, ks: seq<Text>, x: Text, t: Text)
    requires ks != [] && Distinct(ks) && (forall k :: k in ks ==> k in m) && Stop(x)
    requires t == PrintFields(m, ks) + [125] + x
    ensures ReadFields(t) == Got(Listed(m, ks), x)
    decreases VObj(m), 0, |ks|
  {
    var rest := FieldsRest(m, ks, x);
    var u := Print(m[ks[0]]) + rest;
    FieldsUnfold(m, ks, x);
    QuoteReads(ks[0], [COLON] + u);
    assert |[COLON] + u| < |t|;
    PrintReads(m[ks[0]], rest);
    ListedCons(m, ks);
    if |ks| == 1 {
      LastField(t, ks[0], m[ks[0]], u, x);
      assert Listed(m, ks) == map[ks[0] := m[ks[0]]];
    } else {
      var w := PrintFields(m, ks[1..]) + [125] + x;
      FieldsRead(m, ks[1..], x, w);
      MoreFields(t, ks[0], m[ks[0]], u, w, Listed(m, ks[1..]), x);
    }
  }

  /** Canonical text is JSON text for the very value it was made of. */
  lemma CanonicalTextReads(v: Val)
    ensures ReadText(Print(v)) == Some(v)
  {
    PrintReads(v, []);
    assert Print(v) + [] == Print(v);
  }

  /** The source's recursion prints JSON text for the value its input stands for. */
  lemma CanonicalizeReads(j: Json)
    requires Plain(j) && Canonicalize(j).Some?
    ensures Meaning(j).Some? && ReadText(Canonicalize(j).value) == Meaning(j)
  {
    CanonicalizePrintsMeaning(j);
    CanonicalTextReads(Meaning(j).value);
  }

  // ---------------------------------------------------------------- key order

  /** Keys are ordered by the first code unit in which they differ; a prefix comes first. */
  lemma {:induction false} LessIsCodeUnitOrder(a: Text, b: Text)
    ensures Less(a, b) <==>
      exists i: nat :: i <= |a| && i < |b| && a[..i] == b[..i] && (i == |a| || a[i] < b[i])
    decreases |a|
  {
    if b == [] {
    } else if a == [] {
      assert a[..0] == b[..0];
    } else if a[0] != b[0] {
      assert a[..0] == b[..0];
      forall i: nat | 0 < i <= |a| && i < |b| ensures a[..i] != b[..i] { assert a[..i][0] == a[0] && b[..i][0] == b[0]; }
    } else {
      LessIsCodeUnitOrder(a[1..], b[1..]);
      forall i: nat | i <= |a[1..]| && i < |b[1..]| && a[1..][..i] == b[1..][..i]
        ensures a[..i + 1] == b[..i + 1] && (i + 1 < |a| ==> a[i + 1] == a[1..][i]) && b[i + 1] == b[1..][i]
      {
        assert a[..i + 1] == [a[0]] + a[1..][..i] && b[..i + 1] == [b[0]] + b[1..][..i];
      }
      forall i: nat | 0 < i <= |a| && i < |b| && a[..i] == b[..i] ensures a[1..][..i - 1] == b[1..][..i - 1] {
        assert a[1..][..i - 1] == a[..i][1..] && b[1..][..i - 1] == b[..i][1..];
      }
      if i: nat :| i <= |a| && i < |b| && a[..i] == b[..i] && (i == |a| || a[i] < b[i]) {
        assert i > 0;
        assert a[1..][..i - 1] == b[1..][..i - 1];
      }
      if i: nat :| i <= |a[1..]| && i < |b[1..]| && a[1..][..i] == b[1..][..i] && (i == |a[1..]| || a[1..][i] < b[1..][i]) {
        assert a[..i + 1] == b[..i + 1];
      }
    }
  }

  // ---------------------------------------------------------------- the exact form of strings

  /** Two characters exactly where the table has a letter, six exactly for the rest that must not stand raw. */
  lemma TokenForms(u: CodeUnit, p: bool)
    ensures |Token(u, p)| == 2 <==> u in {8, 9, 10, 12, 13, 34, 92}
    ensures |Token(u, p)| == 2 ==> Token(u, p)[0] == 92 && Escaped(Token(u, p)[1]) == Some(u)
    ensures |Token(u, p)| == 6 <==>
      u !in {8, 9, 10, 12, 13, 34, 92} && (u < 32 || (0xD800 <= u < 0xE000 && !p))
    ensures |Token(u, p)| == 6 ==>
      && Token(u, p)[..2] == [92, 117] && ReadHex(Token(u, p)[2..]) == Some(u)
      && forall c :: c in Token(u, p)[2..] ==> 48 <= c <= 57 || 97 <= c <= 102
    ensures |Token(u, p)| != 2 && |Token(u, p)| != 6 ==> Token(u, p) == [u]
  {
    HexReads(u);
  }

  /** The unit is one half of a surrogate pair. */
  predicate InPair(s: Text, i: nat)
    requires i < |s|
  {
    || (0xD800 <= s[i] < 0xDC00 && i + 1 < |s| && 0xDC00 <= s[i + 1] < 0xE000)
    || (0xDC00 <= s[i] < 0xE000 && i > 0 && 0xD800 <= s[i - 1] < 0xDC00)
  }

  /** The tokens of a string from its i-th unit on. */
  function TokensFrom(s: Text, i: nat): Text
    requires i <= |s|
    decreases |s| - i
  {
    if i == |s| then [] else Token(s[i], InPair(s, i)) + TokensFrom(s, i + 1)
  }

  lemma LooseToken(u: CodeUnit, p: bool, q: bool)
    requires !(0xD800 <= u < 0xE000)
    ensures Token(u, p) == Token(u, q)
  {}

  lemma {:induction false} EscapeIsTokens(s: Text, i: nat)
    requires i <= |s|
    ensures Escape(i > 0 && High(s[i - 1]), s[i..]) == TokensFrom(s, i)
    decreases |s| - i
  {
    if i == |s| {
    } else {
      EscapeIsTokens(s, i + 1);
      assert s[i..][1..] == s[i + 1..];
      if !(0xD800 <= s[i] < 0xE000) { LooseToken(s[i], Paired(i > 0 && High(s[i - 1]), s[i..]), InPair(s, i)); }
    }
  }

  /** A string is written unit by unit: surrogates stand raw in pairs and are escaped alone. */
  lemma QuoteIsTokens(s: Text)
    ensures Quote(s) == [34] + TokensFrom(s, 0) + [34]
  {
    EscapeIsTokens(s, 0);
    assert s[0..] == s;
  }
}
