/**
 * What selectors and predicates mean (src/core/policy.ts): where a written selector leads in a value,
 * stated on its grammar and on the fields and elements themselves, and what each predicate accepts.
 */
module PolicyMeaning {
  import opened Basics
  import opened Canonical
  import opened CanonicalLaws
  import opened Policy
  import JsonReader

  // ---------------------------------------------------------------- selectors as they are written

  /** `[3]` or `[-1]`; digits are kept as written. */
  datatype Index = Index(negative: bool, digits: Text)

  datatype Part = Part(name: Text, indexes: seq<Index>, optional: bool)

  predicate DigitsOnly(t: Text) { t != [] && forall c :: c in t ==> 48 <= c <= 57 }

  /** Letters, digits, underscore and hyphen. */
  predicate NameText(t: Text) {
    forall c :: c in t ==> 48 <= c <= 57 || 65 <= c <= 90 || 97 <= c <= 122 || c == 95 || c == 45
  }

  predicate WellFormed(p: Part) { NameText(p.name) && forall i :: i in p.indexes ==> DigitsOnly(i.digits) }

  function SpellIndex(i: Index): Text { [91] + (if i.negative then [45] else []) + i.digits + [93] }

  function SpellIndexes(ixs: seq<Index>): Text { if ixs == [] then [] else SpellIndex(ixs[0]) + SpellIndexes(ixs[1..]) }

  function Mark(optional: bool): Text { if optional then [63] else [] }

  function SpellPart(p: Part): Text { p.name + (SpellIndexes(p.indexes) + Mark(p.optional)) }

  /** Every part after a dot. */
  function Spell(ps: seq<Part>): Text { if ps == [] then [] else [46] + (SpellPart(ps[0]) + Spell(ps[1..])) }

  function IntOf(i: Index): int {
    if i.negative then -JsonReader.Numeral(i.digits, 0) else JsonReader.Numeral(i.digits, 0)
  }

  function Ints(ixs: seq<Index>): (ns: seq<int>)
    ensures |ns| == |ixs|
  {
    if ixs == [] then [] else [IntOf(ixs[0])] + Ints(ixs[1..])
  }

  // ---------------------------------------------------------------- where they lead

  /** Names that never lead anywhere. */
  predicate Reserved(name: Text) {
    name == Lit("__proto__") || name == Lit("constructor") || name == Lit("prototype")
  }

  /** `w` is the own field `name` of the object `v`. */
  predicate Child(v: Val, name: Text, w: Val) {
    v.VObj? && !Reserved(name) && name in v.fields && v.fields[name] == w
  }

  /** `w` is element i of the array `v`, counted from the end if i is negative. */
  predicate Element(v: Val, i: int, w: Val) {
    && v.VArr? && -|v.items| <= i < |v.items|
    && w == v.items[if i >= 0 then i else |v.items| + i]
  }

  ghost predicate Elements(v: Val, ixs: seq<int>, w: Val)
    decreases |ixs|
  {
    if ixs == [] then v == w else exists u :: Element(v, ixs[0], u) && Elements(u, ixs[1..], w)
  }

  /** One part: a field, if it has a name, then its elements. */
  ghost predicate Leads(v: Val, p: Part, w: Val) {
    exists u :: (if p.name == [] then u == v else Child(v, p.name, u)) && Elements(u, Ints(p.indexes), w)
  }

  ghost predicate Stuck(v: Val, p: Part) { forall w :: !Leads(v, p, w) }

  /**
   * Part after part, to `w`. An optional part that leads nowhere ends at null, unless a reserved name
   * was asked of an object.
   */
  ghost predicate Arrives(v: Val, ps: seq<Part>, w: Val)
    decreases |ps|
  {
    if ps == [] then v == w
    else
      || (exists u :: Leads(v, ps[0], u) && Arrives(u, ps[1..], w))
      || (w == VNull && Stuck(v, ps[0]) && ps[0].optional && !(v.VObj? && Reserved(ps[0].name)))
  }

  // ---------------------------------------------------------------- the grammar is read as written

  lemma {:induction false} ValueIsNumeral(t: Text)
    ensures Value(t) == JsonReader.Numeral(t, 0)
    decreases |t|
  {
    if t == [] {
    } else {
      ValueIsNumeral(t[..|t| - 1]);
      JsonReader.NumeralSnoc(t[..|t| - 1], t[|t| - 1], 0);
      assert t == t[..|t| - 1] + [t[|t| - 1]];
    }
  }

  lemma {:induction false} NameEnds(name: Text, x: Text)
    requires NameText(name) && (x == [] || x[0] == 91 || x[0] == 63)
    ensures NameLength(name + x) == |name|
    decreases |name|
  {
    if name == [] {
      assert name + x == x;
    } else {
      assert (name + x)[1..] == name[1..] + x && name[0] in name;
      assert forall c :: c in name[1..] ==> c in name;
      NameEnds(name[1..], x);
    }
  }

  lemma {:induction false} DigitsEnd(ds: Text, x: Text)
    requires (forall c :: c in ds ==> 48 <= c <= 57) && x != [] && x[0] == 93
    ensures DigitCount(ds + x) == |ds|
    decreases |ds|
  {
    if ds == [] {
      assert ds + x == x;
    } else {
      assert (ds + x)[1..] == ds[1..] + x && ds[0] in ds;
      assert forall c :: c in ds[1..] ==> c in ds;
      DigitsEnd(ds[1..], x);
    }
  }

  /** How a written index lies in the text. */
  lemma IndexLies(i: Index, x: Text, t: Text, sign: nat)
    requires DigitsOnly(i.digits) && t == SpellIndex(i) + x && sign == if i.negative then 1 else 0
    ensures var close := 1 + sign + |i.digits|;
      && close < |t| && t[0] == 91 && sign == (if |t| > 1 && t[1] == 45 then 1 else 0)
      && t[1 + sign..] == i.digits + ([93] + x) && t[1 + sign..close] == i.digits && t[close] == 93 && t[close + 1..] == x
  {
    assert i.digits[0] in i.digits;
    assert t[1] == if i.negative then 45 else i.digits[0];
  }

  lemma IndexIsRead(i: Index, x: Text, t: Text)
    requires DigitsOnly(i.digits) && t == SpellIndex(i) + x
    ensures ReadIndex(t) == Some((IntOf(i), x)) && t != [] && t != [63]
  {
    IndexLies(i, x, t, if i.negative then 1 else 0);
    DigitsEnd(i.digits, [93] + x);
    ValueIsNumeral(i.digits);
  }

  lemma IndexParses(i: Index, x: Text, t: Text)
    requires DigitsOnly(i.digits) && ParseIndexes(x).Some? && t == SpellIndex(i) + x
    ensures ParseIndexes(t) == Some(([IntOf(i)] + ParseIndexes(x).value.0, ParseIndexes(x).value.1))
  {
    IndexIsRead(i, x, t);
  }

  lemma {:induction false} IndexesParse(ixs: seq<Index>, optional: bool)
    requires forall i :: i in ixs ==> DigitsOnly(i.digits)
    ensures ParseIndexes(SpellIndexes(ixs) + Mark(optional)) == Some((Ints(ixs), optional))
    decreases |ixs|
  {
    if ixs == [] {
      assert SpellIndexes(ixs) + Mark(optional) == Mark(optional);
    } else {
      IndexesParse(ixs[1..], optional);
      assert SpellIndexes(ixs) + Mark(optional) == SpellIndex(ixs[0]) + (SpellIndexes(ixs[1..]) + Mark(optional));
      IndexParses(ixs[0], SpellIndexes(ixs[1..]) + Mark(optional), SpellIndexes(ixs) + Mark(optional));
    }
  }

  lemma PartParses(p: Part)
    requires WellFormed(p)
    ensures ParseSegment(SpellPart(p)) == Some(Segment(p.name, Ints(p.indexes), p.optional))
  {
    var tail := SpellIndexes(p.indexes) + Mark(p.optional);
    assert tail != [] ==> tail[0] == 91 || tail[0] == 63;
    NameEnds(p.name, tail);
    IndexesParse(p.indexes, p.optional);
    assert SpellPart(p)[|p.name|..] == tail && SpellPart(p)[..|p.name|] == p.name;
  }

  lemma BracketText(t: Text, sign: nat, n: nat)
    requires 1 + sign + n < |t| && t[0] == 91 && t[1 + sign + n] == 93 && sign <= 1 && (sign == 1 ==> t[1] == 45)
    ensures t == SpellIndex(Index(sign == 1, t[1 + sign..1 + sign + n])) + t[1 + sign + n + 1..]
  {}

  /** Whatever is read as an index is written as one. */
  lemma ReadIsSpelled(t: Text) returns (first: Index)
    requires ReadIndex(t).Some?
    ensures DigitsOnly(first.digits) && t == SpellIndex(first) + ReadIndex(t).value.1
  {
    var sign := if |t| > 1 && t[1] == 45 then 1 else 0;
    var n := DigitCount(t[1 + sign..]);
    BracketText(t, sign, n);
    first := Index(sign == 1, t[1 + sign..1 + sign + n]);
    assert forall k :: 0 <= k < n ==> first.digits[k] == t[1 + sign..][k];
  }

  /** Nothing else is read: whatever parses is a well-formed part as written. */
  lemma {:induction false} ParsedIndexesAreSpelled(t: Text) returns (ixs: seq<Index>)
    requires ParseIndexes(t).Some?
    ensures (forall i :: i in ixs ==> DigitsOnly(i.digits)) && t == SpellIndexes(ixs) + Mark(ParseIndexes(t).value.1)
    decreases |t|
  {
    if t == [] || t == [63] {
      ixs := [];
    } else {
      var first := ReadIsSpelled(t);
      var more := ParsedIndexesAreSpelled(ReadIndex(t).value.1);
      ixs := [first] + more;
      assert ixs[1..] == more;
      assert SpellIndexes(ixs) == SpellIndex(first) + SpellIndexes(more);
    }
  }

  lemma {:induction false} NameIsText(t: Text)
    ensures NameText(t[..NameLength(t)])
    decreases |t|
  {
    if t == [] || !NameChar(t[0]) {
    } else {
      NameIsText(t[1..]);
      assert t[..NameLength(t)] == [t[0]] + t[1..][..NameLength(t[1..])];
    }
  }

  lemma SegmentFacts(t: Text)
    requires ParseSegment(t).Some?
    ensures var tail := ParseIndexes(t[NameLength(t)..]); tail.Some? && tail.value.1 == ParseSegment(t).value.optional
  {}

  lemma PartText(t: Text, n: nat, ixs: seq<Index>, optional: bool)
    requires n <= |t| && t[n..] == SpellIndexes(ixs) + Mark(optional)
    ensures t == SpellPart(Part(t[..n], ixs, optional))
  {
    assert t == t[..n] + t[n..];
  }

  lemma ParsedIsSpelled(t: Text) returns (p: Part)
    requires ParseSegment(t).Some?
    ensures WellFormed(p) && t == SpellPart(p)
  {
    var n := NameLength(t);
    NameIsText(t);
    SegmentFacts(t);
    var ixs := ParsedIndexesAreSpelled(t[n..]);
    p := Part(t[..n], ixs, ParseSegment(t).value.optional);
    PartText(t, n, ixs, p.optional);
  }

  lemma {:induction false} NoDot(t: Text, x: Text)
    requires 46 !in t
    ensures Split(t + x, 46) == [t + Split(x, 46)[0]] + Split(x, 46)[1..]
    decreases |t|
  {
    if t == [] {
      assert t + x == x && t + Split(x, 46)[0] == Split(x, 46)[0];
    } else {
      assert (t + x)[1..] == t[1..] + x;
      NoDot(t[1..], x);
      assert t + Split(x, 46)[0] == [t[0]] + (t[1..] + Split(x, 46)[0]);
    }
  }

  lemma {:induction false} IndexesHaveNoDot(ixs: seq<Index>)
    requires forall i :: i in ixs ==> DigitsOnly(i.digits)
    ensures 46 !in SpellIndexes(ixs)
    decreases |ixs|
  {
    if ixs == [] {
    } else {
      IndexesHaveNoDot(ixs[1..]);
      assert ixs[0] in ixs;
    }
  }

  function Spelled(ps: seq<Part>): (ts: seq<Text>)
    ensures |ts| == |ps|
  {
    if ps == [] then [] else [SpellPart(ps[0])] + Spelled(ps[1..])
  }

  /** The text between the dots is the parts. */
  lemma FirstSplits(first: Text, rest: Text)
    requires 46 !in first && (rest == [] || rest[0] == 46)
    ensures Split(first + rest, 46) == [first] + if rest == [] then [] else Split(rest[1..], 46)
  {
    NoDot(first, rest);
    assert first + [] == first;
  }

  lemma SpellFirst(ps: seq<Part>)
    requires ps != []
    ensures Spell(ps)[1..] == SpellPart(ps[0]) + Spell(ps[1..])
    ensures Spell(ps[1..]) == [] <==> |ps| == 1
  {
    var rest := SpellPart(ps[0]) + Spell(ps[1..]);
    assert ([46] + rest)[1..] == rest;
  }

  lemma PartHasNoDot(p: Part)
    requires WellFormed(p)
    ensures 46 !in SpellPart(p)
  {
    IndexesHaveNoDot(p.indexes);
  }

  lemma {:induction false} PartsSplit(ps: seq<Part>)
    requires ps != [] && forall p :: p in ps ==> WellFormed(p)
    ensures Split(Spell(ps)[1..], 46) == Spelled(ps)
    decreases |ps|
  {
    assert ps[0] in ps;
    PartHasNoDot(ps[0]);
    SpellFirst(ps);
    FirstSplits(SpellPart(ps[0]), Spell(ps[1..]));
    if |ps| > 1 {
      PartsSplit(ps[1..]);
    } else {
      assert Spelled(ps[1..]) == [];
    }
  }

  // ---------------------------------------------------------------- and leads there

  lemma {:induction false} ElementsMean(v: Val, ixs: seq<int>, optional: bool)
    ensures var s := StepIndexes(v, ixs, optional);
      && (forall w :: Elements(v, ixs, w) <==> s == At(w))
      && (s.Stopped? ==> s.result == if optional then Found(VNull) else NotFound)
    decreases |ixs|
  {
    if ixs == [] {
    } else {
      var s := StepIndexes(v, ixs, optional);
      if v.VArr? && -|v.items| <= ixs[0] < |v.items| {
        var u := v.items[if ixs[0] >= 0 then ixs[0] else |v.items| + ixs[0]];
        ElementsMean(u, ixs[1..], optional);
        assert Element(v, ixs[0], u) && forall x :: Element(v, ixs[0], x) ==> x == u;
      } else {
        assert forall x :: !Element(v, ixs[0], x);
      }
    }
  }

  /** What one part does, as a step. */
  function StepPart(v: Val, p: Part): Step {
    var s := Segment(p.name, Ints(p.indexes), p.optional);
    var named := StepName(v, s);
    if named.Stopped? then named else StepIndexes(named.value, s.indexes, p.optional)
  }

  lemma PartMeans(v: Val, p: Part)
    ensures var s := StepPart(v, p);
      && (forall w :: Leads(v, p, w) <==> s == At(w))
      && (s.Stopped? ==>
            s.result == if p.optional && !(v.VObj? && Reserved(p.name)) then Found(VNull) else NotFound)
  {
    var named := StepName(v, Segment(p.name, Ints(p.indexes), p.optional));
    assert Lit("__proto__") != [] && Lit("constructor") != [] && Lit("prototype") != [];
    if named.Stopped? {
      assert forall u :: !Child(v, p.name, u);
    } else {
      var u := named.value;
      ElementsMean(u, Ints(p.indexes), p.optional);
      assert if p.name == [] then u == v else Child(v, p.name, u);
      assert forall x :: (if p.name == [] then x == v else Child(v, p.name, x)) ==> x == u;
    }
  }

  lemma WalkStep(v: Val, ps: seq<Part>)
    requires ps != [] && WellFormed(ps[0])
    ensures var s := StepPart(v, ps[0]);
      Walk(v, Spelled(ps)) == if s.Stopped? then s.result else Walk(s.value, Spelled(ps[1..]))
  {
    PartParses(ps[0]);
    assert Spelled(ps)[0] == SpellPart(ps[0]) && Spelled(ps)[1..] == Spelled(ps[1..]);
  }

  lemma ArrivesStep(v: Val, ps: seq<Part>, w: Val)
    requires ps != []
    ensures var s := StepPart(v, ps[0]);
      Arrives(v, ps, w) <==> if s.Stopped? then s.result == Found(w) else Arrives(s.value, ps[1..], w)
  {
    PartMeans(v, ps[0]);
  }

  lemma {:induction false} WalkMeans(v: Val, ps: seq<Part>, w: Val)
    requires forall p :: p in ps ==> WellFormed(p)
    ensures Walk(v, Spelled(ps)) == Found(w) <==> Arrives(v, ps, w)
    decreases |ps|
  {
    if ps == [] {
    } else {
      assert ps[0] in ps;
      WalkStep(v, ps);
      ArrivesStep(v, ps, w);
      var s := StepPart(v, ps[0]);
      if s.At? { WalkMeans(s.value, ps[1..], w); }
    }
  }

  /** A written selector resolves to `w` exactly when its parts lead there. */
  lemma ResolvesExactly(args: Val, ps: seq<Part>, w: Val)
    requires ps != [] && forall p :: p in ps ==> WellFormed(p)
    ensures Resolve(args, Spell(ps)) == Found(w) <==> Arrives(args, ps, w)
  {
    PartsSplit(ps);
    WalkMeans(args, ps, w);
    if Spell(ps) == [46] {
      assert Spell(ps)[1..] == [] && Split([], 46) == [[]];
      assert SpellPart(ps[0]) == Spelled(ps)[0] == [];
      assert |ps| == 1;
    }
  }

  // ---------------------------------------------------------------- every text that resolves

  /** Pieces after their dots. */
  function Dotted(ts: seq<Text>): Text { if ts == [] then [] else [46] + (ts[0] + Dotted(ts[1..])) }

  lemma {:induction false} SplitRejoins(t: Text)
    ensures Dotted(Split(t, 46)) == [46] + t
    decreases |t|
  {
    if t == [] {
    } else {
      var rest := Split(t[1..], 46);
      SplitRejoins(t[1..]);
      assert t == [t[0]] + t[1..] && rest == [rest[0]] + rest[1..];
      if t[0] == 46 {
        assert ([[]] + rest)[1..] == rest;
      } else {
        assert ([[t[0]] + rest[0]] + rest[1..])[1..] == rest[1..];
        assert Dotted(rest)[1..] == rest[0] + Dotted(rest[1..]);
        assert [t[0]] + rest[0] + Dotted(rest[1..]) == [t[0]] + (rest[0] + Dotted(rest[1..]));
      }
    }
  }

  lemma {:induction false} DottedSplits(ts: seq<Text>, n: nat)
    requires n <= |ts|
    ensures Dotted(ts) == Dotted(ts[..n]) + Dotted(ts[n..])
    decreases n
  {
    if n == 0 {
      assert ts[..0] == [] && ts[0..] == ts;
    } else {
      DottedSplits(ts[1..], n - 1);
      assert ts[..n][1..] == ts[1..][..n - 1] && ts[1..][n - 1..] == ts[n..];
    }
  }

  lemma {:induction false} SpelledDotted(ps: seq<Part>)
    ensures Dotted(Spelled(ps)) == Spell(ps)
    decreases |ps|
  {
    if ps == [] {
    } else {
      assert Spelled(ps)[1..] == Spelled(ps[1..]);
      SpelledDotted(ps[1..]);
    }
  }

  lemma StoppedArrives(v: Val, p: Part, w: Val)
    requires StepPart(v, p) == Stopped(Found(w))
    ensures Arrives(v, [p], w) && w == VNull
  {
    PartMeans(v, p);
  }

  lemma OnwardArrives(v: Val, p: Part, u: Val, rest: seq<Part>, w: Val)
    requires StepPart(v, p) == At(u) && Arrives(u, rest, w)
    ensures Arrives(v, [p] + rest, w)
  {
    PartMeans(v, p);
    assert ([p] + rest)[1..] == rest;
  }

  lemma FirstIsWritten(v: Val, ts: seq<Text>, w: Val) returns (p: Part)
    requires ts != [] && Walk(v, ts) == Found(w)
    ensures WellFormed(p) && ts[0] == SpellPart(p)
    ensures var s := StepPart(v, p); if s.Stopped? then s.result == Found(w) else Walk(s.value, ts[1..]) == Found(w)
  {
    p := ParsedIsSpelled(ts[0]);
    PartParses(p);
  }

  lemma {:induction false} WalkIsWritten(v: Val, ts: seq<Text>, w: Val) returns (ps: seq<Part>)
    requires Walk(v, ts) == Found(w)
    ensures Spelled(ps) <= ts && (forall p :: p in ps ==> WellFormed(p))
    ensures Arrives(v, ps, w) && (|ps| < |ts| ==> w == VNull) && (ts != [] ==> ps != [])
    decreases |ts|
  {
    if ts == [] {
      ps := [];
    } else {
      var p := FirstIsWritten(v, ts, w);
      var s := StepPart(v, p);
      if s.Stopped? {
        ps := [p];
        StoppedArrives(v, p, w);
        SpelledCons(p, []);
        ConsPrefix(ts[0], [], ts);
      } else {
        var rest := WalkIsWritten(s.value, ts[1..], w);
        ps := [p] + rest;
        OnwardArrives(v, p, s.value, rest, w);
        SpelledCons(p, rest);
        ConsPrefix(ts[0], Spelled(rest), ts);
      }
    }
  }

  lemma ConsPrefix(a: Text, xs: seq<Text>, ts: seq<Text>)
    requires ts != [] && ts[0] == a && xs <= ts[1..]
    ensures [a] + xs <= ts
  {}

  lemma SpelledCons(p: Part, rest: seq<Part>)
    ensures Spelled([p] + rest) == [SpellPart(p)] + Spelled(rest)
  {
    assert ([p] + rest)[1..] == rest;
  }

  /**
   * Whatever resolves, and is not the lone dot, begins with a written selector that leads there; only
   * an optional part that ended at null leaves anything unread.
   */
  lemma FoundIsWritten(args: Val, selector: Text, w: Val) returns (ps: seq<Part>, tail: Text)
    requires Resolve(args, selector) == Found(w) && selector != [46]
    ensures ps != [] && (forall p :: p in ps ==> WellFormed(p)) && selector == Spell(ps) + tail
    ensures Arrives(args, ps, w) && (tail != [] ==> w == VNull && tail[0] == 46)
  {
    var ts := Split(selector[1..], 46);
    ps := WalkIsWritten(args, ts, w);
    tail := Dotted(ts[|ps|..]);
    SplitRejoins(selector[1..]);
    assert ts[..|ps|] == Spelled(ps);
    DottedSplits(ts, |ps|);
    SpelledDotted(ps);
    assert selector == [46] + selector[1..];
  }

  // ---------------------------------------------------------------- plain paths

  /** `w` is reached from `v` through own fields of these names. */
  predicate FieldPath(v: Val, names: seq<Text>, w: Val)
    decreases |names|
  {
    if names == [] then v == w
    else v.VObj? && names[0] in v.fields && FieldPath(v.fields[names[0]], names[1..], w)
  }

  predicate PlainName(name: Text) { name != [] && NameText(name) && !Reserved(name) }

  function Named(names: seq<Text>): (ps: seq<Part>)
    ensures |ps| == |names|
  {
    if names == [] then [] else [Part(names[0], [], false)] + Named(names[1..])
  }

  lemma NameLeads(v: Val, name: Text, w: Val)
    requires PlainName(name)
    ensures Leads(v, Part(name, [], false), w) <==> v.VObj? && name in v.fields && v.fields[name] == w
  {
    assert Ints([]) == [];
    assert forall u, x :: Elements(u, [], x) <==> u == x;
    if v.VObj? && name in v.fields && v.fields[name] == w { assert Child(v, name, w) && Elements(w, [], w); }
  }

  lemma {:induction false} NamesArrive(v: Val, names: seq<Text>, w: Val)
    requires forall n :: n in names ==> PlainName(n)
    ensures Arrives(v, Named(names), w) <==> FieldPath(v, names, w)
    decreases |names|
  {
    if names == [] {
    } else {
      assert names[0] in names;
      assert Named(names)[0] == Part(names[0], [], false) && Named(names)[1..] == Named(names[1..]);
      forall u ensures Leads(v, Named(names)[0], u) <==> v.VObj? && names[0] in v.fields && v.fields[names[0]] == u {
        NameLeads(v, names[0], u);
      }
      if v.VObj? && names[0] in v.fields { NamesArrive(v.fields[names[0]], names[1..], w); }
    }
  }

  lemma {:induction false} NamedSpells(names: seq<Text>)
    requires forall n :: n in names ==> PlainName(n)
    ensures Spelled(Named(names)) == names && forall p :: p in Named(names) ==> WellFormed(p)
    decreases |names|
  {
    if names == [] {
    } else {
      assert names[0] in names && names == [names[0]] + names[1..];
      NamedSpells(names[1..]);
      assert SpellPart(Part(names[0], [], false)) == names[0];
    }
  }

  /** A dotted path of plain names resolves exactly when each name is an own field on the way. */
  lemma NamesResolve(args: Val, names: seq<Text>, w: Val)
    requires names != [] && forall n :: n in names ==> PlainName(n)
    ensures Resolve(args, Dotted(names)) == Found(w) <==> FieldPath(args, names, w)
  {
    var ps := Named(names);
    NamedSpells(names);
    ResolvesExactly(args, ps, w);
    NamesArrive(args, names, w);
    SpelledDotted(ps);
  }

  /** The optional mark: a missing field is null instead of nothing. */
  lemma OptionalResolves(args: Val, name: Text, w: Val)
    requires PlainName(name)
    ensures Resolve(args, Spell([Part(name, [], true)])) == Found(w) <==>
      if args.VObj? && name in args.fields then w == args.fields[name] else w == VNull
  {
    var p := Part(name, [], true);
    ResolvesExactly(args, [p], w);
    PartMeans(args, p);
    assert [p][1..] == [] && Ints([]) == [];
  }

  /** Index -k of n elements is element n - k; anything beyond either end is nothing. */
  lemma IndexResolves(items: seq<Val>, i: Index, w: Val)
    requires DigitsOnly(i.digits)
    ensures Resolve(VArr(items), Spell([Part([], [i], false)])) == Found(w) <==>
      var k := JsonReader.Numeral(i.digits, 0);
      k >= 0 && if i.negative && k > 0 then k <= |items| && w == items[|items| - k] else k < |items| && w == items[k]
  {
    var p := Part([], [i], false);
    ResolvesExactly(VArr(items), [p], w);
    NumeralNatural(i.digits, 0);
    assert [p][1..] == [] && Ints([i]) == [IntOf(i)] && [IntOf(i)][1..] == [];
    assert Elements(w, [], w);
    ElementsMean(VArr(items), [IntOf(i)], false);
    PartMeans(VArr(items), p);
  }

  lemma {:induction false} NumeralNatural(t: Text, so_far: nat)
    requires forall c :: c in t ==> 48 <= c <= 57
    ensures JsonReader.Numeral(t, so_far) >= 0
    decreases |t|
  {
    if t == [] {
    } else {
      assert t[0] in t && forall c :: c in t[1..] ==> c in t;
      NumeralNatural(t[1..], 10 * so_far + (t[0] as int - 48));
    }
  }

  // ---------------------------------------------------------------- patterns

  /** How a pattern is written: `*` for anything, a literal star after a backslash. */
  function SpellGlob(g: Glob): Text {
    match g
    case Star => [42]
    case Unit(c) => if c == 42 then [92, 42] else [c]
  }

  function SpellGlobs(gs: seq<Glob>): Text { if gs == [] then [] else SpellGlob(gs[0]) + SpellGlobs(gs[1..]) }

  /** A backslash never stands before a wildcard: that is how a literal star is written. */
  predicate Writable(gs: seq<Glob>) {
    forall i :: 0 <= i && i + 1 < |gs| ==> gs[i] == Unit(92) ==> gs[i + 1] != Star
  }

  lemma {:induction false} PatternReads(gs: seq<Glob>)
    requires Writable(gs)
    ensures Globs(SpellGlobs(gs)) == gs
    decreases |gs|
  {
    if gs == [] {
    } else {
      var first, rest := SpellGlob(gs[0]), SpellGlobs(gs[1..]);
      PatternReads(gs[1..]);
      assert gs == [gs[0]] + gs[1..];
      assert (first + rest)[|first|..] == rest;
      if |gs| > 1 {
        assert gs[0] == Unit(92) ==> gs[0 + 1] != Star;
        assert rest[0] == SpellGlob(gs[1])[0];
      }
    }
  }

  /** The first token of a pattern, and how it is written. */
  lemma FirstToken(pattern: Text) returns (n: nat)
    requires pattern != []
    ensures 1 <= n <= |pattern| && Globs(pattern) != [] && Globs(pattern)[1..] == Globs(pattern[n..])
    ensures SpellGlob(Globs(pattern)[0]) == pattern[..n]
    ensures Globs(pattern)[0] == Unit(92) && n < |pattern| ==> pattern[n] != 42
  {
    n := if pattern[0] == 92 && |pattern| > 1 && pattern[1] == 42 then 2 else 1;
  }

  lemma {:induction false} PatternIsWritten(pattern: Text)
    ensures Writable(Globs(pattern)) && SpellGlobs(Globs(pattern)) == pattern
    decreases |pattern|
  {
    if pattern == [] {
    } else {
      var n := FirstToken(pattern);
      var gs, rest := Globs(pattern), Globs(pattern[n..]);
      PatternIsWritten(pattern[n..]);
      assert pattern == pattern[..n] + pattern[n..];
      StarAhead(rest, pattern[n..]);
      WritableCons(gs[0], rest);
      assert gs == [gs[0]] + rest;
    }
  }

  lemma StarAhead(gs: seq<Glob>, t: Text)
    requires SpellGlobs(gs) == t
    ensures gs != [] && gs[0].Star? ==> t != [] && t[0] == 42
  {}

  lemma WritableCons(g: Glob, gs: seq<Glob>)
    requires Writable(gs) && (g == Unit(92) && gs != [] ==> gs[0] != Star)
    ensures Writable([g] + gs)
  {
    var all := [g] + gs;
    forall i | 0 <= i && i + 1 < |all| && all[i] == Unit(92) ensures all[i + 1] != Star {
      if i > 0 { assert gs[i - 1] == Unit(92) ==> gs[i - 1 + 1] != Star; }
    }
  }

  predicate NoLineEnd(t: Text) { forall c :: c in t ==> c != 10 && c != 13 && c != 0x2028 && c != 0x2029 }

  /** What one token of a pattern covers. */
  predicate Covers(g: Glob, t: Text) { if g.Star? then NoLineEnd(t) else t == [g.c] }

  function Flat(ts: seq<Text>): Text { if ts == [] then [] else ts[0] + Flat(ts[1..]) }

  /** The text is cut into pieces, one a token. */
  predicate Cut(gs: seq<Glob>, pieces: seq<Text>, t: Text) {
    |pieces| == |gs| && Flat(pieces) == t && forall i :: 0 <= i < |gs| ==> Covers(gs[i], pieces[i])
  }

  ghost predicate Fits(pattern: Text, t: Text) { exists pieces :: Cut(Globs(pattern), pieces, t) }

  lemma {:induction false} MatchesCut(gs: seq<Glob>, t: Text) returns (pieces: seq<Text>)
    requires Matches(gs, t)
    ensures Cut(gs, pieces, t)
    decreases |gs| + |t|
  {
    if gs == [] {
      pieces := [];
    } else if gs[0].Star? && Matches(gs[1..], t) {
      var rest := MatchesCut(gs[1..], t);
      pieces := [[]] + rest;
      assert pieces[1..] == rest && [] + t == t;
    } else if gs[0].Star? {
      var rest := MatchesCut(gs, t[1..]);
      pieces := [[t[0]] + rest[0]] + rest[1..];
      assert pieces[1..] == rest[1..] && t == [t[0]] + t[1..];
      assert Flat(pieces) == [t[0]] + (rest[0] + Flat(rest[1..]));
    } else {
      var rest := MatchesCut(gs[1..], t[1..]);
      pieces := [[t[0]]] + rest;
      assert pieces[1..] == rest && t == [t[0]] + t[1..];
    }
  }

  lemma {:induction false} CutMatches(gs: seq<Glob>, pieces: seq<Text>, t: Text)
    requires Cut(gs, pieces, t)
    ensures Matches(gs, t)
    decreases |gs| + |t|
  {
    if gs == [] {
    } else {
      var first, rest := pieces[0], pieces[1..];
      assert t == first + Flat(rest);
      if gs[0].Unit? {
        assert t[1..] == Flat(rest);
        CutMatches(gs[1..], rest, t[1..]);
      } else if first == [] {
        assert t == Flat(rest);
        CutMatches(gs[1..], rest, t);
      } else {
        var shorter := [first[1..]] + rest;
        assert shorter[1..] == rest && t[1..] == first[1..] + Flat(rest) && first[0] in first;
        assert forall c :: c in first[1..] ==> c in first;
        CutMatches(gs, shorter, t[1..]);
      }
    }
  }

  // ---------------------------------------------------------------- what predicates accept

  /** The elements of an array, the field values of an object. */
  function Members(r: Resolved): set<Val> {
    match r
    case Found(VArr(xs)) => set x | x in xs
    case Found(VObj(m)) => m.Values
    case _ => {}
  }

  predicate Collection(r: Resolved) { r.Found? && (r.value.VArr? || r.value.VObj?) }

  /** What a predicate accepts, in terms of the value its selector resolves to. */
  ghost predicate Accepts(p: Pred, args: Val)
    decreases p
  {
    match p
    case Eq(sel, c) => Resolve(args, sel) == Found(c)
    case Ne(sel, c) => exists v :: v != c && Resolve(args, sel) == Found(v)
    case Cmp(op, sel, bound) =>
      exists n :: Resolve(args, sel) == Found(VNum(n)) &&
        (match op case Lt => n < bound case Le => n <= bound case Gt => n > bound case Ge => n >= bound)
    case Like(sel, pattern) => exists t :: Resolve(args, sel) == Found(VStr(t)) && Fits(pattern, t)
    case And(ps) => forall q :: q in ps ==> Accepts(q, args)
    case Or(ps) => exists q :: q in ps && Accepts(q, args)
    case Not(q) => !Accepts(q, args)
    case All(sel, q) => Collection(Resolve(args, sel)) && forall x :: x in Members(Resolve(args, sel)) ==> Accepts(q, x)
    case Any(sel, q) => exists x :: x in Members(Resolve(args, sel)) && Accepts(q, x)
  }

  lemma EqualTexts(v: Val, c: Val)
    ensures DeepEqual(v, c) <==> v == c
  {
    if DeepEqual(v, c) { PrintInjective(v, c); }
  }

  lemma LikeMeans(sel: Text, pattern: Text, args: Val)
    ensures EvalPredicate(Like(sel, pattern), args) <==> Accepts(Like(sel, pattern), args)
  {
    var r := Resolve(args, sel);
    if r.Found? && r.value.VStr? {
      if Matches(Globs(pattern), r.value.text) {
        var pieces := MatchesCut(Globs(pattern), r.value.text);
      }
      if pieces :| Cut(Globs(pattern), pieces, r.value.text) { CutMatches(Globs(pattern), pieces, r.value.text); }
    }
  }

  lemma FieldIsMember(r: Resolved, k: Text)
    requires r.Found? && r.value.VObj? && k in r.value.fields
    ensures r.value.fields[k] in Members(r)
  {}

  lemma MemberIsField(r: Resolved, x: Val) returns (k: Text)
    requires r.Found? && r.value.VObj? && x in Members(r)
    ensures k in r.value.fields && r.value.fields[k] == x
  {
    k :| k in r.value.fields && r.value.fields[k] == x;
  }

  lemma EvalAll(sel: Text, q: Pred, args: Val)
    ensures EvalPredicate(All(sel, q), args)
       <==> Collection(Resolve(args, sel)) && forall x :: x in Members(Resolve(args, sel)) ==> EvalPredicate(q, x)
  {
    var r := Resolve(args, sel);
    if r.Found? && r.value.VObj? {
      if EvalPredicate(All(sel, q), args) {
        forall x | x in Members(r) ensures EvalPredicate(q, x) { var k := MemberIsField(r, x); }
      }
      forall k | k in r.value.fields ensures r.value.fields[k] in Members(r) { FieldIsMember(r, k); }
    } else if r.Found? && r.value.VArr? {
      ItemsAreMembers(r);
    }
  }

  lemma ItemsAreMembers(r: Resolved)
    requires r.Found? && r.value.VArr?
    ensures forall x :: x in Members(r) <==> x in r.value.items
  {}

  lemma EvalAny(sel: Text, q: Pred, args: Val)
    ensures EvalPredicate(Any(sel, q), args) <==> exists x :: x in Members(Resolve(args, sel)) && EvalPredicate(q, x)
  {
    var r := Resolve(args, sel);
    if r.Found? && r.value.VObj? {
      forall k | k in r.value.fields ensures r.value.fields[k] in Members(r) { FieldIsMember(r, k); }
      if x :| x in Members(r) && EvalPredicate(q, x) { var k := MemberIsField(r, x); }
    } else if r.Found? && r.value.VArr? {
      ItemsAreMembers(r);
    }
  }

  lemma {:induction false} CollectionMeans(sel: Text, q: Pred, args: Val)
    ensures EvalPredicate(All(sel, q), args) <==> Accepts(All(sel, q), args)
    ensures EvalPredicate(Any(sel, q), args) <==> Accepts(Any(sel, q), args)
    decreases q, 1
  {
    EvalAll(sel, q, args);
    EvalAny(sel, q, args);
    forall x | x in Members(Resolve(args, sel)) ensures EvalPredicate(q, x) <==> Accepts(q, x) { EvalMeans(q, x); }
  }

  /** Evaluation is acceptance, for every predicate and every arguments. */
  lemma {:induction false} EvalMeans(p: Pred, args: Val)
    ensures EvalPredicate(p, args) <==> Accepts(p, args)
    decreases p, 0
  {
    match p
    case Eq(sel, c) => if Resolve(args, sel).Found? { EqualTexts(Resolve(args, sel).value, c); }
    case Ne(sel, c) => if Resolve(args, sel).Found? { EqualTexts(Resolve(args, sel).value, c); }
    case Cmp(_, sel, _) =>
    case Like(sel, pattern) => LikeMeans(sel, pattern, args);
    case And(ps) => forall q | q in ps ensures EvalPredicate(q, args) <==> Accepts(q, args) { EvalMeans(q, args); }
    case Or(ps) => forall q | q in ps ensures EvalPredicate(q, args) <==> Accepts(q, args) { EvalMeans(q, args); }
    case Not(q) => EvalMeans(q, args);
    case All(sel, q) => CollectionMeans(sel, q, args);
    case Any(sel, q) => CollectionMeans(sel, q, args);
  }

  /** A policy accepts what all its predicates accept. */
  lemma PolicyMeans(pol: seq<Pred>, args: Val)
    ensures SatisfiesPolicy(pol, args) <==> forall p :: p in pol ==> Accepts(p, args)
  {
    forall p | p in pol ensures EvalPredicate(p, args) <==> Accepts(p, args) { EvalMeans(p, args); }
  }
}
