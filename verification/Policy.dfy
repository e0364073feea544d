/**
 * The predicate language of capabilities (src/core/policy.ts): selectors, evaluation over
 * invocation arguments, and the syntactic narrowing check between two policies.
 */
module Policy {
  import opened Basics
  import opened Canonical
  import opened CanonicalLaws

  datatype CmpOp = Lt | Le | Gt | Ge

  datatype Pred =
    | Eq(sel: Text, const_: Val)
    | Ne(sel: Text, const_: Val)
    | Cmp(op: CmpOp, sel: Text, bound: int)
    | Like(sel: Text, pattern: Text)
    | And(preds: seq<Pred>)
    | Or(preds: seq<Pred>)
    | Not(pred: Pred)
    | All(sel: Text, pred: Pred)
    | Any(sel: Text, pred: Pred)

  // ---------------------------------------------------------------- selectors

  datatype Resolved = NotFound | Found(value: Val)

  /** One dot-separated part of a selector: a name, indexes in brackets, an optional mark. */
  datatype Segment = Segment(name: Text, indexes: seq<int>, optional: bool)

  function Split(t: Text, sep: CodeUnit): (parts: seq<Text>)
    ensures parts != []
  {
    if t == [] then [[]]
    else
      var rest := Split(t[1..], sep);
      if t[0] == sep then [[]] + rest else [[t[0]] + rest[0]] + rest[1..]
  }

  predicate NameChar(c: CodeUnit) {
    48 <= c < 58 || 65 <= c <= 90 || 97 <= c <= 122 || c == 95 || c == 45
  }

  function NameLength(t: Text): (n: nat)
    ensures n <= |t|
  {
    if t == [] || !NameChar(t[0]) then 0 else 1 + NameLength(t[1..])
  }

  function DigitCount(t: Text): (n: nat)
    ensures n <= |t|
    ensures forall i :: 0 <= i < n ==> IsDigit(t[i])
  {
    if t == [] || !IsDigit(t[0]) then 0 else 1 + DigitCount(t[1..])
  }

  /** One index in brackets, and the text after it. */
  function ReadIndex(t: Text): (r: Option<(int, Text)>)
    ensures r.Some? ==> |r.value.1| < |t|
  {
    if t == [] || t[0] != 91 then None
    else
      var sign := if |t| > 1 && t[1] == 45 then 1 else 0;
      var digits := DigitCount(t[1 + sign..]);
      var close := 1 + sign + digits;
      if digits == 0 || close >= |t| || t[close] != 93 then None
      else Some((if sign == 1 then -Value(t[1 + sign..close]) else Value(t[1 + sign..close]), t[close + 1..]))
  }

  /** The bracketed indexes and the optional mark that end a segment. */
  function ParseIndexes(t: Text): Option<(seq<int>, bool)>
    decreases |t|
  {
    if t == [] then Some(([], false))
    else if t == [63] then Some(([], true))
    else
      var first := ReadIndex(t);
      if first.None? then None
      else
        var rest := ParseIndexes(first.value.1);
        if rest.None? then None else Some(([first.value.0] + rest.value.0, rest.value.1))
  }

  function ParseSegment(raw: Text): Option<Segment> {
    var n := NameLength(raw);
    var tail := ParseIndexes(raw[n..]);
    if tail.None? then None else Some(Segment(raw[..n], tail.value.0, tail.value.1))
  }

  predicate Forbidden(name: Text) {
    name == Lit("__proto__") || name == Lit("constructor") || name == Lit("prototype")
  }

  /** What a step that cannot be taken yields: null when the segment is optional. */
  function Missing(optional: bool): Resolved {
    if optional then Found(VNull) else NotFound
  }

  function Position(i: int, length: nat): int {
    if i < 0 then length + i else i
  }

  datatype Step = Stopped(result: Resolved) | At(value: Val)

  function StepName(cur: Val, s: Segment): Step {
    if s.name == [] then At(cur)
    else if !cur.VObj? then Stopped(Missing(s.optional))
    else if Forbidden(s.name) then Stopped(NotFound)
    else if s.name !in cur.fields then Stopped(Missing(s.optional))
    else At(cur.fields[s.name])
  }

  function StepIndexes(cur: Val, indexes: seq<int>, optional: bool): Step {
    if indexes == [] then At(cur)
    else if !cur.VArr? then Stopped(Missing(optional))
    else
      var at := Position(indexes[0], |cur.items|);
      if at < 0 || at >= |cur.items| then Stopped(Missing(optional))
      else StepIndexes(cur.items[at], indexes[1..], optional)
  }

  function Walk(cur: Val, parts: seq<Text>): Resolved
    decreases |parts|
  {
    if parts == [] then Found(cur) else
      var seg := ParseSegment(parts[0]);
      if seg.None? then NotFound else
        var named := StepName(cur, seg.value);
        if named.Stopped? then named.result else
          var done := StepIndexes(named.value, seg.value.indexes, seg.value.optional);
          if done.Stopped? then done.result else Walk(done.value, parts[1..])
  }

  function Resolve(args: Val, selector: Text): Resolved {
    if selector == [46] then Found(args)
    else if !StartsWith(selector, [46]) then NotFound
    else Walk(args, Split(selector[1..], 46))
  }

  method FollowIndexes(from: Val, indexes: seq<int>, optional: bool) returns (s: Step)
    ensures s == StepIndexes(from, indexes, optional)
  {
    var cur := from;
    for k := 0 to |indexes|
      invariant StepIndexes(from, indexes, optional) == StepIndexes(cur, indexes[k..], optional)
    {
      assert indexes[k..][1..] == indexes[k + 1..];
      if !cur.VArr? { return Stopped(Missing(optional)); }
      var at := Position(indexes[k], |cur.items|);
      if at < 0 || at >= |cur.items| { return Stopped(Missing(optional)); }
      cur := cur.items[at];
    }
    return At(cur);
  }

  /** The source's loops over segments and over indexes. */
  method ResolveSelector(args: Val, selector: Text) returns (r: Resolved)
    ensures r == Resolve(args, selector)
  {
    if selector == [46] { return Found(args); }
    if !StartsWith(selector, [46]) { return NotFound; }
    var cur := args;
    var parts := Split(selector[1..], 46);
    for i := 0 to |parts|
      invariant Walk(args, parts) == Walk(cur, parts[i..])
    {
      assert parts[i..][1..] == parts[i + 1..];
      var seg := ParseSegment(parts[i]);
      if seg.None? { return NotFound; }
      var Segment(name, indexes, optional) := seg.value;
      if |name| > 0 {
        if !cur.VObj? { return Missing(optional); }
        if Forbidden(name) { return NotFound; }
        if name !in cur.fields { return Missing(optional); }
        cur := cur.fields[name];
      }
      var done := FollowIndexes(cur, indexes, optional);
      if done.Stopped? { return done.result; }
      cur := done.value;
    }
    return Found(cur);
  }

  // ---------------------------------------------------------------- evaluation

  function DeepEqual(a: Val, b: Val): bool {
    Print(a) == Print(b)
  }

  datatype Glob = Star | Unit(c: CodeUnit)

  /** A pattern: `*` is a wildcard, backslash-star a literal star. */
  function Globs(pattern: Text): seq<Glob> {
    if pattern == [] then []
    else if pattern[0] == 92 && |pattern| > 1 && pattern[1] == 42 then [Unit(42)] + Globs(pattern[2..])
    else if pattern[0] == 42 then [Star] + Globs(pattern[1..])
    else [Unit(pattern[0])] + Globs(pattern[1..])
  }

  predicate LineEnd(c: CodeUnit) {
    c == 10 || c == 13 || c == 0x2028 || c == 0x2029
  }

  predicate Matches(globs: seq<Glob>, s: Text)
    decreases |globs| + |s|
  {
    if globs == [] then s == []
    else if globs[0].Star? then Matches(globs[1..], s) || (s != [] && !LineEnd(s[0]) && Matches(globs, s[1..]))
    else s != [] && s[0] == globs[0].c && Matches(globs[1..], s[1..])
  }

  predicate Compare(op: CmpOp, v: int, bound: int) {
    match op
    case Lt => v < bound
    case Le => v <= bound
    case Gt => v > bound
    case Ge => v >= bound
  }

  predicate EvalPredicate(p: Pred, args: Val)
    decreases p
  {
    match p
    case Eq(sel, c) => var r := Resolve(args, sel); r.Found? && DeepEqual(r.value, c)
    case Ne(sel, c) => var r := Resolve(args, sel); r.Found? && !DeepEqual(r.value, c)
    case Cmp(op, sel, bound) =>
      var r := Resolve(args, sel); r.Found? && r.value.VNum? && Compare(op, r.value.num, bound)
    case Like(sel, pattern) =>
      var r := Resolve(args, sel); r.Found? && r.value.VStr? && Matches(Globs(pattern), r.value.text)
    case And(ps) => forall q :: q in ps ==> EvalPredicate(q, args)
    case Or(ps) => exists q :: q in ps && EvalPredicate(q, args)
    case Not(q) => !EvalPredicate(q, args)
    case All(sel, q) =>
      var r := Resolve(args, sel);
      && r.Found? && (r.value.VArr? || r.value.VObj?)
      && (r.value.VArr? ==> forall x :: x in r.value.items ==> EvalPredicate(q, x))
      && (r.value.VObj? ==> forall k :: k in r.value.fields ==> EvalPredicate(q, r.value.fields[k]))
    case Any(sel, q) =>
      var r := Resolve(args, sel);
      && r.Found?
      && ((r.value.VArr? && exists x :: x in r.value.items && EvalPredicate(q, x))
          || (r.value.VObj? && exists k :: k in r.value.fields && EvalPredicate(q, r.value.fields[k])))
  }

  /** A policy is an implicit conjunction. */
  predicate SatisfiesPolicy(pol: seq<Pred>, args: Val) {
    forall p :: p in pol ==> EvalPredicate(p, args)
  }

  // ---------------------------------------------------------------- narrowing

  function OpName(p: Pred): string {
    match p
    case Eq(_, _) => "=="
    case Ne(_, _) => "!="
    case Cmp(op, _, _) => (match op case Lt => "<" case Le => "<=" case Gt => ">" case Ge => ">=")
    case Like(_, _) => "like"
    case And(_) => "and"
    case Or(_) => "or"
    case Not(_) => "not"
    case All(_, _) => "all"
    case Any(_, _) => "any"
  }

  /** A predicate as the JSON array it is. */
  function PredVal(p: Pred): Val {
    var op := VStr(Lit(OpName(p)));
    match p
    case Eq(sel, c) => VArr([op, VStr(sel), c])
    case Ne(sel, c) => VArr([op, VStr(sel), c])
    case Cmp(_, sel, bound) => VArr([op, VStr(sel), VNum(bound)])
    case Like(sel, pattern) => VArr([op, VStr(sel), VStr(pattern)])
    case And(ps) => VArr([op, VArr(PredVals(ps))])
    case Or(ps) => VArr([op, VArr(PredVals(ps))])
    case Not(q) => VArr([op, PredVal(q)])
    case All(sel, q) => VArr([op, VStr(sel), PredVal(q)])
    case Any(sel, q) => VArr([op, VStr(sel), PredVal(q)])
  }

  function PredVals(ps: seq<Pred>): (vs: seq<Val>)
    ensures |vs| == |ps|
  {
    if ps == [] then [] else [PredVal(ps[0])] + PredVals(ps[1..])
  }

  predicate UpperBound(p: Pred) {
    p.Cmp? && (p.op == Lt || p.op == Le)
  }

  /** A child bound that may stand in for a parent bound on the same selector. */
  predicate Tightens(p: Pred, c: Pred) {
    && UpperBound(p) && UpperBound(c) && c.sel == p.sel
    && if p.op == Lt && c.op == Le then c.bound < p.bound else c.bound <= p.bound
  }

  /** Every parent predicate is kept verbatim (canonical text) or tightened. */
  predicate IsPolicyNarrower(parent: seq<Pred>, child: seq<Pred>) {
    forall p :: p in parent ==>
      || (exists c :: c in child && Print(PredVal(c)) == Print(PredVal(p)))
      || (exists c :: c in child && Tightens(p, c))
  }

  // ---------------------------------------------------------------- laws

  lemma OpNameDetermines(p: Pred, q: Pred)
    requires Lit(OpName(p)) == Lit(OpName(q))
    ensures OpName(p) == OpName(q)
  {
    LitInjective(OpName(p), OpName(q));
  }

  lemma {:induction false} PredValInjective(p: Pred, q: Pred)
    requires PredVal(p) == PredVal(q)
    ensures p == q
    decreases p
  {
    var a, b := PredVal(p).items, PredVal(q).items;
    assert a[0] == b[0];
    OpNameDetermines(p, q);
    assert a[1] == b[1] && (|a| == 3 ==> a[2] == b[2]);
    match p
    case And(ps) => PredValsInjective(ps, q.preds);
    case Or(ps) => PredValsInjective(ps, q.preds);
    case Not(r) => PredValInjective(r, q.pred);
    case All(_, r) => PredValInjective(r, q.pred);
    case Any(_, r) => PredValInjective(r, q.pred);
    case _ =>
  }

  lemma {:induction false} PredValsInjective(ps: seq<Pred>, qs: seq<Pred>)
    requires PredVals(ps) == PredVals(qs)
    ensures ps == qs
    decreases ps
  {
    assert |ps| == |qs|;
    if ps == [] {
    } else {
      assert PredVals(ps)[0] == PredVals(qs)[0] && PredVals(ps)[1..] == PredVals(qs)[1..];
      PredValInjective(ps[0], qs[0]);
      PredValsInjective(ps[1..], qs[1..]);
      assert ps == [ps[0]] + ps[1..] && qs == [qs[0]] + qs[1..];
    }
  }

  /** Byte-identical predicates are the same predicate. */
  lemma SameTextSamePredicate(p: Pred, q: Pred)
    requires Print(PredVal(p)) == Print(PredVal(q))
    ensures p == q
  {
    PrintInjective(PredVal(p), PredVal(q));
    PredValInjective(p, q);
  }

  /** What the textual check amounts to. */
  lemma NarrowerMeans(parent: seq<Pred>, child: seq<Pred>)
    ensures IsPolicyNarrower(parent, child) <==>
      forall p :: p in parent ==> p in child || exists c :: c in child && Tightens(p, c)
  {
    forall p | p in parent
      ensures (exists c :: c in child && Print(PredVal(c)) == Print(PredVal(p))) <==> p in child
    {
      if c :| c in child && Print(PredVal(c)) == Print(PredVal(p)) { SameTextSamePredicate(c, p); }
    }
  }

  lemma TighteningSound(p: Pred, c: Pred, args: Val)
    requires Tightens(p, c) && EvalPredicate(c, args)
    ensures EvalPredicate(p, args)
  {}

  /** Narrowing never lets through an invocation the parent policy refuses. */
  lemma NarrowerSound(parent: seq<Pred>, child: seq<Pred>, args: Val)
    requires IsPolicyNarrower(parent, child) && SatisfiesPolicy(child, args)
    ensures SatisfiesPolicy(parent, args)
  {
    NarrowerMeans(parent, child);
    forall p | p in parent ensures EvalPredicate(p, args) {
      if p !in child {
        var c :| c in child && Tightens(p, c);
        TighteningSound(p, c, args);
      }
    }
  }

  lemma NarrowerTransitive(a: seq<Pred>, b: seq<Pred>, c: seq<Pred>)
    requires IsPolicyNarrower(a, b) && IsPolicyNarrower(b, c)
    ensures IsPolicyNarrower(a, c)
  {
    NarrowerMeans(a, b);
    NarrowerMeans(b, c);
    NarrowerMeans(a, c);
    forall p | p in a ensures p in c || exists r :: r in c && Tightens(p, r) {
      if p !in b {
        var q :| q in b && Tightens(p, q);
        if q !in c {
          var r :| r in c && Tightens(q, r);
          assert Tightens(p, r);
        }
      }
    }
  }

  /**
   * The strict/inclusive case is needed: at equal bounds an inclusive child admits exactly the
   * boundary a strict parent refuses.
   */
  lemma InclusiveAtStrictBoundWidens(v: int)
    ensures !Tightens(Cmp(Lt, [46], v), Cmp(Le, [46], v))
    ensures SatisfiesPolicy([Cmp(Le, [46], v)], VNum(v)) && !SatisfiesPolicy([Cmp(Lt, [46], v)], VNum(v))
  {
    assert Cmp(Lt, [46], v) in [Cmp(Lt, [46], v)];
  }
}
