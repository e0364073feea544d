/**
 * Delegated agent tokens (src/adapters/oauth-agent.ts): minting, attenuation, and the mapping to
 * JWT claims with the nested actor object of section 4.1 of RFC 8693.
 */
module OAuthAgent {
  import opened Basics
  import opened Canonical

  const MAX_DELEGATION_DEPTH := 10

  datatype Token = Token(sub: Text, act: seq<Text>, scope: seq<Text>, aud: Text, cnf: Text, exp: int, iat: int)

  predicate NonEmpties(ts: seq<Text>) { forall t :: t in ts ==> t != [] }

  predicate TokenShape(t: Token) {
    && t.sub != [] && 1 <= |t.act| <= MAX_DELEGATION_DEPTH && NonEmpties(t.act)
    && t.scope != [] && NonEmpties(t.scope) && t.aud != [] && t.cnf != [] && t.iat >= 0
  }

  // ---------------------------------------------------------------- minting and delegating

  datatype Root = Root(sub: Text, actor: Text, scope: seq<Text>, aud: Text, senderCnf: Text, ttlSec: real, nowSec: int)

  /** None is a throw. */
  function MintRoot(p: Root): Option<Token> {
    var exp := p.nowSec + p.ttlSec.Floor;
    if p.nowSec < 0 || p.ttlSec <= 0.0 || p.sub == [] || p.actor == [] || !NonEmpties(p.scope) || p.scope == []
      || p.aud == [] || p.senderCnf == [] || exp <= p.nowSec
    then None
    else Some(Token(p.sub, [p.actor], p.scope, p.aud, p.senderCnf, exp, p.nowSec))
  }

  datatype Delegation = Delegation(
    actor: Text, scope: seq<Text>, aud: Option<Text>, ttlSec: real, senderCnf: Text, nowSec: int)

  function Min(a: int, b: int): int { if a <= b then a else b }

  function Delegate(parent: Token, d: Delegation): Option<Token> {
    var exp := Min(parent.exp, d.nowSec + d.ttlSec.Floor);
    if !TokenShape(parent) || d.nowSec < 0 || d.ttlSec <= 0.0 || d.actor == [] || d.senderCnf == []
      || !NonEmpties(d.scope) || d.scope == []
      || parent.exp <= d.nowSec
      || |parent.act| + 1 > MAX_DELEGATION_DEPTH
      || d.actor in parent.act
      || (exists s :: s in d.scope && s !in parent.scope)
      || OrElse(d.aud, parent.aud) != parent.aud
      || exp <= d.nowSec
    then None
    else Some(Token(parent.sub, parent.act + [d.actor], d.scope, parent.aud, d.senderCnf, exp, d.nowSec))
  }

  /** The token after a line of delegations from a minted root; None once a step throws. */
  function Derive(root: Root, ds: seq<Delegation>): Option<Token> {
    if ds == [] then MintRoot(root)
    else
      var parent := Derive(root, ButLast(ds));
      if parent.None? then None else Delegate(parent.value, Last(ds))
  }

  /** `child` is no stronger than `ancestor`. */
  predicate Attenuates(ancestor: Token, child: Token) {
    && child.sub == ancestor.sub && child.aud == ancestor.aud
    && (forall s :: s in child.scope ==> s in ancestor.scope)
    && child.exp <= ancestor.exp
    && ancestor.act <= child.act
  }

  predicate WellMade(t: Token) { TokenShape(t) && Distinct(t.act) && t.exp > t.iat }

  lemma DelegateAttenuates(parent: Token, d: Delegation)
    requires WellMade(parent) && Delegate(parent, d).Some?
    ensures Attenuates(parent, Delegate(parent, d).value) && WellMade(Delegate(parent, d).value)
  {
    var act := parent.act + [d.actor];
    forall i, j | 0 <= i < j < |act| ensures act[i] != act[j] {
      if j == |parent.act| { assert act[i] in parent.act; }
    }
  }

  lemma {:induction false} DerivedIsWellMade(root: Root, ds: seq<Delegation>)
    requires Derive(root, ds).Some?
    ensures WellMade(Derive(root, ds).value)
    ensures |Derive(root, ds).value.act| == |ds| + 1
    decreases |ds|
  {
    if ds == [] {
    } else {
      DerivedIsWellMade(root, ButLast(ds));
      DelegateAttenuates(Derive(root, ButLast(ds)).value, Last(ds));
    }
  }

  /** Against every ancestor, not only the parent: same subject and audience, less scope and time. */
  lemma {:induction false} DerivedAttenuates(root: Root, ds: seq<Delegation>, n: nat)
    requires n <= |ds| && Derive(root, ds).Some?
    ensures Derive(root, ds[..n]).Some? && Attenuates(Derive(root, ds[..n]).value, Derive(root, ds).value)
    ensures WellMade(Derive(root, ds).value) && |ds| < MAX_DELEGATION_DEPTH
    decreases |ds|
  {
    DerivedIsWellMade(root, ds);
    if n == |ds| {
      assert ds[..n] == ds;
    } else {
      DerivedAttenuates(root, ButLast(ds), n);
      assert ButLast(ds)[..n] == ds[..n];
      DerivedIsWellMade(root, ButLast(ds));
      DelegateAttenuates(Derive(root, ButLast(ds)).value, Last(ds));
    }
  }

  // ---------------------------------------------------------------- claims

  const SUB := Lit("sub")
  const ACT := Lit("act")
  const SCOPE := Lit("scope")
  const AUD := Lit("aud")
  const CNF := Lit("cnf")
  const JKT := Lit("jkt")
  const EXP := Lit("exp")
  const IAT := Lit("iat")

  /** Claim names differ. */
  lemma ClaimsDiffer()
    ensures SUB != ACT && SUB != SCOPE && SUB != AUD && SUB != CNF && SUB != EXP && SUB != IAT
    ensures ACT != SCOPE && ACT != AUD && ACT != CNF && ACT != EXP && ACT != IAT
    ensures SCOPE != AUD && SCOPE != CNF && SCOPE != EXP && SCOPE != IAT
    ensures AUD != CNF && AUD != EXP && AUD != IAT
    ensures CNF != EXP && CNF != IAT
    ensures EXP != IAT
  {
    assert |SUB| == 3 == |ACT| == |AUD| == |CNF| == |EXP| == |IAT| && |SCOPE| == 5;
    assert SUB[0] == 115 && ACT[0] == 97 && AUD[0] == 97 && CNF[0] == 99 && EXP[0] == 101 && IAT[0] == 105;
    assert ACT[1] == 99 && AUD[1] == 117;
  }

  const SPACE: CodeUnit := 32

  function JoinSpaces(parts: seq<Text>): Text {
    if parts == [] then []
    else if |parts| == 1 then parts[0]
    else parts[0] + [SPACE] + JoinSpaces(parts[1..])
  }

  /** The nested actor object: the outermost `sub` is the current actor. */
  function Nest(act: seq<Text>): Val
    requires act != []
    decreases |act|
  {
    if |act| == 1 then VObj(map[SUB := VStr(act[0])])
    else VObj(map[SUB := VStr(Last(act)), ACT := Nest(ButLast(act))])
  }

  function ClaimsOf(t: Token): Val
    requires t.act != []
  {
    VObj(map[SUB := VStr(t.sub), ACT := Nest(t.act), SCOPE := VStr(JoinSpaces(t.scope)), AUD := VStr(t.aud),
             CNF := VObj(map[JKT := VStr(t.cnf)]), EXP := VNum(t.exp), IAT := VNum(t.iat)])
  }

  /** None is a throw: the descriptor is malformed. */
  method ToJwtClaims(t: Token) returns (claims: Option<Val>)
    ensures claims == if TokenShape(t) then Some(ClaimsOf(t)) else None
  {
    if !TokenShape(t) { return None; }
    var nested: Option<Val> := None;
    for i := 0 to |t.act|
      invariant i == 0 ==> nested.None?
      invariant i > 0 ==> nested == Some(Nest(t.act[..i]))
    {
      assert ButLast(t.act[..i + 1]) == t.act[..i] && Last(t.act[..i + 1]) == t.act[i];
      var level := map[SUB := VStr(t.act[i])];
      nested := Some(VObj(if nested.None? then level else level[ACT := nested.value]));
    }
    assert t.act[..|t.act|] == t.act;
    return Some(VObj(map[SUB := VStr(t.sub), ACT := nested.value, SCOPE := VStr(JoinSpaces(t.scope)), AUD := VStr(t.aud),
                         CNF := VObj(map[JKT := VStr(t.cnf)]), EXP := VNum(t.exp), IAT := VNum(t.iat)]));
  }

  // ---------------------------------------------------------------- reading claims back

  predicate HasText(v: Val, k: Text) { v.VObj? && k in v.fields && v.fields[k].VStr? && v.fields[k].text != [] }

  /** The subjects along the nesting, root first; None when a level is malformed. */
  function Subjects(node: Val): Option<seq<Text>>
    decreases node
  {
    if !HasText(node, SUB) then None
    else if ACT !in node.fields then Some([node.fields[SUB].text])
    else
      var inner := Subjects(node.fields[ACT]);
      if inner.None? then None else Some(inner.value + [node.fields[SUB].text])
  }

  /** The actor chain of a nested object: well-formed levels, no repeats, bounded depth. */
  function Chain(node: Val): Option<seq<Text>> {
    var s := Subjects(node);
    if s.Some? && Distinct(s.value) && |s.value| <= MAX_DELEGATION_DEPTH then s else None
  }

  /** What remains of the chain once `outer` has been collected from the outside in. */
  function Joined(inner: Option<seq<Text>>, outer: seq<Text>): Option<seq<Text>> {
    if inner.None? then None else Some(inner.value + outer)
  }

  function Inner(node: Val): Option<seq<Text>>
    requires node.VObj?
  {
    if ACT in node.fields then Subjects(node.fields[ACT]) else Some([])
  }

  /** Moving one level inwards. */
  lemma Peel(node: Val, outer: seq<Text>)
    requires HasText(node, SUB)
    ensures Joined(Subjects(node), outer) == Joined(Inner(node), [node.fields[SUB].text] + outer)
  {
    var sub := node.fields[SUB].text;
    assert [] + [sub] == [sub];
    if Inner(node).Some? { assert (Inner(node).value + [sub]) + outer == Inner(node).value + ([sub] + outer); }
  }

  lemma RepeatBreaksChain(inner: seq<Text>, sub: Text, outer: seq<Text>)
    requires sub in outer
    ensures !Distinct(inner + ([sub] + outer))
  {
    var j :| 0 <= j < |outer| && outer[j] == sub;
    var all := inner + ([sub] + outer);
    assert all[|inner|] == sub && all[|inner| + 1 + j] == sub;
  }

  method ParseNestedAct(value: Val) returns (chain: Option<seq<Text>>)
    ensures chain == Chain(value)
  {
    var collected: seq<Text> := [];
    var seen: set<Text> := {};
    var node := value;
    assert Subjects(value).Some? ==> Subjects(value).value + [] == Subjects(value).value;
    while true
      invariant Subjects(value) == Joined(Subjects(node), collected)
      invariant Distinct(collected) && |collected| <= MAX_DELEGATION_DEPTH
      invariant forall s :: s in seen <==> s in collected
      decreases node
    {
      if !HasText(node, SUB) { return None; }
      var sub := node.fields[SUB].text;
      Peel(node, collected);
      if sub in seen {
        if Inner(node).Some? { RepeatBreaksChain(Inner(node).value, sub, collected); }
        return None;
      }
      seen := seen + {sub};
      collected := [sub] + collected;
      if |collected| > MAX_DELEGATION_DEPTH { return None; }
      if ACT !in node.fields {
        assert [] + collected == collected;
        return Some(collected);
      }
      node := node.fields[ACT];
    }
  }

  /** White space in the sense of JavaScript's `trim` and `\s`. */
  predicate White(c: CodeUnit) {
    || 9 <= c <= 13 || c == 32 || c == 0xA0 || c == 0x1680 || 0x2000 <= c <= 0x200A
    || c == 0x2028 || c == 0x2029 || c == 0x202F || c == 0x205F || c == 0x3000 || c == 0xFEFF
  }

  predicate Unspaced(t: Text) { forall c :: c in t ==> !White(c) }

  function FirstSpace(t: Text): (n: nat)
    ensures n <= |t| && (n < |t| ==> t[n] == SPACE) && SPACE !in t[..n]
  {
    if t == [] || t[0] == SPACE then 0
    else
      assert forall n: nat :: n <= |t[1..]| ==> t[..n + 1] == [t[0]] + t[1..][..n];
      1 + FirstSpace(t[1..])
  }

  function SplitSpaces(t: Text): seq<Text>
    decreases |t|
  {
    var n := FirstSpace(t);
    if n == |t| then [t] else [t[..n]] + SplitSpaces(t[n + 1..])
  }

  predicate DoubleSpace(t: Text) { exists i :: 0 <= i < |t| - 1 && t[i] == SPACE && t[i + 1] == SPACE }

  /** None is a throw: not a single-space separated list of non-empty scopes. */
  function ScopesOf(raw: Text): Option<seq<Text>> {
    if raw == [] || White(raw[0]) || White(raw[|raw| - 1]) || DoubleSpace(raw) then None
    else
      var parts := SplitSpaces(raw);
      if forall s :: s in parts ==> s != [] && Unspaced(s) then Some(parts) else None
  }

  /** None is a throw. Claims that are not listed are ignored. */
  function FromJwtClaims(claims: Val): Option<Token> {
    if !HasText(claims, SUB) || ACT !in claims.fields then None
    else
      var act := Chain(claims.fields[ACT]);
      if act.None? || !HasText(claims, SCOPE) then None
      else
        var scope := ScopesOf(claims.fields[SCOPE].text);
        if scope.None? || !HasText(claims, AUD) then None
        else if CNF !in claims.fields || !HasText(claims.fields[CNF], JKT) then None
        else if EXP !in claims.fields || !claims.fields[EXP].VNum? then None
        else if IAT !in claims.fields || !claims.fields[IAT].VNum? || claims.fields[IAT].num < 0 then None
        else if claims.fields[EXP].num <= claims.fields[IAT].num then None
        else
          Some(Token(claims.fields[SUB].text, act.value, scope.value, claims.fields[AUD].text,
                     claims.fields[CNF].fields[JKT].text, claims.fields[EXP].num, claims.fields[IAT].num))
  }

  // ---------------------------------------------------------------- round trips

  lemma {:induction false} NestSubjects(act: seq<Text>)
    requires act != [] && NonEmpties(act)
    ensures Subjects(Nest(act)) == Some(act)
    decreases |act|
  {
    ClaimsDiffer();
    assert act == ButLast(act) + [Last(act)] && Last(act) in act;
    if |act| > 1 {
      assert forall t :: t in ButLast(act) ==> t in act;
      NestSubjects(ButLast(act));
    } else {
      assert act == [act[0]];
    }
  }

  predicate SpaceFree(parts: seq<Text>) { forall p :: p in parts ==> SPACE !in p }

  lemma NoSpace(p: Text)
    requires SPACE !in p
    ensures FirstSpace(p) == |p|
  {
    assert forall i :: 0 <= i < |p| ==> p[i] in p;
  }

  lemma FirstSpaceAt(p: Text, rest: Text)
    requires SPACE !in p
    ensures FirstSpace(p + [SPACE] + rest) == |p|
  {
    var t := p + [SPACE] + rest;
    assert forall i :: 0 <= i < |p| ==> t[i] == p[i] && p[i] in p;
    forall k: nat | |p| < k <= |t| ensures SPACE in t[..k] { assert t[..k][|p|] == SPACE; }
  }

  lemma {:induction false} SplitJoin(parts: seq<Text>)
    requires parts != [] && SpaceFree(parts)
    ensures SplitSpaces(JoinSpaces(parts)) == parts
  {
    if |parts| == 1 {
      NoSpace(parts[0]);
    } else {
      var p, rest := parts[0], JoinSpaces(parts[1..]);
      FirstSpaceAt(p, rest);
      var t := p + [SPACE] + rest;
      assert t[..|p|] == p && t[|p| + 1..] == rest;
      SplitJoin(parts[1..]);
    }
  }

  lemma JoinCons(p: Text, parts: seq<Text>)
    requires parts != []
    ensures JoinSpaces([p] + parts) == p + [SPACE] + JoinSpaces(parts)
  {
    assert ([p] + parts)[1..] == parts;
  }

  lemma CutAt(t: Text, n: nat)
    requires n < |t| && t[n] == SPACE
    ensures t == t[..n] + [SPACE] + t[n + 1..]
  {}

  lemma {:induction false} JoinSplit(t: Text)
    ensures SplitSpaces(t) != [] && JoinSpaces(SplitSpaces(t)) == t
    decreases |t|
  {
    var n := FirstSpace(t);
    if n < |t| {
      JoinSplit(t[n + 1..]);
      JoinCons(t[..n], SplitSpaces(t[n + 1..]));
      CutAt(t, n);
    }
  }

  predicate Scopes(parts: seq<Text>) { parts != [] && NonEmpties(parts) && forall p :: p in parts ==> Unspaced(p) }

  /** Joined scopes have no space at either end and never two in a row. */
  lemma {:induction false} JoinIsTight(parts: seq<Text>)
    requires Scopes(parts)
    ensures var t := JoinSpaces(parts); t != [] && !White(t[0]) && !White(t[|t| - 1]) && !DoubleSpace(t)
  {
    var t, p := JoinSpaces(parts), parts[0];
    assert p in parts && p[0] in p && p[|p| - 1] in p;
    if |parts| > 1 {
      var rest := JoinSpaces(parts[1..]);
      assert forall q :: q in parts[1..] ==> q in parts;
      JoinIsTight(parts[1..]);
      assert t == p + [SPACE] + rest;
      forall i | 0 <= i < |t| - 1 ensures !(t[i] == SPACE && t[i + 1] == SPACE) { TightAt(p, rest, i); }
    } else {
      forall i | 0 <= i < |t| - 1 ensures t[i] != SPACE { assert t[i] in p; }
    }
  }

  lemma TightAt(p: Text, rest: Text, i: nat)
    requires Unspaced(p) && rest != [] && !White(rest[0]) && !DoubleSpace(rest) && i < |p| + |rest|
    ensures var t := p + [SPACE] + rest; !(t[i] == SPACE && t[i + 1] == SPACE)
  {
    var t := p + [SPACE] + rest;
    if i < |p| { assert t[i] in p; }
    else if i == |p| { assert t[i + 1] == rest[0]; }
    else { assert t[i] == rest[i - |p| - 1] && t[i + 1] == rest[i - |p|]; }
  }

  lemma ScopesRoundTrip(parts: seq<Text>)
    requires Scopes(parts)
    ensures ScopesOf(JoinSpaces(parts)) == Some(parts)
  {
    JoinIsTight(parts);
    SplitJoin(parts);
  }

  lemma ReadScopes(raw: Text)
    requires ScopesOf(raw).Some?
    ensures Scopes(ScopesOf(raw).value) && JoinSpaces(ScopesOf(raw).value) == raw
  {
    JoinSplit(raw);
  }

  /** Whatever is read from claims is a well-made token with whitespace-free scopes. */
  lemma ReadTokenIsWellMade(claims: Val)
    requires FromJwtClaims(claims).Some?
    ensures WellMade(FromJwtClaims(claims).value) && Scopes(FromJwtClaims(claims).value.scope)
  {
    ReadScopes(claims.fields[SCOPE].text);
    SubjectsNonEmpty(claims.fields[ACT]);
  }

  lemma {:induction false} SubjectsNonEmpty(node: Val)
    requires Subjects(node).Some?
    ensures Subjects(node).value != [] && NonEmpties(Subjects(node).value)
    decreases node
  {
    if ACT in node.fields { SubjectsNonEmpty(node.fields[ACT]); }
  }

  lemma WrittenClaims(t: Token)
    requires t.act != []
    ensures var f := ClaimsOf(t).fields;
      && SUB in f && f[SUB] == VStr(t.sub) && ACT in f && f[ACT] == Nest(t.act)
      && SCOPE in f && f[SCOPE] == VStr(JoinSpaces(t.scope)) && AUD in f && f[AUD] == VStr(t.aud)
      && CNF in f && f[CNF] == VObj(map[JKT := VStr(t.cnf)])
      && EXP in f && f[EXP] == VNum(t.exp) && IAT in f && f[IAT] == VNum(t.iat)
  {
    ClaimsDiffer();
  }

  /** The exact round trip: a well-shaped token comes back as itself if and only if nothing in it is lossy. */
  lemma RoundTripExactly(t: Token)
    requires TokenShape(t)
    ensures FromJwtClaims(ClaimsOf(t)) == Some(t) <==> Distinct(t.act) && t.exp > t.iat && Scopes(t.scope)
  {
    WrittenClaims(t);
    NestSubjects(t.act);
    if FromJwtClaims(ClaimsOf(t)) == Some(t) {
      ReadTokenIsWellMade(ClaimsOf(t));
    }
    if Scopes(t.scope) {
      ScopesRoundTrip(t.scope);
      JoinIsTight(t.scope);
    }
  }

  /** Reading is inverse to writing in the other direction too, for every listed claim. */
  lemma ReadThenWrite(claims: Val)
    requires FromJwtClaims(claims).Some?
    ensures var t := FromJwtClaims(claims).value;
      TokenShape(t) && FromJwtClaims(ClaimsOf(t)) == Some(t) && JoinSpaces(t.scope) == claims.fields[SCOPE].text
  {
    ReadTokenIsWellMade(claims);
    ReadScopes(claims.fields[SCOPE].text);
    RoundTripExactly(FromJwtClaims(claims).value);
  }

  /** Every token that delegation can produce survives the trip, once the root's scopes are whitespace-free. */
  lemma DerivedRoundTrips(root: Root, ds: seq<Delegation>)
    requires Derive(root, ds).Some? && forall s :: s in root.scope ==> Unspaced(s)
    ensures FromJwtClaims(ClaimsOf(Derive(root, ds).value)) == Some(Derive(root, ds).value)
  {
    DerivedAttenuates(root, ds, 0);
    assert ds[..0] == [];
    RoundTripExactly(Derive(root, ds).value);
  }

  // ---------------------------------------------------------------- the conditions and the claims, written out

  /** The whole second at which this many seconds have passed, or the last one before. */
  predicate WholeSecond(exp: int, now: int, ttl: real) { exp as real <= now as real + ttl < exp as real + 1.0 }

  /** A root is minted exactly for filled-in parameters and at least one second of life. */
  lemma MintMeans(p: Root)
    ensures MintRoot(p).Some? <==>
      && p.nowSec >= 0 && p.ttlSec >= 1.0 && p.sub != [] && p.actor != [] && p.aud != [] && p.senderCnf != []
      && p.scope != [] && [] !in p.scope
    ensures MintRoot(p).Some? ==>
      var t := MintRoot(p).value;
      && t.sub == p.sub && t.act == [p.actor] && t.scope == p.scope && t.aud == p.aud && t.cnf == p.senderCnf
      && t.iat == p.nowSec && WholeSecond(t.exp, p.nowSec, p.ttlSec)
  {}

  predicate Filled(t: Token) {
    && t.sub != [] && t.aud != [] && t.cnf != [] && t.iat >= 0
    && t.act != [] && |t.act| <= 10 && [] !in t.act && t.scope != [] && [] !in t.scope
  }

  /** A child is made exactly from a live parent with room below it, for a new actor and scopes it has. */
  lemma DelegateMeans(parent: Token, d: Delegation)
    ensures Delegate(parent, d).Some? <==>
      && Filled(parent) && d.nowSec >= 0 && d.nowSec < parent.exp && d.ttlSec >= 1.0
      && d.actor != [] && d.actor !in parent.act && |parent.act| < 10
      && d.senderCnf != [] && (d.aud.None? || d.aud.value == parent.aud)
      && d.scope != [] && [] !in d.scope && (forall s :: s in d.scope ==> s in parent.scope)
    ensures Delegate(parent, d).Some? ==>
      var t := Delegate(parent, d).value;
      && t.sub == parent.sub && t.aud == parent.aud && t.act == parent.act + [d.actor]
      && t.scope == d.scope && t.cnf == d.senderCnf && t.iat == d.nowSec
      && t.exp <= parent.exp && (t.exp == parent.exp || WholeSecond(t.exp, d.nowSec, d.ttlSec))
      && t.exp as real <= d.nowSec as real + d.ttlSec
  {}

  /** `text` is these scopes with one space between neighbours. */
  ghost predicate Spaced(text: Text, parts: seq<Text>)
    decreases |parts|
  {
    if parts == [] then text == []
    else if |parts| == 1 then text == parts[0]
    else exists rest :: text == parts[0] + [32] + rest && Spaced(rest, parts[1..])
  }

  lemma {:induction false} SpacedMeans(text: Text, parts: seq<Text>)
    ensures Spaced(text, parts) <==> text == JoinSpaces(parts)
    decreases |parts|
  {
    if |parts| <= 1 {
    } else {
      SpacedMeans(JoinSpaces(parts[1..]), parts[1..]);
      forall rest ensures Spaced(rest, parts[1..]) <==> rest == JoinSpaces(parts[1..]) { SpacedMeans(rest, parts[1..]); }
      if text == JoinSpaces(parts) { assert text == parts[0] + [32] + JoinSpaces(parts[1..]); }
    }
  }

  /** The actor object of section 4.1 of RFC 8693: the current actor outside, who it acts for inside. */
  predicate ActsFor(v: Val, act: seq<Text>)
    requires act != []
    decreases |act|
  {
    && v.VObj? && Lit("sub") in v.fields && v.fields[Lit("sub")] == VStr(Last(act))
    && (if |act| == 1 then v.fields.Keys == {Lit("sub")}
        else v.fields.Keys == {Lit("sub"), Lit("act")} && ActsFor(v.fields[Lit("act")], ButLast(act)))
  }

  lemma {:induction false} NestMeans(act: seq<Text>)
    requires act != []
    ensures ActsFor(Nest(act), act)
    decreases |act|
  {
    ClaimsDiffer();
    if |act| > 1 { NestMeans(ButLast(act)); }
  }

  /** The claims of a token, by their registered names. */
  lemma ClaimsMean(t: Token)
    requires TokenShape(t)
    ensures ClaimsOf(t).VObj?
    ensures var f := ClaimsOf(t).fields;
      && f.Keys == {Lit("sub"), Lit("act"), Lit("scope"), Lit("aud"), Lit("cnf"), Lit("exp"), Lit("iat")}
      && f[Lit("sub")] == VStr(t.sub) && f[Lit("aud")] == VStr(t.aud)
      && f[Lit("exp")] == VNum(t.exp) && f[Lit("iat")] == VNum(t.iat)
      && f[Lit("cnf")] == VObj(map[Lit("jkt") := VStr(t.cnf)])
      && ActsFor(f[Lit("act")], t.act)
      && f[Lit("scope")].VStr? && Spaced(f[Lit("scope")].text, t.scope)
  {
    WrittenClaims(t);
    NestMeans(t.act);
    SpacedMeans(JoinSpaces(t.scope), t.scope);
  }

  /** The white space and line terminators of sections 12.2 and 12.3 of ECMA-262. */
  const BLANKS: set<CodeUnit> :=
    {9, 10, 11, 12, 13, 32, 0xA0, 0x1680, 0x2000, 0x2001, 0x2002, 0x2003, 0x2004, 0x2005, 0x2006, 0x2007, 0x2008,
     0x2009, 0x200A, 0x2028, 0x2029, 0x202F, 0x205F, 0x3000, 0xFEFF}

  ghost predicate ScopeList(parts: seq<Text>) {
    parts != [] && forall p :: p in parts ==> p != [] && forall c :: c in BLANKS ==> c !in p
  }

  lemma ScopeListMeans(parts: seq<Text>)
    ensures Scopes(parts) <==> ScopeList(parts)
  {
    forall p | p in parts ensures Unspaced(p) <==> forall c :: c in BLANKS ==> c !in p {
      assert forall c: CodeUnit :: White(c) <==> c in BLANKS;
    }
  }

  /** A scope string is read exactly when it spells scopes without blanks, and then as these. */
  lemma ScopesMean(raw: Text, parts: seq<Text>)
    ensures ScopesOf(raw) == Some(parts) <==> ScopeList(parts) && Spaced(raw, parts)
  {
    ScopeListMeans(parts);
    SpacedMeans(raw, parts);
    if Scopes(parts) { ScopesRoundTrip(parts); }
    if ScopesOf(raw).Some? { ReadScopes(raw); }
  }
}
