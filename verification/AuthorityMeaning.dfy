/**
 * What an authority decision means in the words of the request itself (src/core/authority.ts): the
 * principal, actor, command, resource, purpose, amounts, windows and uses that a cited grant, a cited
 * approval and every policy in the way stand for.
 */
module AuthorityMeaning {
  import opened Basics
  import opened Canonical
  import opened CanonicalLaws
  import opened Policy
  import opened Coverage
  import opened OrderedMap
  import opened AuthorityTerms
  import opened AuthorityState
  import M = PolicyMeaning
  import L = AuthorityLaws

  // ---------------------------------------------------------------- the demand's own fields

  lemma {:induction false} OneName(d: Demand, name: string, w: Val)
    requires M.PlainName(Lit(name))
    ensures Resolve(DemandVal(d), [46] + Lit(name)) == Found(w) <==>
      Lit(name) in DemandVal(d).fields && DemandVal(d).fields[Lit(name)] == w
  {
    var names := [Lit(name)];
    M.NamesResolve(DemandVal(d), names, w);
    assert names[1..] == [] && M.Dotted(names) == [46] + (Lit(name) + []) && Lit(name) + [] == Lit(name);
    assert M.FieldPath(w, [], w);
  }

  /** The keys of a demand are different names. */
  lemma KeysDiffer()
    ensures |Lit("principal")| == 9 && |Lit("actor")| == 5 && |Lit("action")| == 6 && |Lit("resource")| == 8
    ensures |Lit("termsDigest")| == 11 && |Lit("actorChain")| == 10 && |Lit("context")| == 7 && |Lit("purpose")| == 7
    ensures Lit("context")[0] != Lit("purpose")[0]
  {}

  /** Where the fields of a demand stand. */
  lemma DemandFields(d: Demand)
    ensures var m := DemandVal(d).fields;
      && Lit("principal") in m && m[Lit("principal")] == VStr(d.op.principal)
      && Lit("actor") in m && m[Lit("actor")] == VStr(d.op.actor)
      && Lit("termsDigest") in m && m[Lit("termsDigest")] == VStr(d.termsDigest)
  {
    KeysDiffer();
  }

  lemma OptionalFields(d: Demand)
    ensures var m := DemandVal(d).fields;
      && (Lit("purpose") in m <==> d.op.purpose.Some?)
      && (d.op.purpose.Some? ==> m[Lit("purpose")] == VStr(d.op.purpose.value))
      && (Lit("context") in m <==> d.op.context.Some?)
      && (d.op.context.Some? ==> m[Lit("context")] == VObj(d.op.context.value))
  {
    KeysDiffer();
  }

  /** The nested fields: action, resource and the actor chain. */
  lemma NestedFields(d: Demand)
    ensures var m := DemandVal(d).fields;
      && Lit("action") in m
      && m[Lit("action")] == VObj(map[Lit("name") := VStr(d.op.action.name)] + Optional("properties", BagVal(d.op.action.properties)))
      && Lit("resource") in m
      && m[Lit("resource")] == VObj(map[Lit("type") := VStr(d.op.resource.kind), Lit("id") := VStr(d.op.resource.id)]
                                    + Optional("properties", BagVal(d.op.resource.properties)))
      && (Lit("actorChain") in m <==> d.op.actorChain.Some?)
      && (d.op.actorChain.Some? ==> m[Lit("actorChain")] == VArr(Texts(d.op.actorChain.value)))
  {
    KeysDiffer();
  }

  lemma ActionFields(d: Demand)
    ensures var m := DemandVal(d).fields; Lit("action") in m && m[Lit("action")].VObj?
    ensures var a := DemandVal(d).fields[Lit("action")].fields;
      && Lit("name") in a && a[Lit("name")] == VStr(d.op.action.name)
      && (Lit("properties") in a <==> d.op.action.properties.Some?)
      && (d.op.action.properties.Some? ==> a[Lit("properties")] == VObj(d.op.action.properties.value))
  {
    NestedFields(d);
    PartKeysDiffer();
  }

  lemma ResourceFields(d: Demand)
    ensures var m := DemandVal(d).fields; Lit("resource") in m && m[Lit("resource")].VObj?
    ensures var r := DemandVal(d).fields[Lit("resource")].fields;
      && Lit("type") in r && r[Lit("type")] == VStr(d.op.resource.kind)
      && Lit("id") in r && r[Lit("id")] == VStr(d.op.resource.id)
      && (Lit("properties") in r <==> d.op.resource.properties.Some?)
      && (d.op.resource.properties.Some? ==> r[Lit("properties")] == VObj(d.op.resource.properties.value))
  {
    NestedFields(d);
    PartKeysDiffer();
  }

  lemma ChainField(d: Demand)
    ensures Lit("actorChain") in DemandVal(d).fields <==> d.op.actorChain.Some?
    ensures d.op.actorChain.Some? ==>
      exists vs :: DemandVal(d).fields[Lit("actorChain")] == VArr(vs) && |vs| == |d.op.actorChain.value| &&
        (forall i :: 0 <= i < |vs| ==> vs[i] == VStr(d.op.actorChain.value[i]))
  {
    NestedFields(d);
  }

  lemma PartKeysDiffer()
    ensures |Lit("name")| == 4 && |Lit("type")| == 4 && |Lit("id")| == 2 && |Lit("properties")| == 10
    ensures Lit("name")[0] != Lit("type")[0]
  {}

  /** A path below `.context` is a path in the context. */
  lemma ContextPath(d: Demand, names: seq<Text>, w: Val)
    requires forall n :: n in names ==> M.PlainName(n)
    ensures Resolve(DemandVal(d), M.Dotted([Lit("context")] + names)) == Found(w) <==>
      d.op.context.Some? && M.FieldPath(VObj(d.op.context.value), names, w)
  {
    var all := [Lit("context")] + names;
    PlainContext();
    M.NamesResolve(DemandVal(d), all, w);
    OptionalFields(d);
    assert all[1..] == names;
  }

  lemma PlainContext()
    ensures M.PlainName(Lit("context"))
  {
    assert |Lit("context")| == 7 && |Lit("__proto__")| == 9 && |Lit("constructor")| == 11 && |Lit("prototype")| == 9;
    assert Lit("context") == [99, 111, 110, 116, 101, 120, 116];
  }

  /** The path of one context field, such as `.context.amount`. */
  function FieldOfContext(name: Text): Text { M.Dotted([Lit("context"), name]) }

  lemma ContextField(d: Demand, name: Text, w: Val)
    requires M.PlainName(name)
    ensures Resolve(DemandVal(d), FieldOfContext(name)) == Found(w) <==>
      d.op.context.Some? && name in d.op.context.value && d.op.context.value[name] == w
  {
    ContextPath(d, [name], w);
    assert [Lit("context")] + [name] == [Lit("context"), name] && [name][1..] == [];
  }

  lemma AmountPath()
    ensures FieldOfContext(Lit("amount")) == Lit(".context.amount") && M.PlainName(Lit("amount"))
  {
    assert |Lit("amount")| == 6 && |Lit("__proto__")| == 9 && |Lit("constructor")| == 11 && |Lit("prototype")| == 9;
    assert Lit("amount") == [97, 109, 111, 117, 110, 116];
    assert [Lit("context"), Lit("amount")][1..] == [Lit("amount")] && [Lit("amount")][1..] == [];
    assert Lit(".context.amount") == [46] + (Lit("context") + ([46] + (Lit("amount") + [])));
  }

  // ---------------------------------------------------------------- bounds

  /** What a bound demands of the value its path leads to. */
  ghost predicate BoundMet(b: Bound, d: Demand) {
    exists v :: Resolve(DemandVal(d), b.path) == Found(v) && ValueMeets(b, v)
  }

  ghost predicate ValueMeets(b: Bound, v: Val) {
    match b.op
    case BEq => v == b.value
    case BLe => exists n, ceiling :: v == VNum(n) && b.value == VNum(ceiling) && n <= ceiling
    case BGe => exists n, floor :: v == VNum(n) && b.value == VNum(floor) && n >= floor
    case BIn => (v.VStr? || v.VNum? || v.VBool?) && exists allowed :: b.value == VArr(allowed) && v in allowed
    case BSubset =>
      exists asked: seq<Val>, allowed: seq<Val> ::
        v == VArr(asked) && b.value == VArr(allowed) && forall x :: x in asked ==> x.VStr? && x in allowed
  }

  lemma SameText(a: Val, b: Val)
    ensures CanonicalEqual(a, b) <==> a == b
  {
    if CanonicalEqual(a, b) { PrintInjective(a, b); }
  }

  lemma BoundMeans(b: Bound, d: Demand)
    ensures BoundHolds(b, d) <==> BoundMet(b, d)
  {
    var r := Resolve(DemandVal(d), b.path);
    if r.Found? {
      SameText(r.value, b.value);
      if b.op.BIn? && b.value.VArr? {
        forall x | x in b.value.items ensures CanonicalEqual(x, r.value) <==> x == r.value { SameText(x, r.value); }
      }
      if BoundHolds(b, d) { assert ValueMeets(b, r.value); }
    }
  }

  /** A bound on a context field, over that very field. */
  lemma ContextBound(b: Bound, d: Demand, name: Text)
    requires M.PlainName(name) && b.path == FieldOfContext(name)
    ensures BoundMet(b, d) <==>
      d.op.context.Some? && name in d.op.context.value && ValueMeets(b, d.op.context.value[name])
  {
    if d.op.context.Some? && name in d.op.context.value { ContextField(d, name, d.op.context.value[name]); }
    forall v ensures Resolve(DemandVal(d), b.path) == Found(v) ==>
      d.op.context.Some? && name in d.op.context.value && d.op.context.value[name] == v
    {
      ContextField(d, name, v);
    }
  }

  // ---------------------------------------------------------------- the conditions, written out

  predicate ActorIs(sel: Selector, id: Text) {
    match sel
    case Exact(one) => id == one
    case OneOf(many) => id in many
    case AnyActor => true
  }

  /** The command itself, or one under it as a folder. */
  ghost predicate CommandUnder(broad: Text, narrow: Text) {
    || narrow == broad
    || (exists rest :: narrow == broad + rest && broad != [] && broad[|broad| - 1] == 47)
    || (exists rest :: narrow == broad + [47] + rest && (broad == [] || broad[|broad| - 1] != 47))
  }

  lemma CommandMeans(broad: Text, narrow: Text)
    ensures IsCovered(broad, narrow) <==> CommandUnder(broad, narrow)
  {
    if StartsWith(narrow, Folder(broad)) {
      assert narrow == Folder(broad) + narrow[|Folder(broad)|..];
    }
  }

  function BagOf(b: Option<Bag>): Bag { if b.Some? then b.value else map[] }

  lemma SameBagMeans(a: Option<Bag>, b: Option<Bag>)
    ensures SameBag(a, b) <==> BagOf(a) == BagOf(b)
  {
    SameText(VObj(OrElse(a, map[])), VObj(OrElse(b, map[])));
  }

  /** The grant speaks of this request. */
  ghost predicate GrantSpeaks(g: Grant, q: Request) {
    && g.principal == q.ingress.principal
    && ActorIs(g.actor, q.ingress.id)
    && CommandUnder(g.action.name, q.operation.action.name)
    && (g.action.properties.Some? ==> BagOf(q.operation.action.properties) == g.action.properties.value)
    && (g.resource.Some? && g.resource.value.kind.Some? ==> q.operation.resource.kind == g.resource.value.kind.value)
    && (g.resource.Some? && g.resource.value.id.Some? ==> q.operation.resource.id == g.resource.value.id.value)
    && (g.purpose.Some? ==> q.operation.purpose == g.purpose)
    && (forall b :: b in g.bounds ==> BoundMet(b, DemandOf(q)))
  }

  /** The grant is neither revoked nor outside its window, and has a use left. */
  predicate GrantOpen(s: State, g: Grant, now: int) {
    && (forall e :: e in s.revoked ==> e.0 != g.id)
    && (g.exp.Some? ==> now <= g.exp.value + 60)
    && (g.nbf.Some? ==> now >= g.nbf.value - 60)
    && (g.maxUses.Some? ==> Uses(s, g.id) < g.maxUses.value)
  }

  /** The approval names this very request, up to absent optionals. */
  ghost predicate ApprovalSpeaks(a: Approval, q: Request) {
    && a.principal == q.ingress.principal && a.actor == q.ingress.id
    && a.action.name == q.operation.action.name
    && BagOf(a.action.properties) == BagOf(q.operation.action.properties)
    && a.resource.kind == q.operation.resource.kind && a.resource.id == q.operation.resource.id
    && BagOf(a.resource.properties) == BagOf(q.operation.resource.properties)
    && a.purpose == q.operation.purpose
    && q.operation.context == Some(BagOf(a.context))
    && OrElse(a.chain, []) == OrElse(q.ingress.chain, [])
    && a.termsDigest == Sha256(Print(Normalize(
         BoundOperation(q.ingress.principal, q.ingress.id, q.ingress.chain, q.operation.action, q.operation.resource,
                        q.operation.context, q.operation.purpose),
         q.binding)))
  }

  predicate ApprovalOpen(s: State, a: Approval, now: int) {
    (forall e :: e in s.revoked ==> e.0 != a.id) && now <= a.exp + 60 && Uses(s, a.id) < a.maxUses
  }

  /** The policy is about requests like this one. */
  ghost predicate PolicySpeaks(p: Constraint, q: Request) {
    && (p.actor.Some? ==> ActorIs(p.actor.value, q.ingress.id))
    && (p.actionName.Some? ==> CommandUnder(p.actionName.value, q.operation.action.name))
    && (p.purpose.Some? ==> q.operation.purpose == p.purpose)
  }

  ghost predicate PolicyMet(p: Constraint, q: Request) {
    && (p.nbf.Some? ==> q.now >= p.nbf.value - 60)
    && (p.exp.Some? ==> q.now <= p.exp.value + 60)
    && (forall b :: b in p.bounds ==> BoundMet(b, DemandOf(q)))
  }

  /** What evaluate demands of ingress and binding; anything else throws. */
  predicate WellAsked(q: Request) {
    && q.ingress.id != [] && q.ingress.principal != [] && q.ingress.proofRef != []
    && (q.ingress.chain.Some? ==> forall t :: t in q.ingress.chain.value ==> t != [])
    && (q.binding.Some? ==> q.binding.value.scheme == Lit("ap2") && q.binding.value.value != [] && q.binding.value.evidenceRef != [])
  }

  // ---------------------------------------------------------------- they are what the engine tests

  lemma EntryMeans(s: State, id: Text)
    ensures Has(s.revoked, id) <==> exists e :: e in s.revoked && e.0 == id
  {
    if i :| 0 <= i < |s.revoked| && s.revoked[i].0 == id { assert s.revoked[i] in s.revoked; }
  }

  lemma GrantMeans(s: State, g: Grant, q: Request)
    ensures GrantMatches(g, DemandOf(q), false) <==> GrantSpeaks(g, q)
    ensures GrantBlock(s, g, q.now).None? <==> GrantOpen(s, g, q.now)
  {
    CommandMeans(g.action.name, q.operation.action.name);
    if g.action.properties.Some? { SameBagMeans(g.action.properties, q.operation.action.properties); }
    forall b | b in g.bounds ensures BoundHolds(b, DemandOf(q)) <==> BoundMet(b, DemandOf(q)) { BoundMeans(b, DemandOf(q)); }
    EntryMeans(s, g.id);
  }

  lemma ApprovalMeans(s: State, a: Approval, q: Request)
    ensures ApprovalExact(a, DemandOf(q)) <==> ApprovalSpeaks(a, q)
    ensures ApprovalBlock(s, a, q.now).None? <==> ApprovalOpen(s, a, q.now)
  {
    SameBagMeans(a.action.properties, q.operation.action.properties);
    SameBagMeans(a.resource.properties, q.operation.resource.properties);
    SameBagMeans(a.context, q.operation.context);
    EntryMeans(s, a.id);
  }

  lemma PolicyMeans(p: Constraint, q: Request)
    ensures PolicyApplies(p, DemandOf(q)) <==> PolicySpeaks(p, q)
    ensures PolicyHolds(p, DemandOf(q), q.now) <==> PolicyMet(p, q)
  {
    if p.actionName.Some? { CommandMeans(p.actionName.value, q.operation.action.name); }
    forall b | b in p.bounds ensures BoundHolds(b, DemandOf(q)) <==> BoundMet(b, DemandOf(q)) { BoundMeans(b, DemandOf(q)); }
  }

  lemma AskedMeans(s: State, q: Request)
    ensures Evaluate(s, q).Some? <==> WellAsked(q)
  {}

  // ---------------------------------------------------------------- the decision

  ghost predicate UsableApproval(s: State, a: Approval, q: Request) {
    a in s.approvals && ApprovalSpeaks(a, q) && ApprovalOpen(s, a, q.now)
  }

  ghost predicate UsableGrant(s: State, g: Grant, q: Request) {
    g in s.grants && GrantSpeaks(g, q) && GrantOpen(s, g, q.now)
  }

  ghost predicate Allows(s: State, q: Request) { Evaluate(s, q).Some? && Evaluate(s, q).value.Allow? }

  lemma UsableAre(s: State, q: Request)
    ensures forall a :: UsableApproval(s, a, q) <==> L.UsableApproval(s, a, DemandOf(q), q.now)
    ensures forall g :: UsableGrant(s, g, q) <==> L.LiveGrant(s, g, DemandOf(q), q.now)
  {
    forall a ensures UsableApproval(s, a, q) <==> L.UsableApproval(s, a, DemandOf(q), q.now) { ApprovalMeans(s, a, q); }
    forall g ensures UsableGrant(s, g, q) <==> L.LiveGrant(s, g, DemandOf(q), q.now) { GrantMeans(s, g, q); }
  }

  lemma PoliciesAre(s: State, q: Request)
    ensures L.Unnarrowed(s, DemandOf(q), q.now) <==> forall p :: p in s.policies && PolicySpeaks(p, q) ==> PolicyMet(p, q)
  {
    forall p | p in s.policies
      ensures PolicyApplies(p, DemandOf(q)) <==> PolicySpeaks(p, q)
      ensures PolicyHolds(p, DemandOf(q), q.now) <==> PolicyMet(p, q)
    {
      PolicyMeans(p, q);
    }
  }

  /**
   * Exactly when a request is allowed: it is well asked, some registered approval names it or some
   * grant speaks of it and is open, and every policy about it is met - amounts, windows and uses
   * included, all in terms of the request's own fields.
   */
  lemma AllowMeans(s: State, q: Request)
    ensures Allows(s, q) <==>
      && WellAsked(q)
      && ((exists a :: UsableApproval(s, a, q)) || (exists g :: UsableGrant(s, g, q)))
      && (forall p :: p in s.policies && PolicySpeaks(p, q) ==> PolicyMet(p, q))
  {
    L.AllowExactly(s, DemandOf(q), q.now, q.binding);
    UsableAre(s, q);
    PoliciesAre(s, q);
  }

  // ---------------------------------------------------------------- what is cited

  /** The first hit of the loop over approvals is the first exact one registered. */
  lemma {:induction false} FirstApproval(s: State, xs: seq<Approval>, now: int, blocked: Option<Decision>)
    ensures var usable := ScanHits(s, xs, now, blocked).usable;
      usable != [] ==>
        (exists i :: 0 <= i < |xs| && xs[i] == usable[0] && forall k :: 0 <= k < i ==> ApprovalBlock(s, xs[k], now).Some?)
    ensures ScanHits(s, xs, now, blocked).usable == [] ==> forall x :: x in xs ==> ApprovalBlock(s, x, now).Some?
    decreases |xs|
  {
    if xs == [] {
    } else {
      FirstApproval(s, ButLast(xs), now, blocked);
      L.SplitLast(xs);
      if ScanHits(s, ButLast(xs), now, blocked).usable == [] {
        forall k | 0 <= k < |xs| - 1 ensures ApprovalBlock(s, xs[k], now).Some? { assert ButLast(xs)[k] in ButLast(xs); }
      } else {
        var i :| 0 <= i < |ButLast(xs)| && ButLast(xs)[i] == ScanHits(s, ButLast(xs), now, blocked).usable[0]
          && forall k :: 0 <= k < i ==> ApprovalBlock(s, ButLast(xs)[k], now).Some?;
        assert xs[i] == ButLast(xs)[i] && forall k :: 0 <= k < i ==> xs[k] == ButLast(xs)[k];
      }
    }
  }

  /** The exact approvals, in the order of registration. */
  lemma {:induction false} HitsInOrder(xs: seq<Approval>, d: Demand, j: nat)
    requires j < |ScanApprovals(xs, d).hits|
    ensures exists i :: (
      && 0 <= i < |xs| && xs[i] == ScanApprovals(xs, d).hits[j]
      && forall k :: 0 <= k < i && ApprovalExact(xs[k], d) ==> xs[k] in ScanApprovals(xs, d).hits[..j])
    decreases |xs|
  {
    if xs == [] {
    } else {
      var front, hits := ButLast(xs), ScanApprovals(ButLast(xs), d).hits;
      if j < |hits| {
        HitsInOrder(front, d, j);
        var i :| 0 <= i < |front| && front[i] == hits[j] &&
          forall k :: 0 <= k < i && ApprovalExact(front[k], d) ==> front[k] in hits[..j];
        assert ScanApprovals(xs, d).hits[..j] == hits[..j];
        assert xs[i] == front[i] && forall k :: 0 <= k < i ==> xs[k] == front[k];
      } else {
        L.ScannedApprovals(front, d);
        assert ScanApprovals(xs, d).hits[..j] == hits;
        forall k | 0 <= k < |xs| - 1 && ApprovalExact(xs[k], d) ensures xs[k] in hits { assert xs[k] == front[k] && front[k] in front; }
        assert xs[|xs| - 1] == ScanApprovals(xs, d).hits[j];
      }
    }
  }

  lemma {:induction false} FirstGrant(s: State, xs: seq<Grant>, d: Demand, now: int, miss: Option<Miss>)
    ensures var hits := ScanGrants(s, xs, d, now, miss).hits;
      hits != [] ==> exists i :: (
        && 0 <= i < |xs| && xs[i] == hits[0]
        && forall k :: 0 <= k < i ==> !(GrantMatches(xs[k], d, false) && GrantBlock(s, xs[k], now).None?))
    decreases |xs|
  {
    if xs == [] {
    } else {
      var front, hits := ButLast(xs), ScanGrants(s, ButLast(xs), d, now, miss).hits;
      FirstGrant(s, front, d, now, miss);
      L.ScannedGrants(s, front, d, now, miss);
      if hits == [] {
        forall k | 0 <= k < |xs| - 1 ensures !(GrantMatches(xs[k], d, false) && GrantBlock(s, xs[k], now).None?) {
          assert xs[k] == front[k] && front[k] in front;
        }
      } else {
        var i :| 0 <= i < |front| && front[i] == hits[0] &&
          forall k :: 0 <= k < i ==> !(GrantMatches(front[k], d, false) && GrantBlock(s, front[k], now).None?);
        assert xs[i] == front[i] && forall k :: 0 <= k < i ==> xs[k] == front[k];
      }
    }
  }

  /** The cited approval is the first registered that names the request and is open. */
  lemma CitesFirstApproval(s: State, q: Request)
    requires Allows(s, q) && Evaluate(s, q).value.kind.ByApproval?
    ensures exists i :: (
      && 0 <= i < |s.approvals| && s.approvals[i].id == Evaluate(s, q).value.authorityId
      && UsableApproval(s, s.approvals[i], q) && forall k :: 0 <= k < i ==> !UsableApproval(s, s.approvals[k], q))
  {
    var d := DemandOf(q);
    var hits := ScanApprovals(s.approvals, d).hits;
    var blocked := ScanGrants(s, s.grants, d, q.now, ScanApprovals(s.approvals, d).miss).blocked;
    var usable := L.UsableHits(s, d, q.now);
    ApprovalIsCited(s, q);
    FirstApproval(s, hits, q.now, blocked);
    var j: nat :| j < |hits| && hits[j] == usable[0] && forall k :: 0 <= k < j ==> ApprovalBlock(s, hits[k], q.now).Some?;
    HitsInOrder(s.approvals, d, j);
    var i :| 0 <= i < |s.approvals| && s.approvals[i] == hits[j]
      && forall k :: 0 <= k < i && ApprovalExact(s.approvals[k], d) ==> s.approvals[k] in hits[..j];
    L.UsableHitsAre(s, d, q.now);
    assert usable[0] in usable;
    UsableAre(s, q);
    forall k | 0 <= k < i ensures !UsableApproval(s, s.approvals[k], q) {
      ApprovalMeans(s, s.approvals[k], q);
      if ApprovalExact(s.approvals[k], d) {
        var n :| 0 <= n < j && hits[..j][n] == s.approvals[k];
        assert hits[n] == s.approvals[k];
      }
    }
  }

  lemma ApprovalIsCited(s: State, q: Request)
    requires Allows(s, q) && Evaluate(s, q).value.kind.ByApproval?
    ensures L.UsableHits(s, DemandOf(q), q.now) != []
    ensures Evaluate(s, q).value.authorityId == L.UsableHits(s, DemandOf(q), q.now)[0].id
  {
    L.AllowExactly(s, DemandOf(q), q.now, q.binding);
    L.CoveredIs(s, DemandOf(q), q.now);
  }

  /** A grant is cited only where no approval would do, and it is the first registered one that does. */
  lemma CitesFirstGrant(s: State, q: Request)
    requires Allows(s, q) && Evaluate(s, q).value.kind.ByGrant?
    ensures forall a :: !UsableApproval(s, a, q)
    ensures exists i :: (
      && 0 <= i < |s.grants| && s.grants[i].id == Evaluate(s, q).value.authorityId
      && UsableGrant(s, s.grants[i], q) && forall k :: 0 <= k < i ==> !UsableGrant(s, s.grants[k], q))
  {
    var d := DemandOf(q);
    var miss := ScanApprovals(s.approvals, d).miss;
    L.AllowCites(s, d, q.now, q.binding);
    UsableAre(s, q);
    L.CoveredIs(s, d, q.now);
    L.UsableHitsAre(s, d, q.now);
    L.GrantHitsAre(s, d, q.now);
    L.AllowExactly(s, d, q.now, q.binding);
    FirstGrant(s, s.grants, d, q.now, miss);
    GrantIsCited(s, q);
    var i :| 0 <= i < |s.grants| && s.grants[i] == L.GrantHits(s, d, q.now)[0] &&
      forall k :: 0 <= k < i ==> !(GrantMatches(s.grants[k], d, false) && GrantBlock(s, s.grants[k], q.now).None?);
    forall k | 0 <= k < i ensures !UsableGrant(s, s.grants[k], q) { GrantMeans(s, s.grants[k], q); }
    assert L.GrantHits(s, d, q.now)[0] in L.GrantHits(s, d, q.now);
  }

  lemma GrantIsCited(s: State, q: Request)
    requires Allows(s, q) && Evaluate(s, q).value.kind.ByGrant?
    ensures L.GrantHits(s, DemandOf(q), q.now) != []
    ensures Evaluate(s, q).value.authorityId == L.GrantHits(s, DemandOf(q), q.now)[0].id
  {
    L.AllowExactly(s, DemandOf(q), q.now, q.binding);
    L.CoveredIs(s, DemandOf(q), q.now);
  }

  /** These positions, in order, and no others. */
  ghost predicate Picks(at: seq<nat>, n: nat) {
    (forall i :: 0 <= i < |at| ==> at[i] < n) && forall i, j :: 0 <= i < j < |at| ==> at[i] < at[j]
  }

  /** The positions at which `picked` stands in `ps`: exactly those that apply. */
  ghost predicate Located(ps: seq<Constraint>, picked: seq<Constraint>, d: Demand, at: seq<nat>) {
    && |at| == |picked| && Picks(at, |ps|)
    && (forall i :: 0 <= i < |at| ==> picked[i] == ps[at[i]])
    && (forall k :: 0 <= k < |ps| ==> (k in at <==> PolicyApplies(ps[k], d)))
  }

  lemma LocatedSkip(ps: seq<Constraint>, x: Constraint, picked: seq<Constraint>, d: Demand, at: seq<nat>)
    requires Located(ps, picked, d, at) && !PolicyApplies(x, d)
    ensures Located(ps + [x], picked, d, at)
  {
    assert |ps| !in at;
  }

  lemma LocatedTake(ps: seq<Constraint>, x: Constraint, picked: seq<Constraint>, d: Demand, at: seq<nat>)
    requires Located(ps, picked, d, at) && PolicyApplies(x, d)
    ensures Located(ps + [x], picked + [x], d, at + [|ps|])
  {
    forall k | 0 <= k < |ps + [x]| ensures k in at + [|ps|] <==> PolicyApplies((ps + [x])[k], d) {
      assert k < |ps| ==> (k in at + [|ps|] <==> k in at);
    }
  }

  lemma {:induction false} ApplicableAt(ps: seq<Constraint>, d: Demand) returns (at: seq<nat>)
    ensures Located(ps, Applicable(ps, d), d, at)
    decreases |ps|
  {
    if ps == [] {
      at := [];
    } else {
      at := ApplicableAt(ButLast(ps), d);
      assert ps == ButLast(ps) + [Last(ps)];
      if PolicyApplies(Last(ps), d) {
        LocatedTake(ButLast(ps), Last(ps), Applicable(ButLast(ps), d), d, at);
        at := at + [|ps| - 1];
      } else {
        LocatedSkip(ButLast(ps), Last(ps), Applicable(ButLast(ps), d), d, at);
      }
    }
  }

  lemma AllowListed(s: State, q: Request)
    requires Allows(s, q)
    ensures Evaluate(s, q).value.binding == q.binding
    ensures Evaluate(s, q).value.policyIds == PolicyIds(Applicable(s.policies, DemandOf(q)))
  {
    L.AllowExactly(s, DemandOf(q), q.now, q.binding);
    L.CoveredIs(s, DemandOf(q), q.now);
  }

  /** An allowed request echoes the binding and lists exactly the policies about it, in order of registration. */
  lemma AllowLists(s: State, q: Request) returns (at: seq<nat>)
    requires Allows(s, q)
    ensures Evaluate(s, q).value.binding == q.binding
    ensures Picks(at, |s.policies|) && |at| == |Evaluate(s, q).value.policyIds|
    ensures forall i :: 0 <= i < |at| ==> Evaluate(s, q).value.policyIds[i] == s.policies[at[i]].id
    ensures forall k :: 0 <= k < |s.policies| ==> (k in at <==> PolicySpeaks(s.policies[k], q))
  {
    AllowListed(s, q);
    at := ApplicableAt(s.policies, DemandOf(q));
    forall k | 0 <= k < |s.policies| ensures PolicyApplies(s.policies[k], DemandOf(q)) <==> PolicySpeaks(s.policies[k], q) {
      PolicyMeans(s.policies[k], q);
    }
  }

  // ---------------------------------------------------------------- what is refused

  lemma {:induction false} FirstFailingIs(ps: seq<Constraint>, d: Demand, now: int)
    requires FirstFailing(ps, d, now).Some?
    ensures exists i :: (
      && 0 <= i < |ps| && ps[i].id == FirstFailing(ps, d, now).value
      && !PolicyHolds(ps[i], d, now) && forall k :: 0 <= k < i ==> PolicyHolds(ps[k], d, now))
    decreases |ps|
  {
    if !PolicyHolds(ps[0], d, now) {
    } else {
      FirstFailingIs(ps[1..], d, now);
      var i :| 0 <= i < |ps[1..]| && ps[1..][i].id == FirstFailing(ps, d, now).value
        && !PolicyHolds(ps[1..][i], d, now) && forall k :: 0 <= k < i ==> PolicyHolds(ps[1..][k], d, now);
      forall k | 0 <= k < i + 1 ensures PolicyHolds(ps[k], d, now) { if k > 0 { assert ps[k] == ps[1..][k - 1]; } }
      assert ps[i + 1] == ps[1..][i];
    }
  }

  /** A request narrowed away names a policy about it that is not met. */
  lemma ForbiddenNames(s: State, q: Request)
    requires Evaluate(s, q).Some? && Evaluate(s, q).value.Deny? && Evaluate(s, q).value.reason == Forbidden
    ensures exists p :: p in s.policies && Some(p.id) == Evaluate(s, q).value.policyId && PolicySpeaks(p, q) && !PolicyMet(p, q)
  {
    var d := DemandOf(q);
    L.DenyReasons(s, d, q.now, q.binding);
    L.CoveredIs(s, d, q.now);
    L.UnnarrowedIs(s, d, q.now);
    L.AllowExactly(s, d, q.now, q.binding);
    var ps := Applicable(s.policies, d);
    FirstFailingIs(ps, d, q.now);
    var i :| 0 <= i < |ps| && ps[i].id == FirstFailing(ps, d, q.now).value && !PolicyHolds(ps[i], d, q.now);
    L.ApplicableAre(s.policies, d);
    assert ps[i] in ps;
    PolicyMeans(ps[i], q);
  }

  /** Why a matching grant is closed, reason by reason. */
  lemma GrantClosed(s: State, g: Grant, now: int)
    requires GrantBlock(s, g, now).Some?
    ensures var r := GrantBlock(s, g, now).value;
      && r.Deny? && r.authorityId_ == Some(g.id)
      && (r.reason == Reason.Revoked <==> exists e :: e in s.revoked && e.0 == g.id)
      && (r.reason == Reason.Expired <==>
            && (forall e :: e in s.revoked ==> e.0 != g.id)
            && ((g.exp.Some? && now > g.exp.value + 60) || (g.nbf.Some? && now < g.nbf.value - 60)))
      && (r.reason == Reason.UsesExhausted <==>
            && (forall e :: e in s.revoked ==> e.0 != g.id)
            && (g.exp.Some? ==> now <= g.exp.value + 60) && (g.nbf.Some? ==> now >= g.nbf.value - 60))
  {
    EntryMeans(s, g.id);
  }

  lemma ApprovalClosed(s: State, a: Approval, now: int)
    requires ApprovalBlock(s, a, now).Some?
    ensures var r := ApprovalBlock(s, a, now).value;
      && r.Deny? && r.authorityId_ == Some(a.id)
      && (r.reason == Reason.Revoked <==> exists e :: e in s.revoked && e.0 == a.id)
      && (r.reason == Reason.Expired <==> (forall e :: e in s.revoked ==> e.0 != a.id) && now > a.exp + 60)
      && (r.reason == Reason.UsesExhausted <==> (forall e :: e in s.revoked ==> e.0 != a.id) && now <= a.exp + 60)
  {
    EntryMeans(s, a.id);
  }

  // ---------------------------------------------------------------- ceilings, floors and lists, over the context

  /** A cited grant's bound on a context field binds that field of the request. */
  lemma CitedBoundBinds(s: State, q: Request, g: Grant, b: Bound, name: Text)
    requires UsableGrant(s, g, q) && b in g.bounds && M.PlainName(name) && b.path == FieldOfContext(name)
    ensures q.operation.context.Some? && name in q.operation.context.value
    ensures var v := q.operation.context.value[name];
      && (b.op.BEq? ==> v == b.value)
      && (b.op.BLe? ==> v.VNum? && b.value.VNum? && v.num <= b.value.num)
      && (b.op.BGe? ==> v.VNum? && b.value.VNum? && v.num >= b.value.num)
      && (b.op.BIn? ==> b.value.VArr? && v in b.value.items)
      && (b.op.BSubset? ==> v.VArr? && b.value.VArr? && forall x :: x in v.items ==> x in b.value.items)
  {
    ContextBound(b, DemandOf(q), name);
  }

  /** An allow under a grant with an amount ceiling is for no more than the ceiling. */
  lemma PayCeiling(s: State, q: Request, ceiling: int)
    requires Allows(s, q) && Evaluate(s, q).value.kind.ByGrant?
    requires forall g :: g in s.grants && g.id == Evaluate(s, q).value.authorityId ==>
      Bound(Lit(".context.amount"), BLe, VNum(ceiling)) in g.bounds
    ensures q.operation.context.Some? && Lit("amount") in q.operation.context.value
    ensures var v := q.operation.context.value[Lit("amount")]; v.VNum? && v.num <= ceiling
  {
    CitesFirstGrant(s, q);
    AmountPath();
    var i :| 0 <= i < |s.grants| && s.grants[i].id == Evaluate(s, q).value.authorityId && UsableGrant(s, s.grants[i], q);
    CitedBoundBinds(s, q, s.grants[i], Bound(Lit(".context.amount"), BLe, VNum(ceiling)), Lit("amount"));
  }

  /** And nothing but the written-out inequality refuses an amount. */
  lemma CeilingAdmits(q: Request, ceiling: int)
    requires q.operation.context.Some? && Lit("amount") in q.operation.context.value
    requires var v := q.operation.context.value[Lit("amount")]; v.VNum? && v.num <= ceiling
    ensures BoundHolds(Bound(Lit(".context.amount"), BLe, VNum(ceiling)), DemandOf(q))
  {
    var b := Bound(Lit(".context.amount"), BLe, VNum(ceiling));
    AmountPath();
    ContextBound(b, DemandOf(q), Lit("amount"));
    BoundMeans(b, DemandOf(q));
    assert ValueMeets(b, q.operation.context.value[Lit("amount")]);
  }
}
