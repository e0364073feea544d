/** What the authority engine's decision means, and what every call on an instance keeps. */
module AuthorityLaws {
  import opened Basics
  import opened Canonical
  import opened CanonicalLaws
  import opened Coverage
  import opened OrderedMap
  import opened AuthorityTerms
  import opened AuthorityState

  // ---------------------------------------------------------------- the decision, declaratively

  predicate UsableApproval(s: State, a: Approval, d: Demand, now: int) {
    && a in s.approvals && ApprovalExact(a, d)
    && !Has(s.revoked, a.id) && now <= a.exp + SKEW && Uses(s, a.id) < a.maxUses
  }

  predicate LiveGrant(s: State, g: Grant, d: Demand, now: int) {
    && g in s.grants && GrantMatches(g, d, false)
    && !Has(s.revoked, g.id)
    && (g.exp.Some? ==> now <= g.exp.value + SKEW)
    && (g.nbf.Some? ==> now >= g.nbf.value - SKEW)
    && (g.maxUses.Some? ==> Uses(s, g.id) < g.maxUses.value)
  }

  /** Some authority covers the demand. */
  ghost predicate Covered(s: State, d: Demand, now: int) {
    (exists a :: UsableApproval(s, a, d, now)) || (exists g :: LiveGrant(s, g, d, now))
  }

  /** Every applicable policy holds. */
  ghost predicate Unnarrowed(s: State, d: Demand, now: int) {
    forall p :: p in s.policies && PolicyApplies(p, d) ==> PolicyHolds(p, d, now)
  }

  lemma SplitLast<T>(xs: seq<T>)
    requires xs != []
    ensures forall x :: x in xs <==> x in ButLast(xs) || x == Last(xs)
  {
    assert xs == ButLast(xs) + [Last(xs)];
  }

  lemma {:induction false} ScannedApprovals(xs: seq<Approval>, d: Demand)
    ensures forall a :: a in ScanApprovals(xs, d).hits <==> a in xs && ApprovalExact(a, d)
    ensures ScanApprovals(xs, d).mismatch.Some? <==>
      exists a :: a in xs && ApprovalIdentity(a, d, false) && !ApprovalExact(a, d)
    decreases |xs|
  {
    if xs == [] {
    } else {
      SplitLast(xs);
      ScannedApprovals(ButLast(xs), d);
    }
  }

  lemma {:induction false} ScannedGrants(s: State, xs: seq<Grant>, d: Demand, now: int, miss: Option<Miss>)
    ensures forall g :: g in ScanGrants(s, xs, d, now, miss).hits <==>
      g in xs && GrantMatches(g, d, false) && GrantBlock(s, g, now).None?
    ensures ScanGrants(s, xs, d, now, miss).blocked.Some? <==>
      exists g :: g in xs && GrantMatches(g, d, false) && GrantBlock(s, g, now).Some?
    ensures var b := ScanGrants(s, xs, d, now, miss).blocked;
      b.Some? ==> b.value.Deny? && b.value.reason in {Revoked, Expired, UsesExhausted}
    decreases |xs|
  {
    if xs == [] {
    } else {
      SplitLast(xs);
      ScannedGrants(s, ButLast(xs), d, now, miss);
    }
  }

  lemma {:induction false} ScannedHits(s: State, xs: seq<Approval>, now: int, blocked: Option<Decision>)
    requires blocked.Some? ==> blocked.value.Deny? && blocked.value.reason in {Revoked, Expired, UsesExhausted}
    ensures forall a :: a in ScanHits(s, xs, now, blocked).usable <==> a in xs && ApprovalBlock(s, a, now).None?
    ensures ScanHits(s, xs, now, blocked).blocked.Some? <==>
      blocked.Some? || exists a :: a in xs && ApprovalBlock(s, a, now).Some?
    ensures var b := ScanHits(s, xs, now, blocked).blocked;
      b.Some? ==> b.value.Deny? && b.value.reason in {Revoked, Expired, UsesExhausted}
    decreases |xs|
  {
    if xs == [] {
    } else {
      SplitLast(xs);
      ScannedHits(s, ButLast(xs), now, blocked);
    }
  }

  lemma {:induction false} ApplicableAre(ps: seq<Constraint>, d: Demand)
    ensures forall p :: p in Applicable(ps, d) <==> p in ps && PolicyApplies(p, d)
    decreases |ps|
  {
    if ps == [] {
    } else {
      SplitLast(ps);
      ApplicableAre(ButLast(ps), d);
    }
  }

  lemma {:induction false} FailingIs(ps: seq<Constraint>, d: Demand, now: int)
    ensures FirstFailing(ps, d, now).None? <==> forall p :: p in ps ==> PolicyHolds(p, d, now)
    ensures FirstFailing(ps, d, now).Some? ==>
      exists p :: p in ps && p.id == FirstFailing(ps, d, now).value && !PolicyHolds(p, d, now)
  {
    if ps == [] {
    } else {
      FailingIs(ps[1..], d, now);
      assert ps == [ps[0]] + ps[1..];
    }
  }

  function UsableHits(s: State, d: Demand, now: int): seq<Approval> {
    ScanHits(s, ScanApprovals(s.approvals, d).hits, now,
             ScanGrants(s, s.grants, d, now, ScanApprovals(s.approvals, d).miss).blocked).usable
  }

  function GrantHits(s: State, d: Demand, now: int): seq<Grant> {
    ScanGrants(s, s.grants, d, now, ScanApprovals(s.approvals, d).miss).hits
  }

  lemma UsableHitsAre(s: State, d: Demand, now: int)
    ensures forall a :: a in UsableHits(s, d, now) <==> UsableApproval(s, a, d, now)
  {
    var as_ := ScanApprovals(s.approvals, d);
    ScannedApprovals(s.approvals, d);
    ScannedGrants(s, s.grants, d, now, as_.miss);
    ScannedHits(s, as_.hits, now, ScanGrants(s, s.grants, d, now, as_.miss).blocked);
  }

  lemma GrantHitsAre(s: State, d: Demand, now: int)
    ensures forall g :: g in GrantHits(s, d, now) <==> LiveGrant(s, g, d, now)
  {
    ScannedGrants(s, s.grants, d, now, ScanApprovals(s.approvals, d).miss);
  }

  lemma CoveredIs(s: State, d: Demand, now: int)
    ensures Covered(s, d, now) <==> UsableHits(s, d, now) != [] || GrantHits(s, d, now) != []
  {
    UsableHitsAre(s, d, now);
    GrantHitsAre(s, d, now);
    if UsableHits(s, d, now) != [] { assert UsableHits(s, d, now)[0] in UsableHits(s, d, now); }
    if GrantHits(s, d, now) != [] { assert GrantHits(s, d, now)[0] in GrantHits(s, d, now); }
  }

  lemma UnnarrowedIs(s: State, d: Demand, now: int)
    ensures Unnarrowed(s, d, now) <==> FirstFailing(Applicable(s.policies, d), d, now).None?
  {
    ApplicableAre(s.policies, d);
    FailingIs(Applicable(s.policies, d), d, now);
  }

  /** Default deny: allowed exactly when authority covers the demand and no policy narrows it away. */
  lemma AllowExactly(s: State, d: Demand, now: int, binding: Option<Binding>)
    ensures Decide(s, d, now, binding).Allow? <==> Covered(s, d, now) && Unnarrowed(s, d, now)
  {
    CoveredIs(s, d, now);
    UnnarrowedIs(s, d, now);
    if !Covered(s, d, now) { RefusalDenies(s, d, now); }
  }

  lemma RefusalDenies(s: State, d: Demand, now: int)
    ensures var as_ := ScanApprovals(s.approvals, d);
      var gs := ScanGrants(s, s.grants, d, now, as_.miss);
      var hs := ScanHits(s, as_.hits, now, gs.blocked);
      Refusal(as_.mismatch, hs.blocked, gs.miss).Deny?
  {
    var as_ := ScanApprovals(s.approvals, d);
    ScannedGrants(s, s.grants, d, now, as_.miss);
    ScannedHits(s, as_.hits, now, ScanGrants(s, s.grants, d, now, as_.miss).blocked);
  }

  /** The citation: an approval when one is usable, otherwise a live grant; the binding is echoed. */
  lemma AllowCites(s: State, d: Demand, now: int, binding: Option<Binding>)
    requires Decide(s, d, now, binding).Allow?
    ensures var r := Decide(s, d, now, binding);
      && r.binding == binding
      && (r.kind == ByApproval <==> exists a :: UsableApproval(s, a, d, now))
      && (r.kind == ByApproval ==> exists a :: UsableApproval(s, a, d, now) && a.id == r.authorityId)
      && (r.kind == ByGrant ==> exists g :: LiveGrant(s, g, d, now) && g.id == r.authorityId)
  {
    CoveredIs(s, d, now);
    UsableHitsAre(s, d, now);
    GrantHitsAre(s, d, now);
    if !Covered(s, d, now) { RefusalDenies(s, d, now); }
    if UsableHits(s, d, now) != [] {
      assert UsableHits(s, d, now)[0] in UsableHits(s, d, now);
    } else {
      assert GrantHits(s, d, now)[0] in GrantHits(s, d, now);
    }
  }

  ghost predicate Mutated(s: State, d: Demand) {
    exists a :: a in s.approvals && ApprovalIdentity(a, d, false) && !ApprovalExact(a, d)
  }

  /** Some authority matches the demand, live or not. */
  ghost predicate Matched(s: State, d: Demand) {
    || (exists a :: a in s.approvals && ApprovalExact(a, d))
    || (exists g :: g in s.grants && GrantMatches(g, d, false))
  }

  /** Each deny reason names its own situation. */
  lemma DenyReasons(s: State, d: Demand, now: int, binding: Option<Binding>)
    requires Decide(s, d, now, binding).Deny?
    ensures var r := Decide(s, d, now, binding).reason;
      && (r == Forbidden <==> Covered(s, d, now))
      && (r == Terms <==> !Covered(s, d, now) && Mutated(s, d))
      && (r == NoAuthority <==> !Mutated(s, d) && !Matched(s, d))
      && (r in {Revoked, Expired, UsesExhausted} <==> !Covered(s, d, now) && !Mutated(s, d) && Matched(s, d))
  {
    CoveredIs(s, d, now);
    if !Covered(s, d, now) {
      UsableHitsAre(s, d, now);
      GrantHitsAre(s, d, now);
      BlockedIs(s, d, now);
    } else {
      CoveredMatches(s, d, now);
    }
  }

  lemma CoveredMatches(s: State, d: Demand, now: int)
    requires Covered(s, d, now)
    ensures Matched(s, d)
  {}

  lemma BlockedIs(s: State, d: Demand, now: int)
    requires !Covered(s, d, now)
    ensures var as_ := ScanApprovals(s.approvals, d);
      var gs := ScanGrants(s, s.grants, d, now, as_.miss);
      var hs := ScanHits(s, as_.hits, now, gs.blocked);
      && (hs.blocked.Some? <==> Matched(s, d))
      && (as_.mismatch.Some? <==> Mutated(s, d))
      && (hs.blocked.Some? ==> hs.blocked.value.Deny? && hs.blocked.value.reason in {Revoked, Expired, UsesExhausted})
  {
    var as_ := ScanApprovals(s.approvals, d);
    var gs := ScanGrants(s, s.grants, d, now, as_.miss);
    ScannedApprovals(s.approvals, d);
    ScannedGrants(s, s.grants, d, now, as_.miss);
    ScannedHits(s, as_.hits, now, gs.blocked);
    forall a | a in as_.hits ensures ApprovalBlock(s, a, now).Some? {
      assert !UsableApproval(s, a, d, now);
    }
    forall g | g in s.grants && GrantMatches(g, d, false) ensures GrantBlock(s, g, now).Some? {
      assert !LiveGrant(s, g, d, now);
    }
  }

  // ---------------------------------------------------------------- monotonicity

  /** Policies constrain, never create. */
  lemma PolicyOnlyShrinks(s: State, p: Constraint, d: Demand, now: int, binding: Option<Binding>)
    requires AddPolicy(s, p).Some?
    requires Decide(AddPolicy(s, p).value, d, now, binding).Allow?
    ensures Decide(s, d, now, binding).Allow?
    ensures PolicyApplies(p, d) ==> PolicyHolds(p, d, now)
  {
    var t := AddPolicy(s, p).value;
    AllowExactly(s, d, now, binding);
    AllowExactly(t, d, now, binding);
    assert p in t.policies;
    assert Covered(s, d, now) by {
      if a :| UsableApproval(t, a, d, now) { assert UsableApproval(s, a, d, now); }
      if g :| LiveGrant(t, g, d, now) { assert LiveGrant(s, g, d, now); }
    }
  }

  lemma GrantOnlyGrows(s: State, g: Grant, d: Demand, now: int, binding: Option<Binding>)
    requires AddGrant(s, g).Some? && Decide(s, d, now, binding).Allow?
    ensures Decide(AddGrant(s, g).value, d, now, binding).Allow?
  {
    var t := AddGrant(s, g).value;
    AllowExactly(s, d, now, binding);
    AllowExactly(t, d, now, binding);
    if a :| UsableApproval(s, a, d, now) { assert UsableApproval(t, a, d, now); }
    if h :| LiveGrant(s, h, d, now) { assert LiveGrant(t, h, d, now); }
  }

  lemma ApprovalOnlyGrows(s: State, a: Approval, d: Demand, now: int, binding: Option<Binding>)
    requires AddApproval(s, a).Some? && Decide(s, d, now, binding).Allow?
    ensures Decide(AddApproval(s, a).value, d, now, binding).Allow?
  {
    var t := AddApproval(s, a).value;
    AllowExactly(s, d, now, binding);
    AllowExactly(t, d, now, binding);
    if b :| UsableApproval(s, b, d, now) { assert UsableApproval(t, b, d, now); }
    if h :| LiveGrant(s, h, d, now) { assert LiveGrant(t, h, d, now); }
  }

  /** Consuming charges the cited id once, on allow only, and no other id. */
  lemma ConsumeChargesCited(s: State, q: Request, id: Text)
    ensures var r := Evaluate(s, q);
      Uses(AfterEvaluate(s, q, true), id)
      == Uses(s, id) + if r.Some? && r.value.Allow? && r.value.authorityId == id then 1 else 0
    ensures AfterEvaluate(s, q, false) == s
    ensures AfterEvaluate(s, q, true).(used := s.used) == s
  {
    var r := Evaluate(s, q);
    if r.Some? { ConsumedCharges(s, r.value, id); }
  }

  lemma ConsumedCharges(s: State, r: Decision, id: Text)
    ensures Uses(Consumed(s, r), id) == Uses(s, id) + if r.Allow? && r.authorityId == id then 1 else 0
  {
    if r.Allow? { PutGet(s.used, r.authorityId, Uses(s, r.authorityId) + 1, id, 0); }
  }

  // ---------------------------------------------------------------- the invariant of an instance

  predicate DistinctIds(s: State) {
    && (forall i, j :: 0 <= i < j < |s.grants| ==> s.grants[i].id != s.grants[j].id)
    && (forall i, j :: 0 <= i < j < |s.approvals| ==> s.approvals[i].id != s.approvals[j].id)
    && (forall i, j :: 0 <= i < j < |s.policies| ==> s.policies[i].id != s.policies[j].id)
    && (forall g, a :: g in s.grants && a in s.approvals ==> g.id != a.id)
    && (forall g, p :: g in s.grants && p in s.policies ==> g.id != p.id)
    && (forall a, p :: a in s.approvals && p in s.policies ==> a.id != p.id)
  }

  predicate AllOk(s: State) {
    && (forall g :: g in s.grants ==> GrantOk(g))
    && (forall a :: a in s.approvals ==> ApprovalOk(a))
    && (forall p :: p in s.policies ==> PolicyOk(p))
  }

  predicate WellMapped(s: State) {
    && WellKeyed(s.revoked) && WellKeyed(s.used) && WellKeyed(s.issued)
    && (forall e :: e in s.issued ==> Distinct(e.1))
  }

  /** Retired policies are gone; uses belong to registered authority and respect its limit. */
  ghost predicate Accounted(s: State) {
    && (forall p :: p in s.policies ==> !Has(s.revoked, p.id))
    && (forall e :: e in s.used ==> e.1 >= 0)
    && (forall id :: Has(s.used, id) ==> GrantId(s, id) || ApprovalId(s, id))
    && (forall g :: g in s.grants && g.maxUses.Some? ==> Uses(s, g.id) <= g.maxUses.value)
    && (forall a :: a in s.approvals ==> Uses(s, a.id) <= a.maxUses)
  }

  ghost predicate Valid(s: State) {
    DistinctIds(s) && AllOk(s) && WellMapped(s) && Accounted(s) && s.revision >= 0
  }

  lemma FreshValid()
    ensures Valid(FRESH)
  {}

  lemma SameGrant(s: State, g: Grant, h: Grant)
    requires DistinctIds(s) && g in s.grants && h in s.grants && g.id == h.id
    ensures g == h
  {
    var i :| 0 <= i < |s.grants| && s.grants[i] == g;
    var j :| 0 <= j < |s.grants| && s.grants[j] == h;
  }

  lemma SameApproval(s: State, a: Approval, b: Approval)
    requires DistinctIds(s) && a in s.approvals && b in s.approvals && a.id == b.id
    ensures a == b
  {
    var i :| 0 <= i < |s.approvals| && s.approvals[i] == a;
    var j :| 0 <= j < |s.approvals| && s.approvals[j] == b;
  }

  lemma AddGrantKeeps(s: State, g: Grant)
    requires Valid(s) && AddGrant(s, g).Some?
    ensures Valid(AddGrant(s, g).value)
  {
    var t := AddGrant(s, g).value;
    assert forall h :: h in t.grants <==> h in s.grants || h == g;
    assert !Has(s.used, g.id);
    AbsentGet(s.used, g.id, 0);
    forall i, j | 0 <= i < j < |t.grants| ensures t.grants[i].id != t.grants[j].id {
      if j == |s.grants| { assert t.grants[i] == s.grants[i]; assert t.grants[i] in s.grants; }
    }
    forall id | Has(t.used, id) ensures GrantId(t, id) || ApprovalId(t, id) {
      assert GrantId(s, id) ==> GrantId(t, id);
    }
  }

  lemma AddApprovalKeeps(s: State, a: Approval)
    requires Valid(s) && AddApproval(s, a).Some?
    ensures Valid(AddApproval(s, a).value)
  {
    var t := AddApproval(s, a).value;
    assert forall h :: h in t.approvals <==> h in s.approvals || h == a;
    assert !Has(s.used, a.id);
    AbsentGet(s.used, a.id, 0);
    forall i, j | 0 <= i < j < |t.approvals| ensures t.approvals[i].id != t.approvals[j].id {
      if j == |s.approvals| { assert t.approvals[i] == s.approvals[i]; assert t.approvals[i] in s.approvals; }
    }
    forall id | Has(t.used, id) ensures GrantId(t, id) || ApprovalId(t, id) {
      assert ApprovalId(s, id) ==> ApprovalId(t, id);
    }
  }

  lemma AddPolicyKeeps(s: State, p: Constraint)
    requires Valid(s) && AddPolicy(s, p).Some?
    ensures Valid(AddPolicy(s, p).value)
  {
    var t := AddPolicy(s, p).value;
    assert forall h :: h in t.policies <==> h in s.policies || h == p;
    forall i, j | 0 <= i < j < |t.policies| ensures t.policies[i].id != t.policies[j].id {
      if j == |s.policies| { assert t.policies[i] == s.policies[i]; assert t.policies[i] in s.policies; }
    }
  }

  predicate DistinctPolicyIds(ps: seq<Constraint>) {
    forall i, j :: 0 <= i < j < |ps| ==> ps[i].id != ps[j].id
  }

  lemma {:induction false} WithoutIs(ps: seq<Constraint>, id: Text)
    ensures forall p :: p in Without(ps, id) <==> p in ps && p.id != id
  {
    if ps == [] {
    } else {
      WithoutIs(ps[1..], id);
      assert ps == [ps[0]] + ps[1..];
    }
  }

  lemma {:induction false} WithoutDistinct(ps: seq<Constraint>, id: Text)
    requires DistinctPolicyIds(ps)
    ensures DistinctPolicyIds(Without(ps, id))
  {
    if ps == [] {
    } else {
      var tail, r := ps[1..], Without(ps, id);
      assert forall i :: 0 <= i < |tail| ==> tail[i] == ps[i + 1];
      WithoutDistinct(tail, id);
      if ps[0].id != id {
        WithoutIs(tail, id);
        forall i, j | 0 <= i < j < |r| ensures r[i].id != r[j].id {
          assert r[j] in Without(tail, id);
        }
      }
    }
  }

  lemma DisablePolicyKeeps(s: State, id: Text)
    requires Valid(s) && DisablePolicy(s, id).Some?
    ensures Valid(DisablePolicy(s, id).value)
  {
    WithoutIs(s.policies, id);
    WithoutDistinct(s.policies, id);
    PutKeys(s.revoked, id, None);
  }

  lemma RevokeKeeps(s: State, id: Text, exp: Option<int>)
    requires Valid(s) && AuthorityState.Revoke(s, id, exp).Some?
    ensures Valid(AuthorityState.Revoke(s, id, exp).value)
  {
    PutKeys(s.revoked, id, exp);
  }

  lemma {:induction false} PrunedIs(r: OMap<Option<int>>, now: int)
    ensures forall e :: e in PruneRevoked(r, now) <==> e in r && !Stale(e.1, now)
    ensures forall k :: Has(PruneRevoked(r, now), k) ==> Has(r, k)
    ensures WellKeyed(r) ==> WellKeyed(PruneRevoked(r, now))
  {
    if r == [] {
    } else {
      PrunedIs(r[1..], now);
      assert r == [r[0]] + r[1..];
      forall k | Has(PruneRevoked(r, now), k) ensures Has(r, k) {
        ConsHas(r[0], r[1..], k);
        ConsHas(r[0], PruneRevoked(r[1..], now), k);
      }
      if WellKeyed(r) {
        TailWellKeyed(r);
        if !Stale(r[0].1, now) { ConsWellKeyed(r[0], PruneRevoked(r[1..], now)); }
      }
    }
  }

  lemma {:induction false} PutEntries<V>(m: OMap<V>, k: Text, v: V)
    ensures forall e :: e in Put(m, k, v) ==> e == (k, v) || e in m
  {
    if m == [] {
    } else {
      PutEntries(m[1..], k, v);
      assert m == [m[0]] + m[1..];
    }
  }

  lemma {:induction false} GetEntry<V>(m: OMap<V>, k: Text, default: V)
    ensures Get(m, k, default) == default || (k, Get(m, k, default)) in m
  {
    if m == [] {
    } else {
      GetEntry(m[1..], k, default);
      assert m == [m[0]] + m[1..];
    }
  }

  lemma NoteIssuedKeeps(s: State, id: Text, cid: Text)
    requires Valid(s)
    ensures Valid(NoteIssued(s, id, cid))
  {
    var xs := Get(s.issued, id, []);
    GetEntry(s.issued, id, []);
    PutKeys(s.issued, id, AddMember(xs, cid));
    PutEntries(s.issued, id, AddMember(xs, cid));
  }

  ghost predicate Cites(s: State, r: Decision, d: Demand, now: int) {
    && r.Allow?
    && (r.kind == ByApproval ==> exists a :: UsableApproval(s, a, d, now) && a.id == r.authorityId)
    && (r.kind == ByGrant ==> exists g :: LiveGrant(s, g, d, now) && g.id == r.authorityId)
  }

  lemma EvaluateCites(s: State, q: Request)
    requires Evaluate(s, q).Some? && Evaluate(s, q).value.Allow?
    ensures Cites(s, Evaluate(s, q).value, DemandOf(q), q.now)
  {
    AllowCites(s, DemandOf(q), q.now, q.binding);
  }

  lemma EvaluateHasRoom(s: State, q: Request)
    requires Valid(s) && Evaluate(s, q).Some? && Evaluate(s, q).value.Allow?
    ensures HasRoom(s, Evaluate(s, q).value.authorityId)
  {
    EvaluateCites(s, q);
    CitedHasRoom(s, Evaluate(s, q).value, DemandOf(q), q.now);
  }

  /** The uses after charging one id. */
  lemma ChargedUses(s: State, id: Text)
    ensures var t := s.(used := Put(s.used, id, Uses(s, id) + 1));
      forall k :: Uses(t, k) == if k == id then Uses(s, id) + 1 else Uses(s, k)
  {
    var t := s.(used := Put(s.used, id, Uses(s, id) + 1));
    forall k ensures Uses(t, k) == if k == id then Uses(s, id) + 1 else Uses(s, k) {
      PutGet(s.used, id, Uses(s, id) + 1, k, 0);
    }
  }

  /** Registered authority under this id still has a use to spare. */
  predicate HasRoom(s: State, id: Text) {
    && (GrantId(s, id) || ApprovalId(s, id))
    && (forall g :: g in s.grants && g.maxUses.Some? && g.id == id ==> Uses(s, id) < g.maxUses.value)
    && (forall a :: a in s.approvals && a.id == id ==> Uses(s, id) < a.maxUses)
  }

  /** The cited authority has a use to spare, whatever registered authority has its id. */
  lemma CitedHasRoom(s: State, r: Decision, d: Demand, now: int)
    requires Valid(s) && Cites(s, r, d, now)
    ensures HasRoom(s, r.authorityId)
  {
    if r.kind == ByGrant {
      var h :| LiveGrant(s, h, d, now) && h.id == r.authorityId;
      forall g | g in s.grants && g.id == r.authorityId ensures g == h { SameGrant(s, g, h); }
    } else {
      var b :| UsableApproval(s, b, d, now) && b.id == r.authorityId;
      forall a | a in s.approvals && a.id == r.authorityId ensures a == b { SameApproval(s, a, b); }
    }
  }

  lemma ChargedAccounted(s: State, id: Text)
    requires Accounted(s) && WellKeyed(s.used) && HasRoom(s, id)
    ensures Accounted(s.(used := Put(s.used, id, Uses(s, id) + 1)))
  {
    var n := Uses(s, id) + 1;
    var t := s.(used := Put(s.used, id, n));
    ChargedUses(s, id);
    PutKeys(s.used, id, n);
    PutEntries(s.used, id, n);
    GetEntry(s.used, id, 0);
    assert forall k :: GrantId(t, k) == GrantId(s, k) && ApprovalId(t, k) == ApprovalId(s, k);
  }

  lemma UsesReplaced(s: State, used: OMap<int>)
    requires Valid(s) && WellKeyed(used) && Accounted(s.(used := used))
    ensures Valid(s.(used := used))
  {}

  lemma ChargeKeeps(s: State, id: Text)
    requires Valid(s) && HasRoom(s, id)
    ensures Valid(s.(used := Put(s.used, id, Uses(s, id) + 1)))
  {
    ChargedAccounted(s, id);
    PutKeys(s.used, id, Uses(s, id) + 1);
    UsesReplaced(s, Put(s.used, id, Uses(s, id) + 1));
  }

  lemma ConsumedKeeps(s: State, r: Decision)
    requires Valid(s) && (r.Allow? ==> HasRoom(s, r.authorityId))
    ensures Valid(Consumed(s, r))
  {
    if r.Allow? { ChargeKeeps(s, r.authorityId); }
  }

  lemma EvaluateKeeps(s: State, q: Request, consume: bool)
    requires Valid(s)
    ensures Valid(AfterEvaluate(s, q, consume))
  {
    if Evaluate(s, q).Some? {
      if Evaluate(s, q).value.Allow? { EvaluateHasRoom(s, q); }
      ConsumedKeeps(s, Evaluate(s, q).value);
    }
  }

  lemma RegisterKeepsValid(s: State, op: Op)
    requires Valid(s) && (op.OpAddGrant? || op.OpAddApproval? || op.OpCreateApproval? || op.OpAddPolicy?)
    ensures Valid(Apply(s, op))
  {
    match op
    case OpAddGrant(g) => if AddGrant(s, g).Some? { AddGrantKeeps(s, g); }
    case OpAddApproval(a) => if AddApproval(s, a).Some? { AddApprovalKeeps(s, a); }
    case OpCreateApproval(p, now) => if CreateApproval(s, p, now).Some? { AddApprovalKeeps(s, Minted(p, now)); }
    case OpAddPolicy(p) => if AddPolicy(s, p).Some? { AddPolicyKeeps(s, p); }
  }

  /** Every call, throwing or not, keeps the invariant. */
  lemma ApplyKeepsValid(s: State, op: Op)
    requires Valid(s)
    ensures Valid(Apply(s, op))
  {
    match op
    case OpRevoke(id, exp) => if AuthorityState.Revoke(s, id, exp).Some? { RevokeKeeps(s, id, exp); }
    case OpDisablePolicy(id) => if DisablePolicy(s, id).Some? { DisablePolicyKeeps(s, id); }
    case OpPrune(now) => PrunedIs(s.revoked, now);
    case OpNoteIssued(id, cid) => NoteIssuedKeeps(s, id, cid);
    case OpEvaluate(q, consume) => EvaluateKeeps(s, q, consume);
    case _ => RegisterKeepsValid(s, op);
  }

  lemma {:induction false} RunKeepsValid(s: State, ops: seq<Op>)
    requires Valid(s)
    ensures Valid(ApplyAll(s, ops))
    decreases |ops|
  {
    if ops == [] {
    } else {
      RunKeepsValid(s, ButLast(ops));
      ApplyKeepsValid(ApplyAll(s, ButLast(ops)), Last(ops));
    }
  }
}
