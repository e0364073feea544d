/**
 * What restoring a snapshot demands and yields, for whatever a file may hold (`restore`,
 * src/core/authority.ts); for snapshots of real instances see AuthoritySnapshots.
 */
module Restoring {
  import opened Basics
  import opened OrderedMap
  import opened AuthorityTerms
  import opened AuthorityState
  import opened Registration
  import R = AuthoritySnapshots

  // ---------------------------------------------------------------- what restores

  /** No id is used twice, within a kind or across kinds. */
  predicate IdsApart(snap: Snapshot) {
    && (forall i, j :: 0 <= i < j < |snap.grants| ==> snap.grants[i].id != snap.grants[j].id)
    && (forall i, j :: 0 <= i < j < |snap.approvals| ==> snap.approvals[i].id != snap.approvals[j].id)
    && (forall i, j :: 0 <= i < j < |snap.policies| ==> snap.policies[i].id != snap.policies[j].id)
    && (forall g, a :: g in snap.grants && a in snap.approvals ==> g.id != a.id)
    && (forall g, p :: g in snap.grants && p in snap.policies ==> g.id != p.id)
    && (forall a, p :: a in snap.approvals && p in snap.policies ==> a.id != p.id)
  }

  /** Every entry passes the checks of live input, no policy is retired, no use count is negative. */
  ghost predicate Restorable(snap: Snapshot) {
    && snap.revision >= 0 && IdsApart(snap)
    && (forall g :: g in snap.grants ==> GrantAcceptable(g))
    && (forall a :: a in snap.approvals ==> ApprovalAcceptable(a))
    && (forall p :: p in snap.policies ==> PolicyAcceptable(p))
    && (forall e, p :: e in snap.revoked && p in snap.policies ==> e.0 != p.id)
    && (forall e :: e in snap.used ==> e.1 >= 0)
  }

  lemma SameSpread<T>(a: seq<T>, b: seq<T>, c: seq<T>)
    ensures Distinct(a + b + c) <==>
      && Distinct(a) && Distinct(b) && Distinct(c)
      && (forall x :: x in a ==> x !in b && x !in c) && (forall x :: x in b ==> x !in c)
  {
    var s := a + b + c;
    assert forall i :: 0 <= i < |a| ==> s[i] == a[i];
    assert forall i :: 0 <= i < |b| ==> s[|a| + i] == b[i];
    assert forall i :: 0 <= i < |c| ==> s[|a| + |b| + i] == c[i];
    if Distinct(a) && Distinct(b) && Distinct(c) && (forall x :: x in a ==> x !in b && x !in c) && (forall x :: x in b ==> x !in c) {
      R.DistinctAppend(a, b);
      R.DistinctAppend(a + b, c);
    }
  }

  lemma IdsMean(snap: Snapshot)
    ensures Distinct(SnapshotIds(snap)) <==> IdsApart(snap)
  {
    var g := seq(|snap.grants|, i requires 0 <= i < |snap.grants| => snap.grants[i].id);
    var a := seq(|snap.approvals|, i requires 0 <= i < |snap.approvals| => snap.approvals[i].id);
    var p := seq(|snap.policies|, i requires 0 <= i < |snap.policies| => snap.policies[i].id);
    assert SnapshotIds(snap) == g + a + p;
    SameSpread(g, a, p);
    GrantIds(snap.grants, g);
    ApprovalIds(snap.approvals, a);
    PolicyIdsAre(snap.policies, p);
    assert Distinct(g) <==> forall i, j :: 0 <= i < j < |snap.grants| ==> snap.grants[i].id != snap.grants[j].id by {
      assert forall i :: 0 <= i < |g| ==> g[i] == snap.grants[i].id;
    }
    assert Distinct(a) <==> forall i, j :: 0 <= i < j < |snap.approvals| ==> snap.approvals[i].id != snap.approvals[j].id by {
      assert forall i :: 0 <= i < |a| ==> a[i] == snap.approvals[i].id;
    }
    assert Distinct(p) <==> forall i, j :: 0 <= i < j < |snap.policies| ==> snap.policies[i].id != snap.policies[j].id by {
      assert forall i :: 0 <= i < |p| ==> p[i] == snap.policies[i].id;
    }
  }

  lemma GrantIds(gs: seq<Grant>, ids: seq<Text>)
    requires |ids| == |gs| && forall i :: 0 <= i < |gs| ==> ids[i] == gs[i].id
    ensures forall g :: g in gs ==> g.id in ids
    ensures forall x :: x in ids ==> exists g :: g in gs && g.id == x
  {
    forall g | g in gs ensures g.id in ids {
      var i :| 0 <= i < |gs| && gs[i] == g;
      assert ids[i] == g.id;
    }
  }

  lemma ApprovalIds(xs: seq<Approval>, ids: seq<Text>)
    requires |ids| == |xs| && forall i :: 0 <= i < |xs| ==> ids[i] == xs[i].id
    ensures forall a :: a in xs ==> a.id in ids
    ensures forall x :: x in ids ==> exists a :: a in xs && a.id == x
  {
    forall a | a in xs ensures a.id in ids {
      var i :| 0 <= i < |xs| && xs[i] == a;
      assert ids[i] == a.id;
    }
  }

  lemma PolicyIdsAre(ps: seq<Constraint>, ids: seq<Text>)
    requires |ids| == |ps| && forall i :: 0 <= i < |ps| ==> ids[i] == ps[i].id
    ensures forall p :: p in ps ==> p.id in ids
    ensures forall x :: x in ids ==> exists p :: p in ps && p.id == x
  {
    forall p | p in ps ensures p.id in ids {
      var i :| 0 <= i < |ps| && ps[i] == p;
      assert ids[i] == p.id;
    }
  }

  lemma {:induction false} GrantsPassed(t: State, gs: seq<Grant>)
    requires AddGrants(t, gs).Some?
    ensures forall g :: g in gs ==> GrantOk(g)
    decreases |gs|
  {
    if gs != [] { GrantsPassed(AddGrant(t, gs[0]).value, gs[1..]); }
  }

  lemma {:induction false} ApprovalsPassed(t: State, xs: seq<Approval>)
    requires AddApprovals(t, xs).Some?
    ensures forall a :: a in xs ==> ApprovalOk(a)
    decreases |xs|
  {
    if xs != [] { ApprovalsPassed(AddApproval(t, xs[0]).value, xs[1..]); }
  }

  lemma {:induction false} PoliciesPassed(t: State, ps: seq<Constraint>)
    requires AddPolicies(t, ps).Some?
    ensures forall p :: p in ps ==> PolicyOk(p) && !Has(t.revoked, p.id)
    decreases |ps|
  {
    if ps != [] { PoliciesPassed(AddPolicy(t, ps[0]).value, ps[1..]); }
  }

  lemma {:induction false} PutAllHas<V>(m: OMap<V>, es: seq<(Text, V)>, k: Text)
    ensures Has(PutAll(m, es), k) <==> Has(m, k) || exists e :: e in es && e.0 == k
    decreases |es|
  {
    if es != [] {
      PutKeys(m, es[0].0, es[0].1);
      PutAllHas(Put(m, es[0].0, es[0].1), es[1..], k);
      assert es == [es[0]] + es[1..];
    }
  }

  lemma RevokedHas(snap: Snapshot, k: Text)
    ensures Has(PutAll([], snap.revoked), k) <==> exists e :: e in snap.revoked && e.0 == k
  {
    PutAllHas([], snap.revoked, k);
  }

  /** The grants on their own. */
  lemma GrantsRestore(base: State, gs: seq<Grant>)
    requires base.grants == [] && base.approvals == [] && base.policies == []
    requires forall i, j :: 0 <= i < j < |gs| ==> gs[i].id != gs[j].id
    ensures AddGrants(base, gs) == if forall g :: g in gs ==> GrantOk(g) then Some(base.(grants := gs)) else None
  {
    if AddGrants(base, gs).Some? { GrantsPassed(base, gs); }
    if forall g :: g in gs ==> GrantOk(g) {
      R.GrantsReload(base, gs);
      assert [] + gs == gs;
    }
  }

  lemma ApprovalsRestore(base: State, xs: seq<Approval>)
    requires base.approvals == [] && base.policies == []
    requires forall i, j :: 0 <= i < j < |xs| ==> xs[i].id != xs[j].id
    requires forall g, a :: g in base.grants && a in xs ==> g.id != a.id
    ensures AddApprovals(base, xs) == if forall a :: a in xs ==> ApprovalOk(a) then Some(base.(approvals := xs)) else None
  {
    if AddApprovals(base, xs).Some? { ApprovalsPassed(base, xs); }
    if forall a :: a in xs ==> ApprovalOk(a) {
      R.ApprovalsReload(base, xs);
      assert [] + xs == xs;
    }
  }

  lemma PoliciesRestore(base: State, ps: seq<Constraint>)
    requires base.policies == []
    requires forall i, j :: 0 <= i < j < |ps| ==> ps[i].id != ps[j].id
    requires forall g, p :: g in base.grants && p in ps ==> g.id != p.id
    requires forall a, p :: a in base.approvals && p in ps ==> a.id != p.id
    ensures AddPolicies(base, ps)
         == if forall p :: p in ps ==> PolicyOk(p) && !Has(base.revoked, p.id) then Some(base.(policies := ps)) else None
  {
    if AddPolicies(base, ps).Some? { PoliciesPassed(base, ps); }
    if forall p :: p in ps ==> PolicyOk(p) && !Has(base.revoked, p.id) {
      R.PoliciesReload(base, ps);
      assert [] + ps == ps;
    }
  }

  predicate GrantsPass(snap: Snapshot) { forall g :: g in snap.grants ==> GrantOk(g) }

  predicate ApprovalsPass(snap: Snapshot) { forall a :: a in snap.approvals ==> ApprovalOk(a) }

  predicate PoliciesPass(snap: Snapshot) {
    forall p :: p in snap.policies ==> PolicyOk(p) && !Has(PutAll([], snap.revoked), p.id)
  }

  predicate Counts(snap: Snapshot) { forall e :: e in snap.used ==> e.1 >= 0 }

  /** Restoring runs through its stages. */
  lemma ThroughStages(snap: Snapshot, base: State, g: Option<State>, a: Option<State>, p: Option<State>)
    requires snap.revision >= 0 && Distinct(SnapshotIds(snap)) && base == FRESH.(revision := snap.revision, lineage := true)
    requires g == AddGrants(base, snap.grants)
    requires a == if g.None? then None else AddApprovals(g.value, snap.approvals)
    requires p == if a.None? then None else AddPolicies(a.value.(revoked := PutAll([], snap.revoked)), snap.policies)
    ensures Restore(snap) ==
      if p.None? || !Counts(snap) then None
      else Some(p.value.(used := PutAll([], snap.used), issued := PutAll([], IssuedSets(snap.issued))))
  {}

  /** What restoring yields. */
  lemma Stages(snap: Snapshot)
    requires snap.revision >= 0 && IdsApart(snap)
    ensures Restore(snap) ==
      if GrantsPass(snap) && ApprovalsPass(snap) && PoliciesPass(snap) && Counts(snap) then
        Some(State(snap.grants, snap.approvals, snap.policies, PutAll([], snap.revoked), PutAll([], snap.used),
                   PutAll([], IssuedSets(snap.issued)), snap.revision, true))
      else None
  {
    IdsMean(snap);
    var base := FRESH.(revision := snap.revision, lineage := true);
    GrantsRestore(base, snap.grants);
    var g := AddGrants(base, snap.grants);
    if g.Some? { ApprovalsRestore(g.value, snap.approvals); }
    var a := if g.None? then None else AddApprovals(g.value, snap.approvals);
    var revoked := PutAll([], snap.revoked);
    if a.Some? { PoliciesRestore(a.value.(revoked := revoked), snap.policies); }
    var p := if a.None? then None else AddPolicies(a.value.(revoked := revoked), snap.policies);
    ThroughStages(snap, base, g, a, p);
  }

  lemma EntriesPass(snap: Snapshot)
    ensures GrantsPass(snap) <==> forall g :: g in snap.grants ==> GrantAcceptable(g)
    ensures ApprovalsPass(snap) <==> forall a :: a in snap.approvals ==> ApprovalAcceptable(a)
  {
    forall g | g in snap.grants ensures GrantOk(g) <==> GrantAcceptable(g) { GrantChecks(g); }
    forall a | a in snap.approvals ensures ApprovalOk(a) <==> ApprovalAcceptable(a) { ApprovalChecks(a); }
  }

  lemma PoliciesStand(snap: Snapshot)
    ensures PoliciesPass(snap) <==>
      && (forall p :: p in snap.policies ==> PolicyAcceptable(p))
      && (forall e, p :: e in snap.revoked && p in snap.policies ==> e.0 != p.id)
  {
    forall p | p in snap.policies
      ensures PolicyOk(p) <==> PolicyAcceptable(p)
      ensures Has(PutAll([], snap.revoked), p.id) <==> exists e :: e in snap.revoked && e.0 == p.id
    {
      PolicyChecks(p);
      PutAllHas([], snap.revoked, p.id);
    }
  }

  /** Whatever a file holds: it restores exactly when it is restorable, and then as it stands. */
  lemma RestoreMeans(snap: Snapshot)
    ensures Restore(snap).Some? <==> Restorable(snap)
    ensures Restore(snap).Some? ==>
      var s := Restore(snap).value;
      && s.grants == snap.grants && s.approvals == snap.approvals && s.policies == snap.policies
      && s.revision == snap.revision && s.lineage
  {
    EntriesPass(snap);
    PoliciesStand(snap);
    IdsMean(snap);
    if snap.revision >= 0 && IdsApart(snap) { Stages(snap); }
  }

  /** Revocations and use counts are looked up as the last entry of their key has them. */
  lemma RestoredEntries(snap: Snapshot, k: Text)
    requires Restore(snap).Some?
    ensures Has(Restore(snap).value.revoked, k) <==> exists e :: e in snap.revoked && e.0 == k
    ensures Uses(Restore(snap).value, k) == LastOf(snap.used, k, 0)
  {
    IdsMean(snap);
    RestoreMeans(snap);
    Stages(snap);
    PutAllHas([], snap.revoked, k);
    PutAllGet([], snap.used, k, 0);
  }

  function LastOf<V>(es: seq<(Text, V)>, k: Text, default: V): V {
    if es == [] then default else if Last(es).0 == k then Last(es).1 else LastOf(ButLast(es), k, default)
  }

  lemma {:induction false} LastOfCons<V>(e: (Text, V), es: seq<(Text, V)>, k: Text, default: V)
    ensures LastOf([e] + es, k, default) == LastOf(es, k, if e.0 == k then e.1 else default)
    decreases |es|
  {
    if es == [] {
      assert [e] + es == [e];
    } else {
      assert ButLast([e] + es) == [e] + ButLast(es);
      LastOfCons(e, ButLast(es), k, default);
    }
  }

  lemma {:induction false} PutAllGet<V>(m: OMap<V>, es: seq<(Text, V)>, k: Text, default: V)
    ensures Get(PutAll(m, es), k, default) == LastOf(es, k, Get(m, k, default))
    decreases |es|
  {
    if es != [] {
      PutGet(m, es[0].0, es[0].1, k, default);
      PutAllGet(Put(m, es[0].0, es[0].1), es[1..], k, default);
      assert es == [es[0]] + es[1..];
      LastOfCons(es[0], es[1..], k, Get(m, k, default));
    }
  }
}
