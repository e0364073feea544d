/** Snapshot and restore are inverse on every reachable authority; retirement of policies. */
module AuthoritySnapshots {
  import opened Basics
  import opened Coverage
  import opened OrderedMap
  import opened AuthorityTerms
  import opened AuthorityState
  import opened AuthorityLaws

  // ---------------------------------------------------------------- rebuilding each map

  /** The rest of a registry can still be added to `t`. */
  predicate GrantsFit(t: State, gs: seq<Grant>) {
    && (forall i, j :: 0 <= i < j < |gs| ==> gs[i].id != gs[j].id)
    && (forall h, x :: h in t.grants && x in gs ==> h.id != x.id)
    && t.approvals == [] && t.policies == []
    && (forall g :: g in gs ==> GrantOk(g))
  }

  lemma GrantsFitStep(t: State, gs: seq<Grant>)
    requires gs != [] && GrantsFit(t, gs)
    ensures AddGrant(t, gs[0]) == Some(t.(grants := t.grants + [gs[0]]))
    ensures GrantsFit(t.(grants := t.grants + [gs[0]]), gs[1..])
  {
    assert gs[0] in gs;
    forall x | x in gs[1..] ensures x.id != gs[0].id {
      var j :| 0 <= j < |gs[1..]| && gs[1..][j] == x;
      assert gs[0].id != gs[j + 1].id;
    }
  }

  lemma {:induction false} GrantsReload(t: State, gs: seq<Grant>)
    requires GrantsFit(t, gs)
    ensures AddGrants(t, gs) == Some(t.(grants := t.grants + gs))
    decreases |gs|
  {
    if gs == [] {
      assert t.grants + gs == t.grants;
    } else {
      GrantsFitStep(t, gs);
      GrantsReload(t.(grants := t.grants + [gs[0]]), gs[1..]);
      assert (t.grants + [gs[0]]) + gs[1..] == t.grants + gs;
    }
  }

  /** The rest of a registry can still be added to `t`. */
  predicate ApprovalsFit(t: State, xs: seq<Approval>) {
    && (forall i, j :: 0 <= i < j < |xs| ==> xs[i].id != xs[j].id)
    && (forall h, x :: h in t.approvals && x in xs ==> h.id != x.id)
    && t.policies == []
    && (forall a :: a in xs ==> ApprovalOk(a))
    && (forall g, a :: g in t.grants && a in xs ==> g.id != a.id)
  }

  lemma ApprovalsFitStep(t: State, xs: seq<Approval>)
    requires xs != [] && ApprovalsFit(t, xs)
    ensures AddApproval(t, xs[0]) == Some(t.(approvals := t.approvals + [xs[0]]))
    ensures ApprovalsFit(t.(approvals := t.approvals + [xs[0]]), xs[1..])
  {
    assert xs[0] in xs;
    forall x | x in xs[1..] ensures x.id != xs[0].id {
      var j :| 0 <= j < |xs[1..]| && xs[1..][j] == x;
      assert xs[0].id != xs[j + 1].id;
    }
  }

  lemma {:induction false} ApprovalsReload(t: State, xs: seq<Approval>)
    requires ApprovalsFit(t, xs)
    ensures AddApprovals(t, xs) == Some(t.(approvals := t.approvals + xs))
    decreases |xs|
  {
    if xs == [] {
      assert t.approvals + xs == t.approvals;
    } else {
      ApprovalsFitStep(t, xs);
      ApprovalsReload(t.(approvals := t.approvals + [xs[0]]), xs[1..]);
      assert (t.approvals + [xs[0]]) + xs[1..] == t.approvals + xs;
    }
  }

  /** The rest of a registry can still be added to `t`. */
  predicate PoliciesFit(t: State, ps: seq<Constraint>) {
    && (forall i, j :: 0 <= i < j < |ps| ==> ps[i].id != ps[j].id)
    && (forall h, x :: h in t.policies && x in ps ==> h.id != x.id)
    && (forall p :: p in ps ==> PolicyOk(p) && !Has(t.revoked, p.id))
    && (forall g, p :: g in t.grants && p in ps ==> g.id != p.id)
    && (forall a, p :: a in t.approvals && p in ps ==> a.id != p.id)
  }

  lemma PoliciesFitStep(t: State, ps: seq<Constraint>)
    requires ps != [] && PoliciesFit(t, ps)
    ensures AddPolicy(t, ps[0]) == Some(t.(policies := t.policies + [ps[0]]))
    ensures PoliciesFit(t.(policies := t.policies + [ps[0]]), ps[1..])
  {
    assert ps[0] in ps;
    forall x | x in ps[1..] ensures x.id != ps[0].id {
      var j :| 0 <= j < |ps[1..]| && ps[1..][j] == x;
      assert ps[0].id != ps[j + 1].id;
    }
  }

  lemma {:induction false} PoliciesReload(t: State, ps: seq<Constraint>)
    requires PoliciesFit(t, ps)
    ensures AddPolicies(t, ps) == Some(t.(policies := t.policies + ps))
    decreases |ps|
  {
    if ps == [] {
      assert t.policies + ps == t.policies;
    } else {
      PoliciesFitStep(t, ps);
      PoliciesReload(t.(policies := t.policies + [ps[0]]), ps[1..]);
      assert (t.policies + [ps[0]]) + ps[1..] == t.policies + ps;
    }
  }

  lemma {:induction false} PutAllAppends<V>(m: OMap<V>, es: OMap<V>)
    requires WellKeyed(m + es)
    ensures PutAll(m, es) == m + es
    decreases |es|
  {
    if es == [] {
      assert m + es == m;
    } else {
      var all, head := m + es, m + [es[0]];
      assert !Has(m, es[0].0) by {
        forall i | 0 <= i < |m| ensures m[i].0 != es[0].0 {
          assert all[i].0 != all[|m|].0;
        }
      }
      PutFresh(m, es[0].0, es[0].1);
      assert head + es[1..] == all;
      PutAllAppends(head, es[1..]);
    }
  }

  lemma PutAllRebuilds<V>(m: OMap<V>)
    requires WellKeyed(m)
    ensures PutAll([], m) == m
  {
    assert [] + m == m;
    PutAllAppends([], m);
  }

  lemma {:induction false} MembersOfSet(xs: seq<Text>)
    requires Distinct(xs)
    ensures Members(xs) == xs
    decreases |xs|
  {
    if xs == [] {
    } else {
      var before := ButLast(xs);
      assert xs == before + [Last(xs)];
      MembersOfSet(before);
      assert Last(xs) !in before;
    }
  }

  lemma {:induction false} IssuedRebuild(es: seq<(Text, seq<Text>)>)
    requires forall e :: e in es ==> Distinct(e.1)
    ensures IssuedSets(es) == es
    decreases |es|
  {
    if es == [] {
    } else {
      assert es[0] in es;
      MembersOfSet(es[0].1);
      IssuedRebuild(es[1..]);
      assert es == [es[0]] + es[1..];
    }
  }

  lemma DistinctAppend<T>(a: seq<T>, b: seq<T>)
    requires Distinct(a) && Distinct(b)
    requires forall x :: x in a ==> x !in b
    ensures Distinct(a + b)
  {
    var c := a + b;
    forall i, j | 0 <= i < j < |c| ensures c[i] != c[j] {
      if i < |a| <= j { assert c[i] == a[i] && c[j] == b[j - |a|] && a[i] in a && b[j - |a|] in b; }
    }
  }

  lemma DistinctSnapshotIds(s: State)
    requires DistinctIds(s)
    ensures Distinct(SnapshotIds(TakeSnapshot(s)))
  {
    var g := seq(|s.grants|, i requires 0 <= i < |s.grants| => s.grants[i].id);
    var a := seq(|s.approvals|, i requires 0 <= i < |s.approvals| => s.approvals[i].id);
    var p := seq(|s.policies|, i requires 0 <= i < |s.policies| => s.policies[i].id);
    forall x | x in g ensures x !in a && x !in p {
      var i :| 0 <= i < |g| && g[i] == x;
      assert s.grants[i] in s.grants;
      forall j | 0 <= j < |a| ensures a[j] != x { assert s.approvals[j] in s.approvals; }
      forall j | 0 <= j < |p| ensures p[j] != x { assert s.policies[j] in s.policies; }
    }
    forall x | x in a ensures x !in p {
      var i :| 0 <= i < |a| && a[i] == x;
      assert s.approvals[i] in s.approvals;
      forall j | 0 <= j < |p| ensures p[j] != x { assert s.policies[j] in s.policies; }
    }
    DistinctAppend(g, a);
    DistinctAppend(g + a, p);
    assert SnapshotIds(TakeSnapshot(s)) == g + a + p;
  }

  // ---------------------------------------------------------------- the identity

  function Base(s: State): State { FRESH.(revision := s.revision, lineage := true) }

  function GrantsLoaded(s: State): State { Base(s).(grants := s.grants) }

  function ApprovalsLoaded(s: State): State { GrantsLoaded(s).(approvals := s.approvals, revoked := s.revoked) }

  lemma GrantsStage(s: State)
    requires Valid(s)
    ensures AddGrants(Base(s), s.grants) == Some(GrantsLoaded(s))
  {
    GrantsReload(Base(s), s.grants);
    assert [] + s.grants == s.grants;
  }

  lemma ApprovalsStage(s: State)
    requires Valid(s)
    ensures AddApprovals(GrantsLoaded(s), s.approvals) == Some(GrantsLoaded(s).(approvals := s.approvals))
  {
    ApprovalsReload(GrantsLoaded(s), s.approvals);
    assert [] + s.approvals == s.approvals;
  }

  lemma PoliciesStage(s: State)
    requires Valid(s)
    ensures AddPolicies(ApprovalsLoaded(s), s.policies) == Some(ApprovalsLoaded(s).(policies := s.policies))
  {
    PoliciesReload(ApprovalsLoaded(s), s.policies);
    assert [] + s.policies == s.policies;
  }

  /** A restored instance is the one the snapshot was taken of, now with durable lineage. */
  lemma RestoreIsIdentity(s: State)
    requires Valid(s)
    ensures Restore(TakeSnapshot(s)) == Some(s.(lineage := true))
  {
    DistinctSnapshotIds(s);
    GrantsStage(s);
    ApprovalsStage(s);
    PoliciesStage(s);
    PutAllRebuilds(s.revoked);
    PutAllRebuilds(s.used);
    IssuedRebuild(s.issued);
    PutAllRebuilds(s.issued);
    assert AdoptRevision(FRESH, s.revision) == Some(Base(s));
  }

  /** Everything a program can do to an instance, the store layer included. */
  datatype Act = Call(op: Op) | Adopt(rev: int) | Reload

  function Perform(s: State, act: Act): State {
    match act
    case Call(op) => Apply(s, op)
    case Adopt(rev) => Settle(s, AdoptRevision(s, rev))
    case Reload => Settle(s, Restore(TakeSnapshot(s)))
  }

  function Reached(acts: seq<Act>): State {
    if acts == [] then FRESH else Perform(Reached(ButLast(acts)), Last(acts))
  }

  lemma StampKeepsValid(s: State, rev: nat)
    requires Valid(s)
    ensures Valid(s.(revision := rev, lineage := true))
  {}

  lemma PerformKeepsValid(s: State, act: Act)
    requires Valid(s)
    ensures Valid(Perform(s, act))
  {
    match act
    case Call(op) => ApplyKeepsValid(s, op);
    case Adopt(rev) => if rev >= 0 { StampKeepsValid(s, rev); }
    case Reload => RestoreIsIdentity(s); StampKeepsValid(s, s.revision);
  }

  lemma {:induction false} ReachedValid(acts: seq<Act>)
    ensures Valid(Reached(acts))
    decreases |acts|
  {
    if acts == [] {
      FreshValid();
    } else {
      ReachedValid(ButLast(acts));
      PerformKeepsValid(Reached(ButLast(acts)), Last(acts));
    }
  }

  /** For every reachable instance, restore succeeds and reproduces all six maps and the revision. */
  lemma ReachableRestores(acts: seq<Act>)
    ensures var s := Reached(acts); Restore(TakeSnapshot(s)) == Some(s.(lineage := true))
  {
    ReachedValid(acts);
    RestoreIsIdentity(Reached(acts));
  }

  /** No reachable instance has charged an authority beyond its limit. */
  lemma ReachableUsesBounded(acts: seq<Act>)
    ensures var s := Reached(acts);
      && (forall g :: g in s.grants && g.maxUses.Some? ==> Uses(s, g.id) <= g.maxUses.value)
      && (forall a :: a in s.approvals ==> Uses(s, a.id) <= a.maxUses)
  {
    ReachedValid(acts);
  }
}
