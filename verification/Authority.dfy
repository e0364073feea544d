/** The mutable authority engine (class `Authority`, src/core/authority.ts), refining AuthorityState. */
module AuthorityEngine {
  import opened Basics
  import opened Coverage
  import opened OrderedMap
  import opened AuthorityTerms
  import opened AuthorityState

  class Authority {
    var grants: seq<Grant>
    var approvals: seq<Approval>
    var policies: seq<Constraint>
    var revoked: OMap<Option<int>>
    var used: OMap<int>
    var issued: OMap<seq<Text>>
    var snapshotRevision: int
    var knownLineage: bool

    function Value(): State
      reads this
    {
      State(grants, approvals, policies, revoked, used, issued, snapshotRevision, knownLineage)
    }

    constructor ()
      ensures Value() == FRESH
    {
      grants, approvals, policies, revoked, used, issued := [], [], [], [], [], [];
      snapshotRevision, knownLineage := 0, false;
    }

    /** checkDuplicateId: ids are global across grants, approvals and policies. */
    method IsRegistered(id: Text) returns (taken: bool)
      ensures taken <==> Registered(Value(), id)
    {
      taken := (exists g :: g in grants && g.id == id)
        || (exists a :: a in approvals && a.id == id)
        || (exists p :: p in policies && p.id == id);
    }

    method AddGrant(g: Grant) returns (ok: bool)
      modifies this
      ensures ok <==> AuthorityState.AddGrant(old(Value()), g).Some?
      ensures Value() == Settle(old(Value()), AuthorityState.AddGrant(old(Value()), g))
    {
      var taken := IsRegistered(g.id);
      ok := !taken && GrantOk(g);
      if ok { grants := grants + [g]; }
    }

    method AddApproval(a: Approval) returns (ok: bool)
      modifies this
      ensures ok <==> AuthorityState.AddApproval(old(Value()), a).Some?
      ensures Value() == Settle(old(Value()), AuthorityState.AddApproval(old(Value()), a))
    {
      var taken := IsRegistered(a.id);
      ok := !taken && ApprovalOk(a);
      if ok { approvals := approvals + [a]; }
    }

    method CreateApproval(p: ApprovalParams, now: int) returns (minted: Option<Approval>)
      modifies this
      ensures minted == if AuthorityState.CreateApproval(old(Value()), p, now).Some? then Some(Minted(p, now)) else None
      ensures Value() == Settle(old(Value()), AuthorityState.CreateApproval(old(Value()), p, now))
    {
      if !ParamsOk(p) { return None; }
      var op := BoundOperation(p.principal, p.actor, p.chain, p.action, p.resource, Some(OrElse(p.context, map[])),
                               p.purpose);
      var approval := Approval(p.id, p.principal, p.actor, p.chain, p.action, p.resource, p.context, p.purpose, p.binding,
                               DigestFor(op, p.binding), now + p.ttlSec.Floor, OrElse(p.maxUses, 1));
      var ok := AddApproval(approval);
      minted := if ok then Some(approval) else None;
    }

    method AddPolicy(p: Constraint) returns (ok: bool)
      modifies this
      ensures ok <==> AuthorityState.AddPolicy(old(Value()), p).Some?
      ensures Value() == Settle(old(Value()), AuthorityState.AddPolicy(old(Value()), p))
    {
      var taken := IsRegistered(p.id);
      ok := !taken && !Has(revoked, p.id) && PolicyOk(p);
      if ok { policies := policies + [p]; }
    }

    method NoteIssued(authorityId: Text, capabilityId: Text)
      modifies this
      ensures Value() == AuthorityState.NoteIssued(old(Value()), authorityId, capabilityId)
    {
      var ids := Get(issued, authorityId, []);
      if capabilityId !in ids { ids := ids + [capabilityId]; }
      issued := Put(issued, authorityId, ids);
    }

    /** `derived` is what the revocation fans out to. */
    method Revoke(id: Text, exp: Option<int>) returns (ok: bool, derived: seq<Text>)
      modifies this
      ensures ok <==> AuthorityState.Revoke(old(Value()), id, exp).Some?
      ensures Value() == Settle(old(Value()), AuthorityState.Revoke(old(Value()), id, exp))
      ensures derived == if ok then Get(old(issued), id, []) else []
    {
      if exists p :: p in policies && p.id == id { return false, []; }
      revoked := Put(revoked, id, exp);
      return true, Get(issued, id, []);
    }

    method DisablePolicy(id: Text) returns (ok: bool)
      modifies this
      ensures ok <==> AuthorityState.DisablePolicy(old(Value()), id).Some?
      ensures Value() == Settle(old(Value()), AuthorityState.DisablePolicy(old(Value()), id))
    {
      ok := exists p :: p in policies && p.id == id;
      if ok {
        policies := Without(policies, id);
        revoked := Put(revoked, id, None);
      }
    }

    method Prune(now: int)
      modifies this
      ensures Value() == AuthorityState.Prune(old(Value()), now)
    {
      var kept: OMap<Option<int>> := [];
      for i := 0 to |revoked|
        invariant PruneRevoked(revoked, now) == kept + PruneRevoked(revoked[i..], now)
        invariant Value() == old(Value())
      {
        assert revoked[i..][1..] == revoked[i + 1..];
        var stale := revoked[i].1.Some? && now > revoked[i].1.value + SKEW;
        if !stale { kept := kept + [revoked[i]]; }
      }
      revoked := kept;
    }

    method AdoptRevision(rev: int) returns (ok: bool)
      modifies this
      ensures ok <==> AuthorityState.AdoptRevision(old(Value()), rev).Some?
      ensures Value() == Settle(old(Value()), AuthorityState.AdoptRevision(old(Value()), rev))
    {
      ok := rev >= 0;
      if ok { snapshotRevision, knownLineage := rev, true; }
    }

    method TakeSnapshot() returns (snap: Snapshot)
      ensures snap == AuthorityState.TakeSnapshot(Value())
    {
      snap := Snapshot(grants, approvals, policies, revoked, used, issued, snapshotRevision);
    }

    // -------------------------------------------------------------- evaluate, loop by loop

    method CollectApprovals(d: Demand) returns (scan: ApprovalScan)
      ensures scan == ScanApprovals(approvals, d)
    {
      var hits: seq<Approval>, mismatch: Option<Text>, miss: Option<Miss> := [], None, None;
      for i := 0 to |approvals|
        invariant ApprovalScan(hits, mismatch, miss) == ScanApprovals(approvals[..i], d)
      {
        assert ButLast(approvals[..i + 1]) == approvals[..i];
        var a := approvals[i];
        if !ApprovalIdentity(a, d, false) {
          if miss.None? && ApprovalIdentity(a, d, true) { miss := Some(Miss(ByApproval, a.id)); }
        } else if !ApprovalExact(a, d) {
          mismatch := Some(a.id);
        } else {
          hits := hits + [a];
        }
      }
      assert approvals[..|approvals|] == approvals;
      scan := ApprovalScan(hits, mismatch, miss);
    }

    method CollectGrants(d: Demand, now: int, firstMiss: Option<Miss>) returns (scan: GrantScan)
      ensures scan == ScanGrants(Value(), grants, d, now, firstMiss)
    {
      var hits: seq<Grant>, blocked: Option<Decision>, miss := [], None, firstMiss;
      for i := 0 to |grants|
        invariant GrantScan(hits, blocked, miss) == ScanGrants(Value(), grants[..i], d, now, firstMiss)
      {
        assert ButLast(grants[..i + 1]) == grants[..i];
        var g := grants[i];
        if !GrantMatches(g, d, false) {
          if miss.None? && GrantMatches(g, d, true) { miss := Some(Miss(ByGrant, g.id)); }
        } else {
          var why := GrantBlock(Value(), g, now);
          if why.Some? { blocked := why; } else { hits := hits + [g]; }
        }
      }
      assert grants[..|grants|] == grants;
      scan := GrantScan(hits, blocked, miss);
    }

    method CollectUsable(xs: seq<Approval>, now: int, firstBlocked: Option<Decision>) returns (scan: HitScan)
      ensures scan == ScanHits(Value(), xs, now, firstBlocked)
    {
      var usable: seq<Approval>, blocked := [], firstBlocked;
      for i := 0 to |xs|
        invariant HitScan(usable, blocked) == ScanHits(Value(), xs[..i], now, firstBlocked)
      {
        assert ButLast(xs[..i + 1]) == xs[..i];
        var why := ApprovalBlock(Value(), xs[i], now);
        if why.Some? { blocked := why; } else { usable := usable + [xs[i]]; }
      }
      assert xs[..|xs|] == xs;
      scan := HitScan(usable, blocked);
    }

    method ApplyPolicies(d: Demand, now: int) returns (applicable: seq<Constraint>, failing: Option<Text>)
      ensures applicable == Applicable(policies, d) && failing == FirstFailing(applicable, d, now)
    {
      applicable := [];
      for i := 0 to |policies|
        invariant applicable == Applicable(policies[..i], d)
      {
        assert ButLast(policies[..i + 1]) == policies[..i];
        if PolicyApplies(policies[i], d) { applicable := applicable + [policies[i]]; }
      }
      assert policies[..|policies|] == policies;
      for i := 0 to |applicable|
        invariant FirstFailing(applicable, d, now) == FirstFailing(applicable[i..], d, now)
      {
        assert applicable[i..][1..] == applicable[i + 1..];
        if !PolicyHolds(applicable[i], d, now) { return applicable, Some(applicable[i].id); }
      }
      failing := None;
    }

    /** The decision alone; nothing changes. */
    method DecideNow(d: Demand, now: int, binding: Option<Binding>) returns (r: Decision)
      ensures r == Decide(Value(), d, now, binding)
    {
      var found := CollectApprovals(d);
      var granted := CollectGrants(d, now, found.miss);
      var hit := CollectUsable(found.hits, now, granted.blocked);
      if |hit.usable| == 0 && |granted.hits| == 0 {
        if found.mismatch.Some? { return Deny(Terms, Plain, found.mismatch, None); }
        if hit.blocked.Some? { return hit.blocked.value; }
        if granted.miss.Some? { return Deny(NoAuthority, ActorMismatch(granted.miss.value), None, None); }
        return Deny(NoAuthority, Plain, None, None);
      }
      var applicable, failing := ApplyPolicies(d, now);
      if failing.Some? { return Deny(Forbidden, Plain, None, failing); }
      if |hit.usable| > 0 {
        r := Allow(hit.usable[0].id, ByApproval, PolicyIds(applicable), binding);
      } else {
        r := Allow(granted.hits[0].id, ByGrant, PolicyIds(applicable), binding);
      }
    }

    /** None is a throw: malformed ingress or binding. */
    method Evaluate(q: Request, consume: bool) returns (r: Option<Decision>)
      modifies this
      ensures r == AuthorityState.Evaluate(old(Value()), q)
      ensures Value() == AfterEvaluate(old(Value()), q, consume)
    {
      if !RequestOk(q) { return None; }
      var bound := BoundOperation(q.ingress.principal, q.ingress.id, q.ingress.chain,
                                  q.operation.action, q.operation.resource, q.operation.context, q.operation.purpose);
      var d := Demand(bound, DigestFor(bound, q.binding));
      var decision := DecideNow(d, q.now, q.binding);
      if consume && decision.Allow? {
        used := Put(used, decision.authorityId, Get(used, decision.authorityId, 0) + 1);
      }
      return Some(decision);
    }

    // -------------------------------------------------------------- restore, loop by loop

    method LoadGrants(gs: seq<Grant>) returns (ok: bool)
      modifies this
      ensures ok <==> AddGrants(old(Value()), gs).Some?
      ensures ok ==> Value() == AddGrants(old(Value()), gs).value
    {
      for i := 0 to |gs|
        invariant AddGrants(old(Value()), gs) == AddGrants(Value(), gs[i..])
      {
        assert gs[i..][1..] == gs[i + 1..];
        var added := AddGrant(gs[i]);
        if !added { return false; }
      }
      ok := true;
    }

    method LoadApprovals(xs: seq<Approval>) returns (ok: bool)
      modifies this
      ensures ok <==> AddApprovals(old(Value()), xs).Some?
      ensures ok ==> Value() == AddApprovals(old(Value()), xs).value
    {
      for i := 0 to |xs|
        invariant AddApprovals(old(Value()), xs) == AddApprovals(Value(), xs[i..])
      {
        assert xs[i..][1..] == xs[i + 1..];
        var added := AddApproval(xs[i]);
        if !added { return false; }
      }
      ok := true;
    }

    method LoadPolicies(ps: seq<Constraint>) returns (ok: bool)
      modifies this
      ensures ok <==> AddPolicies(old(Value()), ps).Some?
      ensures ok ==> Value() == AddPolicies(old(Value()), ps).value
    {
      for i := 0 to |ps|
        invariant AddPolicies(old(Value()), ps) == AddPolicies(Value(), ps[i..])
      {
        assert ps[i..][1..] == ps[i + 1..];
        var added := AddPolicy(ps[i]);
        if !added { return false; }
      }
      ok := true;
    }
  }

  /** Rebuild an instance through the same gates as live input; null when any gate throws. */
  method RestoreAuthority(snap: Snapshot) returns (auth: Authority?)
    ensures auth == null <==> Restore(snap).None?
    ensures auth != null ==> fresh(auth) && auth.Value() == Restore(snap).value
  {
    var a := new Authority();
    var adopted := a.AdoptRevision(snap.revision);
    if !adopted || !Distinct(SnapshotIds(snap)) { return null; }
    var ok := a.LoadGrants(snap.grants);
    if !ok { return null; }
    ok := a.LoadApprovals(snap.approvals);
    if !ok { return null; }
    a.revoked := PutAll([], snap.revoked);
    ok := a.LoadPolicies(snap.policies);
    if !ok { return null; }
    if exists e :: e in snap.used && e.1 < 0 { return null; }
    a.used := PutAll([], snap.used);
    a.issued := PutAll([], IssuedSets(snap.issued));
    auth := a;
  }
}
