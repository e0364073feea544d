/**
 * Retired policy ids (`disablePolicy`, src/core/authority.ts) over whole runs: exactly when such an
 * id can be registered again, as a policy and as anything else.
 */
module AuthorityRetirement {
  import opened Basics
  import opened Coverage
  import opened OrderedMap
  import opened AuthorityTerms
  import opened AuthorityState
  import opened AuthorityLaws
  import opened AuthoritySnapshots

  /** The policy is gone and its id is revoked for good. */
  predicate Retired(s: State, id: Text) {
    !PolicyId(s, id) && Entry(s, id) == Permanent
  }

  /** What the revocations say about an id. */
  datatype Mark = Gone | Permanent | Expiring(exp: int)

  function MarkFor(exp: Option<int>): Mark { if exp.Some? then Expiring(exp.value) else Permanent }

  function Entry(s: State, id: Text): Mark {
    if Has(s.revoked, id) then MarkFor(Get(s.revoked, id, None)) else Gone
  }

  // ---------------------------------------------------------------- one act

  /** The act writes the entry of this id: an accepted revocation, or the retirement of a live policy. */
  predicate Rewrites(s: State, act: Act, id: Text) {
    && act.Call?
    && ((act.op.OpRevoke? && act.op.id == id && !PolicyId(s, id))
        || (act.op.OpDisablePolicy? && act.op.id == id && PolicyId(s, id)))
  }

  function Written(act: Act): Mark
    requires act.Call? && (act.op.OpRevoke? || act.op.OpDisablePolicy?)
  {
    if act.op.OpRevoke? then MarkFor(act.op.exp) else Permanent
  }

  /** The act prunes past an expiry and its skew. */
  predicate PrunesPast(act: Act, exp: int) { act.Call? && act.op.OpPrune? && act.op.at > exp + SKEW }

  function NextMark(s: State, act: Act, id: Text): Mark {
    var m := Entry(s, id);
    if Rewrites(s, act, id) then Written(act)
    else if m.Expiring? && PrunesPast(act, m.exp) then Gone
    else m
  }

  lemma PutEntry(s: State, t: State, k: Text, v: Option<int>, id: Text)
    requires t.revoked == Put(s.revoked, k, v)
    ensures Entry(t, id) == if k == id then MarkFor(v) else Entry(s, id)
  {
    PutKeys(s.revoked, k, v);
    PutGet(s.revoked, k, v, id, None);
  }

  lemma {:induction false} PrunedEntry(r: OMap<Option<int>>, now: int, id: Text)
    requires WellKeyed(r)
    ensures var p := PruneRevoked(r, now);
      if Has(r, id) && !Stale(Get(r, id, None), now) then Has(p, id) && Get(p, id, None) == Get(r, id, None) else !Has(p, id)
  {
    if r == [] {
    } else {
      TailWellKeyed(r);
      PrunedEntry(r[1..], now, id);
      assert r == [r[0]] + r[1..];
      ConsHas(r[0], r[1..], id);
      ConsHas(r[0], PruneRevoked(r[1..], now), id);
      if r[0].0 == id { HeadOnly(r); }
    }
  }

  lemma HeadOnly<V>(m: OMap<V>)
    requires WellKeyed(m) && m != []
    ensures !Has(m[1..], m[0].0)
  {
    forall i | 0 <= i < |m[1..]| ensures m[1..][i].0 != m[0].0 { assert m[1..][i] == m[i + 1]; }
  }

  /** Everything that can be done to an instance moves the entry as specified. */
  lemma PerformMarks(s: State, act: Act, id: Text)
    requires Valid(s)
    ensures Entry(Perform(s, act), id) == NextMark(s, act, id)
  {
    match act
    case Adopt(_) =>
    case Reload => RestoreIsIdentity(s);
    case Call(op) =>
      match op
      case OpRevoke(k, exp) => if !PolicyId(s, k) { PutEntry(s, Apply(s, op), k, exp, id); }
      case OpDisablePolicy(k) => if PolicyId(s, k) { PutEntry(s, Apply(s, op), k, None, id); }
      case OpPrune(now) => PrunedEntry(s.revoked, now, id);
      case _ => OtherCallsKeepRevoked(s, op);
  }

  lemma OtherCallsKeepRevoked(s: State, op: Op)
    requires !op.OpRevoke? && !op.OpDisablePolicy? && !op.OpPrune?
    ensures Apply(s, op).revoked == s.revoked
  {}

  // ---------------------------------------------------------------- whole runs

  function After(s: State, acts: seq<Act>): State {
    if acts == [] then s else Perform(After(s, ButLast(acts)), Last(acts))
  }

  /** The expiry that the run's last writing of the entry gave it; None when it gave none. */
  function LastExpiry(s: State, acts: seq<Act>, id: Text): Option<int> {
    if acts == [] then None
    else if Rewrites(After(s, ButLast(acts)), Last(acts), id) then
      (if Written(Last(acts)).Expiring? then Some(Written(Last(acts)).exp) else None)
    else LastExpiry(s, ButLast(acts), id)
  }

  /**
   * The run last wrote the entry by a revocation with an expiry, and later pruned past that expiry
   * plus the skew.
   */
  predicate Freed(s: State, acts: seq<Act>, id: Text) {
    && acts != []
    && !Rewrites(After(s, ButLast(acts)), Last(acts), id)
    && (Freed(s, ButLast(acts), id)
        || (LastExpiry(s, ButLast(acts), id).Some? && PrunesPast(Last(acts), LastExpiry(s, ButLast(acts), id).value)))
  }

  lemma {:induction false} AfterValid(s: State, acts: seq<Act>)
    requires Valid(s)
    ensures Valid(After(s, acts))
    decreases |acts|
  {
    if acts == [] {
    } else {
      AfterValid(s, ButLast(acts));
      PerformKeepsValid(After(s, ButLast(acts)), Last(acts));
    }
  }

  /** What the entry is after a run from a retired state. */
  lemma {:induction false} EntryAfter(s: State, acts: seq<Act>, id: Text)
    requires Valid(s) && Retired(s, id)
    ensures Entry(After(s, acts), id) == if Freed(s, acts, id) then Gone else MarkFor(LastExpiry(s, acts, id))
    decreases |acts|
  {
    if acts == [] {
    } else {
      var u := After(s, ButLast(acts));
      EntryAfter(s, ButLast(acts), id);
      AfterValid(s, ButLast(acts));
      PerformMarks(u, Last(acts), id);
    }
  }

  lemma AddPolicyExactly(s: State, p: Constraint)
    requires PolicyOk(p)
    ensures AddPolicy(s, p).Some? <==> !Registered(s, p.id) && Entry(s, p.id).Gone?
  {}

  /**
   * After any run from a retired state - calls, reloads and adopted revisions - a well-formed policy
   * under the id is accepted if and only if the id is unregistered and the run revoked it with an
   * expiry and later pruned past it.
   */
  lemma {:induction false} RetiredIdReturnsExactly(s: State, acts: seq<Act>, p: Constraint)
    requires Valid(s) && Retired(s, p.id) && PolicyOk(p)
    ensures AddPolicy(After(s, acts), p).Some? <==> !Registered(After(s, acts), p.id) && Freed(s, acts, p.id)
  {
    EntryAfter(s, acts, p.id);
    AddPolicyExactly(After(s, acts), p);
  }

  predicate RevokedWithExpiry(acts: seq<Act>, id: Text) {
    exists a :: a in acts && a.Call? && a.op.OpRevoke? && a.op.id == id && a.op.exp.Some?
  }

  lemma {:induction false} NoExpiryNeverFreed(s: State, acts: seq<Act>, id: Text)
    requires !RevokedWithExpiry(acts, id)
    ensures LastExpiry(s, acts, id).None? && !Freed(s, acts, id)
    decreases |acts|
  {
    if acts == [] {
    } else {
      assert acts == ButLast(acts) + [Last(acts)];
      NoExpiryNeverFreed(s, ButLast(acts), id);
    }
  }

  /** Through any run that never revokes it with an expiry, a retired id is refused as a policy. */
  lemma RetirementKept(s: State, acts: seq<Act>, p: Constraint)
    requires Valid(s) && Retired(s, p.id) && !RevokedWithExpiry(acts, p.id)
    ensures AddPolicy(After(s, acts), p).None?
  {
    if PolicyOk(p) {
      RetiredIdReturnsExactly(s, acts, p);
      NoExpiryNeverFreed(s, acts, p.id);
    }
  }

  /** The exception is real: revoke with an expiry, prune later, and the id registers again. */
  lemma RetirementUndone(s: State, p: Constraint, exp: int)
    requires Valid(s) && Retired(s, p.id) && PolicyOk(p) && !Registered(s, p.id)
    ensures AddPolicy(After(s, [Call(OpRevoke(p.id, Some(exp))), Call(OpPrune(exp + SKEW + 1))]), p).Some?
  {
    var revoke, prune := Call(OpRevoke(p.id, Some(exp))), Call(OpPrune(exp + SKEW + 1));
    var acts := [revoke, prune];
    assert ButLast(acts) == [revoke] && ButLast([revoke]) == [];
    assert After(s, [revoke]) == Perform(s, revoke);
    assert LastExpiry(s, [revoke], p.id) == Some(exp);
    RetiredIdReturnsExactly(s, acts, p);
  }

  // ---------------------------------------------------------------- grants and approvals under a retired id

  /**
   * The second way back: a retired id is only closed to policies. A well-formed grant is accepted
   * under it unless a grant or approval has the id already - and is blocked as revoked from birth.
   */
  lemma RetiredIdTakesGrants(s: State, g: Grant, now: int)
    requires Retired(s, g.id) && GrantOk(g)
    ensures AddGrant(s, g).Some? <==> !GrantId(s, g.id) && !ApprovalId(s, g.id)
    ensures AddGrant(s, g).Some? ==>
      GrantBlock(AddGrant(s, g).value, g, now) == Some(Deny(Reason.Revoked, Plain, Some(g.id), None))
  {}

  lemma RetiredIdTakesApprovals(s: State, a: Approval, now: int)
    requires Retired(s, a.id) && ApprovalOk(a)
    ensures AddApproval(s, a).Some? <==> !GrantId(s, a.id) && !ApprovalId(s, a.id)
    ensures AddApproval(s, a).Some? ==>
      ApprovalBlock(AddApproval(s, a).value, a, now) == Some(Deny(Reason.Revoked, Plain, Some(a.id), None))
  {}

  /** Blocked as revoked means that the id still has an entry. */
  lemma BlockedIsEntered(s: State, g: Grant, now: int)
    ensures GrantBlock(s, g, now) == Some(Deny(Reason.Revoked, Plain, Some(g.id), None)) <==> !Entry(s, g.id).Gone?
  {}

  lemma ApprovalBlockedIsEntered(s: State, a: Approval, now: int)
    ensures ApprovalBlock(s, a, now) == Some(Deny(Reason.Revoked, Plain, Some(a.id), None)) <==> !Entry(s, a.id).Gone?
  {}

  /**
   * After any run from a retired state, a grant registered under the id comes back to life if and
   * only if the run revoked the id with an expiry and later pruned past it, at whatever time it asks.
   */
  lemma {:induction false} RetiredIdGrantLivesExactly(s: State, acts: seq<Act>, g: Grant, now: int)
    requires Valid(s) && Retired(s, g.id) && g in After(s, acts).grants
    ensures GrantBlock(After(s, acts), g, now) == Some(Deny(Reason.Revoked, Plain, Some(g.id), None))
       <==> !Freed(s, acts, g.id)
  {
    EntryAfter(s, acts, g.id);
    BlockedIsEntered(After(s, acts), g, now);
  }

  lemma {:induction false} RetiredIdApprovalLivesExactly(s: State, acts: seq<Act>, a: Approval, now: int)
    requires Valid(s) && Retired(s, a.id) && a in After(s, acts).approvals
    ensures ApprovalBlock(After(s, acts), a, now) == Some(Deny(Reason.Revoked, Plain, Some(a.id), None))
       <==> !Freed(s, acts, a.id)
  {
    EntryAfter(s, acts, a.id);
    ApprovalBlockedIsEntered(After(s, acts), a, now);
  }
}
