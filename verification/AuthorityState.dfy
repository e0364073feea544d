/**
 * The authority engine on values: its six maps, the registration operations, the decision of
 * `evaluate`, and snapshots (src/core/authority.ts). The class in Authority.dfy refines it.
 */
module AuthorityState {
  import opened Basics
  import opened Coverage
  import opened OrderedMap
  import opened AuthorityTerms

  /**
   * The registries hold their values in insertion order, each under its own id. `lineage` says
   * the instance descends from a durable read or write.
   */
  datatype State = State(
    grants: seq<Grant>, approvals: seq<Approval>, policies: seq<Constraint>,
    revoked: OMap<Option<int>>, used: OMap<int>, issued: OMap<seq<Text>>,
    revision: int, lineage: bool)

  const FRESH := State([], [], [], [], [], [], 0, false)

  predicate GrantId(s: State, id: Text) { exists g :: g in s.grants && g.id == id }

  predicate ApprovalId(s: State, id: Text) { exists a :: a in s.approvals && a.id == id }

  predicate PolicyId(s: State, id: Text) { exists p :: p in s.policies && p.id == id }

  predicate Registered(s: State, id: Text) {
    GrantId(s, id) || ApprovalId(s, id) || PolicyId(s, id)
  }

  // ---------------------------------------------------------------- registration; None is a throw

  function AddGrant(s: State, g: Grant): Option<State> {
    if Registered(s, g.id) || !GrantOk(g) then None else Some(s.(grants := s.grants + [g]))
  }

  function AddApproval(s: State, a: Approval): Option<State> {
    if Registered(s, a.id) || !ApprovalOk(a) then None else Some(s.(approvals := s.approvals + [a]))
  }

  function AddPolicy(s: State, p: Constraint): Option<State> {
    if Registered(s, p.id) || Has(s.revoked, p.id) || !PolicyOk(p) then None
    else Some(s.(policies := s.policies + [p]))
  }

  datatype ApprovalParams = ApprovalParams(
    id: Text, principal: Text, actor: Text, chain: Option<seq<Text>>, action: Action, resource: Resource,
    context: Option<Bag>, purpose: Option<Text>, binding: Option<Binding>, ttlSec: real, maxUses: Option<int>)

  predicate ParamsOk(p: ApprovalParams) {
    && p.id != [] && p.principal != [] && p.actor != []
    && p.ttlSec > 0.0 && p.ttlSec == p.ttlSec.Floor as real
    && (p.maxUses.Some? ==> p.maxUses.value >= 1)
    && ActionNameOk(p.action.name)
    && BindingOk(p.binding)
  }

  /** The operation an approval is minted for: a missing context is an empty one. */
  function MintedOperation(p: ApprovalParams): BoundOperation {
    BoundOperation(p.principal, p.actor, p.chain, p.action, p.resource, Some(OrElse(p.context, map[])), p.purpose)
  }

  function Minted(p: ApprovalParams, now: int): Approval {
    Approval(p.id, p.principal, p.actor, p.chain, p.action, p.resource, p.context, p.purpose, p.binding,
             DigestFor(MintedOperation(p), p.binding), now + p.ttlSec.Floor, OrElse(p.maxUses, 1))
  }

  function CreateApproval(s: State, p: ApprovalParams, now: int): Option<State> {
    if !ParamsOk(p) then None else AddApproval(s, Minted(p, now))
  }

  // ---------------------------------------------------------------- retirement

  function Revoke(s: State, id: Text, exp: Option<int>): Option<State> {
    if PolicyId(s, id) then None else Some(s.(revoked := Put(s.revoked, id, exp)))
  }

  function Without(ps: seq<Constraint>, id: Text): seq<Constraint> {
    if ps == [] then []
    else if ps[0].id == id then Without(ps[1..], id)
    else [ps[0]] + Without(ps[1..], id)
  }

  function DisablePolicy(s: State, id: Text): Option<State> {
    if !PolicyId(s, id) then None
    else Some(s.(policies := Without(s.policies, id), revoked := Put(s.revoked, id, None)))
  }

  function PruneRevoked(r: OMap<Option<int>>, now: int): OMap<Option<int>> {
    if r == [] then []
    else if Stale(r[0].1, now) then PruneRevoked(r[1..], now)
    else [r[0]] + PruneRevoked(r[1..], now)
  }

  function Prune(s: State, now: int): State {
    s.(revoked := PruneRevoked(s.revoked, now))
  }

  function AddMember(xs: seq<Text>, x: Text): seq<Text> {
    if x in xs then xs else xs + [x]
  }

  function NoteIssued(s: State, authorityId: Text, capabilityId: Text): State {
    s.(issued := Put(s.issued, authorityId, AddMember(Get(s.issued, authorityId, []), capabilityId)))
  }

  function AdoptRevision(s: State, rev: int): Option<State> {
    if rev < 0 then None else Some(s.(revision := rev, lineage := true))
  }

  // ---------------------------------------------------------------- deciding

  datatype Kind = ByGrant | ByApproval

  datatype Miss = Miss(kind: Kind, id: Text)

  datatype Reason = NoAuthority | Forbidden | Expired | UsesExhausted | Revoked | Terms

  datatype Detail = Plain | UntilExp(exp: int) | FromNbf(nbf: int) | ActorMismatch(miss: Miss)

  datatype Decision =
    | Allow(authorityId: Text, kind: Kind, policyIds: seq<Text>, binding: Option<Binding>)
    | Deny(reason: Reason, detail: Detail, authorityId_: Option<Text>, policyId: Option<Text>)

  function Uses(s: State, id: Text): int { Get(s.used, id, 0) }

  /** Why a matching grant cannot be used now. */
  function GrantBlock(s: State, g: Grant, now: int): Option<Decision> {
    if Has(s.revoked, g.id) then Some(Deny(Revoked, Plain, Some(g.id), None))
    else if g.exp.Some? && now > g.exp.value + SKEW then Some(Deny(Expired, UntilExp(g.exp.value), Some(g.id), None))
    else if g.nbf.Some? && now < g.nbf.value - SKEW then Some(Deny(Expired, FromNbf(g.nbf.value), Some(g.id), None))
    else if g.maxUses.Some? && Uses(s, g.id) >= g.maxUses.value then Some(Deny(UsesExhausted, Plain, Some(g.id), None))
    else None
  }

  function ApprovalBlock(s: State, a: Approval, now: int): Option<Decision> {
    if Has(s.revoked, a.id) then Some(Deny(Revoked, Plain, Some(a.id), None))
    else if now > a.exp + SKEW then Some(Deny(Expired, UntilExp(a.exp), Some(a.id), None))
    else if Uses(s, a.id) >= a.maxUses then Some(Deny(UsesExhausted, Plain, Some(a.id), None))
    else None
  }

  /** What the loop over approvals collects. */
  datatype ApprovalScan = ApprovalScan(hits: seq<Approval>, mismatch: Option<Text>, miss: Option<Miss>)

  function ScanApprovals(xs: seq<Approval>, d: Demand): ApprovalScan {
    if xs == [] then ApprovalScan([], None, None) else
      var before := ScanApprovals(ButLast(xs), d);
      var a := Last(xs);
      if !ApprovalIdentity(a, d, false) then
        if before.miss.None? && ApprovalIdentity(a, d, true) then before.(miss := Some(Miss(ByApproval, a.id))) else before
      else if !ApprovalExact(a, d) then before.(mismatch := Some(a.id))
      else before.(hits := before.hits + [a])
  }

  /** What the loop over grants collects. */
  datatype GrantScan = GrantScan(hits: seq<Grant>, blocked: Option<Decision>, miss: Option<Miss>)

  function ScanGrants(s: State, xs: seq<Grant>, d: Demand, now: int, miss: Option<Miss>): GrantScan {
    if xs == [] then GrantScan([], None, miss) else
      var before := ScanGrants(s, ButLast(xs), d, now, miss);
      var g := Last(xs);
      if !GrantMatches(g, d, false) then
        if before.miss.None? && GrantMatches(g, d, true) then before.(miss := Some(Miss(ByGrant, g.id))) else before
      else
        var why := GrantBlock(s, g, now);
        if why.Some? then before.(blocked := why) else before.(hits := before.hits + [g])
  }

  /** The loop over exact hits: the usable ones, and the last reason one is not. */
  datatype HitScan = HitScan(usable: seq<Approval>, blocked: Option<Decision>)

  function ScanHits(s: State, xs: seq<Approval>, now: int, blocked: Option<Decision>): HitScan {
    if xs == [] then HitScan([], blocked) else
      var before := ScanHits(s, ButLast(xs), now, blocked);
      var why := ApprovalBlock(s, Last(xs), now);
      if why.Some? then before.(blocked := why) else before.(usable := before.usable + [Last(xs)])
  }

  function Applicable(ps: seq<Constraint>, d: Demand): seq<Constraint> {
    if ps == [] then []
    else if PolicyApplies(Last(ps), d) then Applicable(ButLast(ps), d) + [Last(ps)]
    else Applicable(ButLast(ps), d)
  }

  function FirstFailing(ps: seq<Constraint>, d: Demand, now: int): Option<Text> {
    if ps == [] then None
    else if !PolicyHolds(ps[0], d, now) then Some(ps[0].id)
    else FirstFailing(ps[1..], d, now)
  }

  function PolicyIds(ps: seq<Constraint>): seq<Text> {
    seq(|ps|, i requires 0 <= i < |ps| => ps[i].id)
  }

  /** Nothing usable: mutated terms first, then the last block, then a near miss. */
  function Refusal(mismatch: Option<Text>, blocked: Option<Decision>, miss: Option<Miss>): Decision {
    if mismatch.Some? then Deny(Terms, Plain, mismatch, None)
    else if blocked.Some? then blocked.value
    else if miss.Some? then Deny(NoAuthority, ActorMismatch(miss.value), None, None)
    else Deny(NoAuthority, Plain, None, None)
  }

  function Decide(s: State, d: Demand, now: int, binding: Option<Binding>): Decision {
    var as_ := ScanApprovals(s.approvals, d);
    var gs := ScanGrants(s, s.grants, d, now, as_.miss);
    var hs := ScanHits(s, as_.hits, now, gs.blocked);
    if hs.usable == [] && gs.hits == [] then Refusal(as_.mismatch, hs.blocked, gs.miss)
    else
      var ps := Applicable(s.policies, d);
      var failing := FirstFailing(ps, d, now);
      if failing.Some? then Deny(Forbidden, Plain, None, failing)
      else if hs.usable != [] then Allow(hs.usable[0].id, ByApproval, PolicyIds(ps), binding)
      else Allow(gs.hits[0].id, ByGrant, PolicyIds(ps), binding)
  }

  /** Consumption charges the cited id, and only on allow. */
  function Consumed(s: State, r: Decision): State {
    if r.Allow? then s.(used := Put(s.used, r.authorityId, Uses(s, r.authorityId) + 1)) else s
  }

  datatype Request = Request(operation: Operation, ingress: Ingress, binding: Option<Binding>, now: int)

  predicate RequestOk(q: Request) { IngressOk(q.ingress) && BindingOk(q.binding) }

  function DemandOf(q: Request): Demand { DemandFor(q.operation, q.ingress, q.binding) }

  /** None is a throw on malformed ingress or binding. */
  function Evaluate(s: State, q: Request): Option<Decision> {
    if !RequestOk(q) then None else Some(Decide(s, DemandOf(q), q.now, q.binding))
  }

  function AfterEvaluate(s: State, q: Request, consume: bool): State {
    var r := Evaluate(s, q);
    if consume && r.Some? then Consumed(s, r.value) else s
  }

  // ---------------------------------------------------------------- snapshots

  datatype Snapshot = Snapshot(
    grants: seq<Grant>, approvals: seq<Approval>, policies: seq<Constraint>,
    revoked: seq<(Text, Option<int>)>, used: seq<(Text, int)>, issued: seq<(Text, seq<Text>)>, revision: int)

  function TakeSnapshot(s: State): Snapshot {
    Snapshot(s.grants, s.approvals, s.policies, s.revoked, s.used, s.issued, s.revision)
  }

  function AddGrants(s: State, gs: seq<Grant>): Option<State>
    decreases |gs|
  {
    if gs == [] then Some(s) else
      var t := AddGrant(s, gs[0]);
      if t.None? then None else AddGrants(t.value, gs[1..])
  }

  function AddApprovals(s: State, xs: seq<Approval>): Option<State>
    decreases |xs|
  {
    if xs == [] then Some(s) else
      var t := AddApproval(s, xs[0]);
      if t.None? then None else AddApprovals(t.value, xs[1..])
  }

  function AddPolicies(s: State, ps: seq<Constraint>): Option<State>
    decreases |ps|
  {
    if ps == [] then Some(s) else
      var t := AddPolicy(s, ps[0]);
      if t.None? then None else AddPolicies(t.value, ps[1..])
  }

  function PutAll<V>(m: OMap<V>, es: seq<(Text, V)>): OMap<V>
    decreases |es|
  {
    if es == [] then m else PutAll(Put(m, es[0].0, es[0].1), es[1..])
  }

  /** `new Set(xs)` in insertion order. */
  function Members(xs: seq<Text>): seq<Text> {
    if xs == [] then [] else AddMember(Members(ButLast(xs)), Last(xs))
  }

  function IssuedSets(es: seq<(Text, seq<Text>)>): (r: seq<(Text, seq<Text>)>)
    ensures |r| == |es|
  {
    if es == [] then [] else [(es[0].0, Members(es[0].1))] + IssuedSets(es[1..])
  }

  function SnapshotIds(snap: Snapshot): seq<Text> {
    seq(|snap.grants|, i requires 0 <= i < |snap.grants| => snap.grants[i].id)
    + seq(|snap.approvals|, i requires 0 <= i < |snap.approvals| => snap.approvals[i].id)
    + seq(|snap.policies|, i requires 0 <= i < |snap.policies| => snap.policies[i].id)
  }

  /** Revocations load before policies, so a retired policy cannot come back. */
  function Restore(snap: Snapshot): Option<State> {
    var base := AdoptRevision(FRESH, snap.revision);
    if base.None? || !Distinct(SnapshotIds(snap)) then None else
      var g := AddGrants(base.value, snap.grants);
      if g.None? then None else
        var a := AddApprovals(g.value, snap.approvals);
        if a.None? then None else
          var p := AddPolicies(a.value.(revoked := PutAll([], snap.revoked)), snap.policies);
          if p.None? || exists e :: e in snap.used && e.1 < 0 then None
          else Some(p.value.(used := PutAll([], snap.used), issued := PutAll([], IssuedSets(snap.issued))))
  }

  // ---------------------------------------------------------------- runs

  datatype Op =
    | OpAddGrant(grant: Grant)
    | OpAddApproval(approval: Approval)
    | OpCreateApproval(params: ApprovalParams, at: int)
    | OpAddPolicy(policy: Constraint)
    | OpRevoke(id: Text, exp: Option<int>)
    | OpDisablePolicy(id: Text)
    | OpPrune(at: int)
    | OpNoteIssued(id: Text, capabilityId: Text)
    | OpEvaluate(request: Request, consume: bool)

  function Settle(before: State, after: Option<State>): State {
    if after.Some? then after.value else before
  }

  /** One call on an instance; a throw leaves it as it was. */
  function Apply(s: State, op: Op): State {
    match op
    case OpAddGrant(g) => Settle(s, AddGrant(s, g))
    case OpAddApproval(a) => Settle(s, AddApproval(s, a))
    case OpCreateApproval(p, now) => Settle(s, CreateApproval(s, p, now))
    case OpAddPolicy(p) => Settle(s, AddPolicy(s, p))
    case OpRevoke(id, exp) => Settle(s, Revoke(s, id, exp))
    case OpDisablePolicy(id) => Settle(s, DisablePolicy(s, id))
    case OpPrune(now) => Prune(s, now)
    case OpNoteIssued(id, cid) => NoteIssued(s, id, cid)
    case OpEvaluate(q, consume) => AfterEvaluate(s, q, consume)
  }

  function ApplyAll(s: State, ops: seq<Op>): State {
    if ops == [] then s else Apply(ApplyAll(s, ButLast(ops)), Last(ops))
  }
}
