/** What the capability gates guarantee for every link of a chain, and over whole runs. */
module CapabilityLaws {
  import opened Basics
  import opened Canonical
  import opened Policy
  import opened Coverage
  import opened Capability

  // ---------------------------------------------------------------- every link bounds the demand

  /** The demand lies within one link, checked against that link alone. */
  predicate Bounds(p: Payload, d: Demand, now: int) {
    && IsCovered(p.cmd, d.cmd)
    && SatisfiesPolicy(p.pol, VObj(d.args))
    && (p.nbf.Some? ==> now >= p.nbf.value - SKEW)
    && now <= p.exp + SKEW
    && (PayFamily(p.cmd) ==> p.currency.Some? && PayDemand(p, d.args))
    && (DiscloseFamily(p.cmd) ==> DiscloseDemand(p, d.args))
    && d.recipient == p.recipient
    && d.termsDigest == p.termsDigest
    && (d.resource.Some? ==> d.resource.value == p.resource)
    && (d.purpose.Some? ==> d.purpose.value == p.purpose)
  }

  predicate Within(p: Payload, d: Demand) {
    && IsCovered(p.cmd, d.cmd)
    && SatisfiesPolicy(p.pol, VObj(d.args))
    && (PayFamily(p.cmd) ==> p.currency.Some? && PayDemand(p, d.args))
    && (DiscloseFamily(p.cmd) ==> DiscloseDemand(p, d.args))
    && d.recipient == p.recipient
    && d.termsDigest == p.termsDigest
    && (d.resource.Some? ==> d.resource.value == p.resource)
    && (d.purpose.Some? ==> d.purpose.value == p.purpose)
  }

  lemma PayCarries(par: Payload, child: Payload, d: Demand)
    requires Narrows(par, child) && LinkShape(par) && Within(child, d) && PayFamily(par.cmd)
    ensures par.currency.Some? && PayDemand(par, d.args)
  {
    assert Lit("/pay")[3] == 121;
    FamilyCovers(Lit("/pay"), par.cmd, child.cmd);
  }

  lemma DiscloseCarries(par: Payload, child: Payload, d: Demand)
    requires Narrows(par, child) && Within(child, d) && DiscloseFamily(par.cmd)
    ensures DiscloseDemand(par, d.args)
  {
    assert Lit("/disclose")[8] == 101;
    FamilyCovers(Lit("/disclose"), par.cmd, child.cmd);
    assert ClaimSet(child) <= ClaimSet(par);
  }

  /** One hop towards the root keeps the demand within bounds. */
  lemma HopWidens(par: Payload, child: Payload, d: Demand)
    requires Narrows(par, child) && LinkShape(par) && Within(child, d)
    ensures Within(par, d)
  {
    CoveredTransitive(par.cmd, child.cmd, d.cmd);
    NarrowerSound(par.pol, child.pol, VObj(d.args));
    if PayFamily(par.cmd) { PayCarries(par, child, d); }
    if DiscloseFamily(par.cmd) { DiscloseCarries(par, child, d); }
  }

  lemma {:induction false} LinkedAt(chain: Chain, i: nat, k: nat)
    requires 1 <= i <= k < |chain| && LinksGate(chain, i).None?
    ensures Narrows(chain[k - 1].payload, chain[k].payload)
    decreases k - i
  {
    if i < k { LinkedAt(chain, i + 1, k); }
  }

  lemma {:induction false} WindowAt(chain: Chain, i: nat, k: nat, now: int)
    requires i <= k < |chain| && WindowsGate(chain, i, now).None?
    ensures WindowGate(chain[k].payload, now).None?
    decreases k - i
  {
    if i < k { WindowAt(chain, i + 1, k, now); }
  }

  lemma ShapedAt(keys: map<Text, Key>, chain: Chain, k: nat)
    requires k < |chain| && ChainGate(keys, chain).None?
    ensures LinkShape(chain[k].payload)
  {}

  lemma {:induction false} WithinUpTo(keys: map<Text, Key>, chain: Chain, d: Demand, k: nat)
    requires k < |chain| && ChainGate(keys, chain).None? && Within(Leaf(chain), d)
    ensures Within(chain[k].payload, d)
    decreases |chain| - k
  {
    if k + 1 < |chain| {
      WithinUpTo(keys, chain, d, k + 1);
      OneUp(keys, chain, d, k);
    }
  }

  /** What lies within a link lies within the one above it. */
  lemma OneUp(keys: map<Text, Key>, chain: Chain, d: Demand, k: nat)
    requires k + 1 < |chain| && ChainGate(keys, chain).None? && Within(chain[k + 1].payload, d)
    ensures Within(chain[k].payload, d)
  {
    LinkedAt(chain, 1, k + 1);
    ShapedAt(keys, chain, k);
    HopWidens(chain[k].payload, chain[k + 1].payload, d);
  }

  lemma LeafWithin(leaf: Payload, d: Demand)
    requires LinkShape(leaf) && DemandGate(leaf, d).None?
    ensures Within(leaf, d)
  {}

  /** An accepted demand satisfies every link of the chain, not only the leaf it is checked against. */
  lemma AcceptedBoundsEveryLink(keys: map<Text, Key>, revoked: Revocations, ledger: Ledger,
                                chain: Chain, d: Demand, now: int, mode: Mode, k: nat)
    requires !Authorize(keys, revoked, ledger, chain, d, now, mode).Denied?
    requires k < |chain|
    ensures Bounds(chain[k].payload, d, now)
    ensures chain[k].payload.revocationId !in revoked
    ensures Authentic(keys, chain[k])
    ensures chain[k].payload.sub == chain[0].payload.iss
  {
    LeafWithin(Leaf(chain), d);
    WithinUpTo(keys, chain, d, k);
    WindowAt(chain, 0, k, now);
    SameSubject(keys, chain, k);
  }

  lemma {:induction false} SameSubject(keys: map<Text, Key>, chain: Chain, k: nat)
    requires k < |chain| && ChainGate(keys, chain).None?
    ensures chain[k].payload.sub == chain[0].payload.iss
  {
    if k == 0 {
    } else {
      SameSubject(keys, chain, k - 1);
      LinkedAt(chain, 1, k);
    }
  }

  // ---------------------------------------------------------------- issued chains pass the gates

  /** The last link was issued under the rest of the chain, signed with its issuer's own key. */
  ghost predicate IssuedUnder(keys: map<Text, Key>, parent: Chain, link: Sealed) {
    exists req: Request, nonce: Text, rev: Text ::
      && req.iss in keys
      && Issue(parent, req, keys[req.iss], nonce, rev) == Some(link)
  }

  ghost predicate BuiltByIssue(keys: map<Text, Key>, chain: Chain) {
    && chain != []
    && IssuedUnder(keys, chain[..|chain| - 1], chain[|chain| - 1])
    && (|chain| > 1 ==> BuiltByIssue(keys, chain[..|chain| - 1]))
  }

  lemma {:induction false} LinksGateExtends(chain: Chain, link: Sealed, i: nat)
    requires 1 <= i <= |chain| && LinksGate(chain, i).None? && Narrows(Leaf(chain), link.payload)
    ensures LinksGate(chain + [link], i).None?
    decreases |chain| - i
  {
    var longer := chain + [link];
    if i < |chain| {
      assert longer[i - 1] == chain[i - 1] && longer[i] == chain[i];
      LinksGateExtends(chain, link, i + 1);
    } else {
      assert longer[i - 1].payload == Leaf(chain) && longer[i] == link;
      assert LinksGate(longer, i + 1).None?;
    }
  }

  lemma GateExtends(keys: map<Text, Key>, parent: Chain, link: Sealed)
    requires ChainGate(keys, parent).None? && Narrows(Leaf(parent), link.payload) && Authentic(keys, link)
    requires LinksGate(parent + [link], 1).None?
    ensures ChainGate(keys, parent + [link]).None?
  {
    var chain := parent + [link];
    forall i | 0 <= i < |chain| ensures LinkShape(chain[i].payload) && Authentic(keys, chain[i]) {
      if i < |parent| { assert chain[i] == parent[i]; } else { assert chain[i] == link; }
    }
    assert chain[0] == parent[0];
  }

  /** Issuing never produces a chain that its own verifier refuses. */
  lemma {:induction false} IssuedChainPasses(keys: map<Text, Key>, chain: Chain)
    requires BuiltByIssue(keys, chain)
    ensures ChainGate(keys, chain).None?
    decreases |chain|
  {
    var parent, link := chain[..|chain| - 1], chain[|chain| - 1];
    assert chain == parent + [link];
    if |chain| == 1 {
      assert parent == [];
    } else {
      IssuedChainPasses(keys, parent);
      LinksGateExtends(parent, link, 1);
      GateExtends(keys, parent, link);
    }
  }

  // ---------------------------------------------------------------- use budgets over whole runs

  datatype Event =
    | CheckAt(now: int, chain: Chain, demand: Demand)
    | RedeemAt(now: int, chain: Chain, demand: Demand, proof: Proof)
    | RevokeAt(now: int, id: Text, exp: Option<int>)
    | PruneUsesAt(now: int)
    | PruneRevocationsAt(now: int)

  datatype Store = Store(revoked: Revocations, ledger: Ledger)

  function OutcomeOf(keys: map<Text, Key>, s: Store, e: Event): Option<Outcome> {
    match e
    case CheckAt(now, chain, d) => Some(Authorize(keys, s.revoked, s.ledger, chain, d, now, Check))
    case RedeemAt(now, chain, d, proof) => Some(Authorize(keys, s.revoked, s.ledger, chain, d, now, Redeem(proof)))
    case _ => None
  }

  function Step(keys: map<Text, Key>, s: Store, e: Event): Store {
    match e
    case CheckAt(_, chain, _) => s.(ledger := LedgerAfter(s.ledger, chain, OutcomeOf(keys, s, e).value))
    case RedeemAt(_, chain, _, _) => s.(ledger := LedgerAfter(s.ledger, chain, OutcomeOf(keys, s, e).value))
    case RevokeAt(_, id, exp) => s.(revoked := s.revoked[id := exp])
    case PruneUsesAt(now) => s.(ledger := Pruned(s.ledger, now))
    case PruneRevocationsAt(now) => s.(revoked := PrunedRevocations(s.revoked, now))
  }

  predicate Contains(chain: Chain, p: Payload) {
    exists i :: 0 <= i < |chain| && chain[i].payload == p
  }

  predicate RedeemsLink(keys: map<Text, Key>, s: Store, e: Event, p: Payload) {
    e.RedeemAt? && OutcomeOf(keys, s, e).value.Redeemed? && Contains(e.chain, p)
  }

  /** Successful redemptions, along a run, of chains containing a link. */
  function Redemptions(keys: map<Text, Key>, s: Store, run: seq<Event>, p: Payload): nat
    decreases |run|
  {
    if run == [] then 0 else
      (if RedeemsLink(keys, s, run[0], p) then 1 else 0) + Redemptions(keys, Step(keys, s, run[0]), run[1..], p)
  }

  predicate Timely(run: seq<Event>, from: int) {
    run != [] ==> from <= run[0].now && Timely(run[1..], run[0].now)
  }

  lemma CheckChangesNothing(keys: map<Text, Key>, s: Store, e: Event)
    requires e.CheckAt?
    ensures Step(keys, s, e) == s
  {}

  /** Consuming a chain charges every link it contains, and keeps every other account. */
  lemma {:induction false} ConsumeCharges(ledger: Ledger, chain: Chain, p: Payload)
    ensures var after := ConsumeAll(ledger, chain);
      if Contains(chain, p)
      then Cid(p) in after && after[Cid(p)].exp == Some(p.exp) && after[Cid(p)].left <= Left(ledger, p) - 1
      else (Cid(p) in after <==> Cid(p) in ledger) && (Cid(p) in ledger ==> after[Cid(p)] == ledger[Cid(p)])
    decreases |chain|
  {
    if chain == [] {
    } else {
      var head, tail := chain[0].payload, chain[1..];
      ConsumeCharges(ConsumeOne(ledger, head), tail, p);
      assert Contains(chain, p) <==> head == p || Contains(tail, p) by {
        if Contains(tail, p) {
          var i :| 0 <= i < |tail| && tail[i].payload == p;
          assert chain[i + 1].payload == p;
        }
        if i :| 0 <= i < |chain| && chain[i].payload == p {
          if i > 0 { assert tail[i - 1].payload == p; }
        }
      }
    }
  }

  /**
   * The account of one link after `done` redemptions at time `t`. An account the ledger no longer
   * holds was either never opened or pruned after the link expired.
   */
  predicate Account(s: Store, p: Payload, done: nat, t: int) {
    && (done == 0 || done <= p.maxUses)
    && (Cid(p) in s.ledger ==> s.ledger[Cid(p)].exp == Some(p.exp) && s.ledger[Cid(p)].left <= p.maxUses - done)
    && (Cid(p) !in s.ledger ==> done == 0 || t > p.exp + SKEW)
  }

  lemma RedemptionWasDue(keys: map<Text, Key>, s: Store, e: Event, p: Payload)
    requires RedeemsLink(keys, s, e, p)
    ensures e.now <= p.exp + SKEW && Left(s.ledger, p) > 0
  {
    var k :| 0 <= k < |e.chain| && e.chain[k].payload == p;
    AcceptedBoundsEveryLink(keys, s.revoked, s.ledger, e.chain, e.demand, e.now, Redeem(e.proof), k);
  }

  lemma StepKeepsAccount(keys: map<Text, Key>, s: Store, e: Event, p: Payload, done: nat, t: int)
    requires Account(s, p, done, t) && t <= e.now
    ensures Account(Step(keys, s, e), p, done + (if RedeemsLink(keys, s, e, p) then 1 else 0), e.now)
  {
    if e.RedeemAt? && OutcomeOf(keys, s, e).value.Redeemed? {
      ConsumeCharges(s.ledger, e.chain, p);
      if Contains(e.chain, p) { RedemptionWasDue(keys, s, e, p); }
    }
  }

  lemma {:induction false} AccountBoundsRun(
    keys: map<Text, Key>, s: Store, run: seq<Event>, p: Payload, done: nat, t: int)
    requires Account(s, p, done, t) && Timely(run, t)
    ensures var total := done + Redemptions(keys, s, run, p); total == 0 || total <= p.maxUses
    decreases |run|
  {
    if run == [] {
    } else {
      var more := if RedeemsLink(keys, s, run[0], p) then 1 else 0;
      StepKeepsAccount(keys, s, run[0], p, done, t);
      AccountBoundsRun(keys, Step(keys, s, run[0]), run[1..], p, done + more, run[0].now);
    }
  }

  /**
   * From an empty ledger and in non-decreasing time, no link is redeemed more often than its own
   * `maxUses`, through whichever chains and whatever pruning happens in between.
   */
  lemma LinkBudgetHolds(keys: map<Text, Key>, revoked: Revocations, run: seq<Event>, from: int, p: Payload)
    requires Timely(run, from)
    ensures var n := Redemptions(keys, Store(revoked, map[]), run, p); n == 0 || n <= p.maxUses
  {
    AccountBoundsRun(keys, Store(revoked, map[]), run, p, 0, from);
  }
}
