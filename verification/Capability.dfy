/**
 * Capability chains (src/core/capability.ts): issuing, the gates of `runAuthorization`, and the
 * use ledger. Signatures are symbolic and content ids are a free constructor of the payload.
 */
module Capability {
  import opened Basics
  import opened Canonical
  import opened Policy
  import opened Coverage

  type Key = Text

  datatype Payload = Payload(
    tag: Text, iss: Text, aud: Text, sub: Text, cmd: Text, pol: seq<Pred>,
    purpose: Text, resource: Text, recipient: Text,
    amountMax: Option<int>, currency: Option<Text>, claims: Option<seq<Text>>,
    nonce: Text, nbf: Option<int>, exp: int, maxUses: int, termsDigest: Text,
    revocationId: Text, parentRevocationId: Option<Text>, meta: Option<map<Text, Val>>)

  /** Only the holder of a key makes its signatures; anything else is noise. */
  datatype Signature = Signed(key: Key, payload: Payload) | Noise(bytes: Text)

  datatype Sealed = Sealed(payload: Payload, sig: Signature)

  type Chain = seq<Sealed>

  datatype Cid = Cid(payload: Payload)

  /** The recipient's signature over the leaf content id. */
  datatype Proof = Proof(key: Key, signer: Key, over: Cid)

  datatype Demand = Demand(
    cmd: Text, args: map<Text, Val>, recipient: Text, termsDigest: Text,
    resource: Option<Text>, purpose: Option<Text>)

  datatype Deny =
    | BadSig | BadChain | Expired | NotYetValid | UsesExhausted
    | BadRecipient | BadTerms | Revoked | BadPolicy | ForbiddenShape

  datatype Outcome =
    | Denied(reason: Deny)
    | Checked(remaining: int, operation: Demand)
    | Redeemed(remaining: int, chainId: Cid, operation: Demand)

  datatype Mode = Check | Redeem(proof: Proof)

  // ---------------------------------------------------------------- shapes and narrowing

  function TAG(): Text { Lit("ptf/cap@0.1") }

  predicate PayFamily(cmd: Text) { InFamily(Lit("/pay"), cmd) }

  predicate DiscloseFamily(cmd: Text) { InFamily(Lit("/disclose"), cmd) }

  predicate LinkShape(p: Payload) {
    && p.tag == TAG()
    && p.cmd != [SLASH] && StartsWith(p.cmd, [SLASH])
    && p.sub != [] && p.iss != [] && p.aud != []
    && p.exp > 0
    && (p.nbf.Some? ==> p.nbf.value >= 0)
    && p.maxUses >= 1
    && |p.nonce| >= 16 && |p.termsDigest| >= 16 && |p.revocationId| >= 8
    && (PayFamily(p.cmd) ==>
          && p.amountMax.Some? && p.amountMax.value > 0
          && p.currency.Some? && p.currency.value != [])
  }

  predicate RootShape(p: Payload) {
    LinkShape(p) && p.parentRevocationId.None? && p.iss == p.sub
  }

  function ClaimSet(p: Payload): set<Text> {
    if p.claims.Some? then set c | c in p.claims.value else {}
  }

  /** Child at most parent in every bound dimension. */
  predicate Narrows(par: Payload, child: Payload) {
    && LinkShape(child)
    && child.iss == par.aud
    && child.sub == par.sub
    && child.parentRevocationId == Some(par.revocationId)
    && IsCovered(par.cmd, child.cmd)
    && IsPolicyNarrower(par.pol, child.pol)
    && child.exp <= par.exp
    && (par.nbf.Some? ==> child.nbf.Some? && child.nbf.value >= par.nbf.value)
    && child.maxUses <= par.maxUses
    && child.purpose == par.purpose
    && child.resource == par.resource
    && child.recipient == par.recipient
    && child.termsDigest == par.termsDigest
    && (par.amountMax.Some? ==> child.amountMax.Some? && child.amountMax.value <= par.amountMax.value)
    && (par.currency.Some? ==> child.currency == par.currency)
    && (if par.claims.Some? then ClaimSet(child) <= ClaimSet(par)
        else child.claims.None? || (child.claims.value == [] && !PayFamily(child.cmd)))
  }

  // ---------------------------------------------------------------- issuing

  datatype Request = Request(
    iss: Text, aud: Text, sub: Text, cmd: Text, pol: seq<Pred>,
    purpose: Text, resource: Text, recipient: Text,
    amountMax: Option<int>, currency: Option<Text>, claims: Option<seq<Text>>,
    nbf: Option<int>, exp: int, maxUses: Option<int>, termsDigest: Text, meta: Option<map<Text, Val>>)

  function Leaf(chain: Chain): Payload
    requires chain != []
  {
    chain[|chain| - 1].payload
  }

  function PayloadFor(parent: Chain, req: Request, nonce: Text, revocationId: Text): Payload {
    Payload(TAG(), req.iss, req.aud, req.sub, req.cmd, req.pol, req.purpose, req.resource, req.recipient,
            req.amountMax, req.currency, req.claims, nonce, req.nbf, req.exp, OrElse(req.maxUses, 1),
            req.termsDigest, revocationId,
            if parent == [] then None else Some(Leaf(parent).revocationId), req.meta)
  }

  /** An empty parent asks for a root. None is a rejected issue. */
  function Issue(parent: Chain, req: Request, signer: Key, nonce: Text, revocationId: Text): Option<Sealed> {
    var p := PayloadFor(parent, req, nonce, revocationId);
    if if parent == [] then RootShape(p) else Narrows(Leaf(parent), p)
    then Some(Sealed(p, Signed(signer, p)))
    else None
  }

  // ---------------------------------------------------------------- gates

  predicate Authentic(keys: map<Text, Key>, link: Sealed) {
    link.payload.iss in keys && link.sig == Signed(keys[link.payload.iss], link.payload)
  }

  function LinkGate(prev: Payload, cur: Payload): Option<Deny> {
    if cur.iss != prev.aud || cur.sub != prev.sub then Some(BadChain)
    else if !Narrows(prev, cur) then Some(BadPolicy)
    else None
  }

  function LinksGate(chain: Chain, i: nat): Option<Deny>
    requires 1 <= i <= |chain|
    decreases |chain| - i
  {
    if i == |chain| then None else
      var bad := LinkGate(chain[i - 1].payload, chain[i].payload);
      if bad.Some? then bad else LinksGate(chain, i + 1)
  }

  function WindowGate(p: Payload, now: int): Option<Deny> {
    if p.nbf.Some? && now < p.nbf.value - SKEW then Some(NotYetValid)
    else if now > p.exp + SKEW then Some(Expired)
    else None
  }

  function WindowsGate(chain: Chain, i: nat, now: int): Option<Deny>
    requires i <= |chain|
    decreases |chain| - i
  {
    if i == |chain| then None else
      var bad := WindowGate(chain[i].payload, now);
      if bad.Some? then bad else WindowsGate(chain, i + 1, now)
  }

  predicate PayDemand(p: Payload, args: map<Text, Val>) {
    && Lit("amount") in args && args[Lit("amount")].VNum? && args[Lit("amount")].num > 0
    && p.amountMax.Some? && args[Lit("amount")].num <= p.amountMax.value
    && (p.currency.Some? ==> Lit("currency") in args && args[Lit("currency")] == VStr(p.currency.value))
  }

  predicate DiscloseDemand(p: Payload, args: map<Text, Val>) {
    && Lit("claims") in args && args[Lit("claims")].VArr?
    && forall c :: c in args[Lit("claims")].items ==> c.VStr? && c.text in ClaimSet(p)
  }

  /** Checks of the demand against the leaf only. */
  function DemandGate(leaf: Payload, d: Demand): Option<Deny> {
    if !IsCovered(leaf.cmd, d.cmd) then Some(BadPolicy)
    else if !SatisfiesPolicy(leaf.pol, VObj(d.args)) then Some(BadPolicy)
    else if PayFamily(leaf.cmd) && !PayDemand(leaf, d.args) then Some(BadPolicy)
    else if DiscloseFamily(leaf.cmd) && !DiscloseDemand(leaf, d.args) then Some(BadPolicy)
    else if d.recipient != leaf.recipient then Some(BadRecipient)
    else if d.resource.Some? && d.resource.value != leaf.resource then Some(BadTerms)
    else if d.purpose.Some? && d.purpose.value != leaf.purpose then Some(BadTerms)
    else if d.termsDigest != leaf.termsDigest then Some(BadTerms)
    else None
  }

  /** Everything up to and including the linkage of the chain: shape, signatures, narrowing. */
  function ChainGate(keys: map<Text, Key>, chain: Chain): Option<Deny> {
    if chain == [] then Some(BadChain)
    else if exists i :: 0 <= i < |chain| && !LinkShape(chain[i].payload) then Some(ForbiddenShape)
    else if exists i :: 0 <= i < |chain| && !Authentic(keys, chain[i]) then Some(BadSig)
    else if chain[0].payload.iss != chain[0].payload.sub then Some(BadChain)
    else LinksGate(chain, 1)
  }

  // ---------------------------------------------------------------- ledger

  datatype Use = Use(left: int, exp: Option<int>)

  type Ledger = map<Cid, Use>

  type Revocations = map<Text, Option<int>>

  function Left(ledger: Ledger, p: Payload): int {
    if Cid(p) in ledger then ledger[Cid(p)].left else p.maxUses
  }

  function ConsumeOne(ledger: Ledger, p: Payload): Ledger {
    ledger[Cid(p) := Use(Left(ledger, p) - 1, Some(p.exp))]
  }

  function ConsumeAll(ledger: Ledger, chain: Chain): Ledger
    decreases |chain|
  {
    if chain == [] then ledger else ConsumeAll(ConsumeOne(ledger, chain[0].payload), chain[1..])
  }

  /** The least number of uses left on a chain. */
  function LeastLeft(ledger: Ledger, chain: Chain): int
    requires chain != []
  {
    var left := Left(ledger, Leaf(chain));
    if |chain| == 1 then left else
      var rest := LeastLeft(ledger, chain[..|chain| - 1]);
      if left < rest then left else rest
  }

  function Pruned(ledger: Ledger, now: int): Ledger {
    map c | c in ledger && !Stale(ledger[c].exp, now) :: ledger[c]
  }

  function PrunedRevocations(r: Revocations, now: int): Revocations {
    map id | id in r && !Stale(r[id], now) :: r[id]
  }

  // ---------------------------------------------------------------- authorization

  function ProofGate(keys: map<Text, Key>, leaf: Payload, proof: Proof): Option<Deny> {
    if leaf.recipient !in keys then Some(BadRecipient)
    else if proof.key != keys[leaf.recipient] then Some(BadRecipient)
    else if proof.signer != proof.key || proof.over != Cid(leaf) then Some(BadRecipient)
    else None
  }

  /** Every check that does not concern uses or proof. */
  function Gates(keys: map<Text, Key>, revoked: Revocations, chain: Chain, d: Demand, now: int): Option<Deny> {
    var bad := ChainGate(keys, chain);
    if bad.Some? then bad else
      var late := WindowsGate(chain, 0, now);
      if late.Some? then late
      else if exists i :: 0 <= i < |chain| && chain[i].payload.revocationId in revoked then Some(Revoked)
      else if chain == [] then None
      else DemandGate(Leaf(chain), d)
  }

  predicate Underspecified(d: Demand) {
    OrElse(d.resource, []) == [] || OrElse(d.purpose, []) == []
  }

  function Authorize(keys: map<Text, Key>, revoked: Revocations, ledger: Ledger,
                     chain: Chain, d: Demand, now: int, mode: Mode): Outcome
  {
    if mode.Redeem? && Underspecified(d) then Denied(BadTerms) else
    var bad := Gates(keys, revoked, chain, d, now);
    if bad.Some? then Denied(bad.value)
    else if chain == [] then Denied(BadChain)
    else Spend(keys, ledger, chain, d, mode)
  }

  /** What follows the gates: uses, proof of possession, consumption. */
  function Spend(keys: map<Text, Key>, ledger: Ledger, chain: Chain, d: Demand, mode: Mode): Outcome
    requires chain != []
  {
    if exists i :: 0 <= i < |chain| && Left(ledger, chain[i].payload) <= 0 then Denied(UsesExhausted)
    else if mode.Check? then Checked(LeastLeft(ledger, chain), d)
    else
      var refused := ProofGate(keys, Leaf(chain), mode.proof);
      if refused.Some? then Denied(refused.value)
      else Redeemed(LeastLeft(ledger, chain) - 1, Cid(Leaf(chain)), d)
  }

  function LedgerAfter(ledger: Ledger, chain: Chain, r: Outcome): Ledger {
    if r.Redeemed? then ConsumeAll(ledger, chain) else ledger
  }

  // ---------------------------------------------------------------- the mutable stores

  class MapUseLedger {
    var used: Ledger

    constructor ()
      ensures used == map[]
    {
      used := map[];
    }

    method Remaining(p: Payload) returns (left: Option<int>)
      ensures left == if Cid(p) in used then Some(used[Cid(p)].left) else None
    {
      left := if Cid(p) in used then Some(used[Cid(p)].left) else None;
    }

    method Consume(p: Payload) returns (next: int)
      modifies this
      ensures used == ConsumeOne(old(used), p)
      ensures next == used[Cid(p)].left
    {
      var prev := if Cid(p) in used then used[Cid(p)].left else p.maxUses;
      next := prev - 1;
      used := used[Cid(p) := Use(next, Some(p.exp))];
    }

    method Prune(now: int)
      modifies this
      ensures used == Pruned(old(used), now)
    {
      var todo := used.Keys;
      while todo != {}
        invariant todo <= used.Keys <= old(used).Keys
        invariant forall c :: c in used ==> used[c] == old(used)[c]
        invariant forall c :: c in old(used) && c !in todo ==> (c in used <==> !Stale(old(used)[c].exp, now))
        decreases |todo|
      {
        var c :| c in todo;
        todo := todo - {c};
        if used[c].exp.Some? && now > used[c].exp.value + SKEW { used := used - {c}; }
      }
    }
  }

  class MapRevocationStore {
    var revoked: Revocations

    constructor ()
      ensures revoked == map[]
    {
      revoked := map[];
    }

    method Add(id: Text, exp: Option<int>)
      modifies this
      ensures revoked == old(revoked)[id := exp]
    {
      revoked := revoked[id := exp];
    }

    method Prune(now: int)
      modifies this
      ensures revoked == PrunedRevocations(old(revoked), now)
    {
      var todo := revoked.Keys;
      while todo != {}
        invariant todo <= revoked.Keys <= old(revoked).Keys
        invariant forall c :: c in revoked ==> revoked[c] == old(revoked)[c]
        invariant forall c :: c in old(revoked) && c !in todo ==> (c in revoked <==> !Stale(old(revoked)[c], now))
        decreases |todo|
      {
        var c :| c in todo;
        todo := todo - {c};
        if Stale(revoked[c], now) { revoked := revoked - {c}; }
      }
    }
  }

  class Capabilities {
    const keys: map<Text, Key>
    const revocations: MapRevocationStore
    const uses: MapUseLedger

    constructor (keys: map<Text, Key>, revocations: MapRevocationStore, uses: MapUseLedger)
      ensures this.keys == keys && this.revocations == revocations && this.uses == uses
    {
      this.keys := keys;
      this.revocations := revocations;
      this.uses := uses;
    }

    /** Shape first, then authenticity, then linkage: the loops over the chain. */
    method GateChain(chain: Chain) returns (bad: Option<Deny>)
      ensures bad == ChainGate(keys, chain)
    {
      if chain == [] { return Some(BadChain); }
      for i := 0 to |chain|
        invariant forall k :: 0 <= k < i ==> LinkShape(chain[k].payload)
      {
        if !LinkShape(chain[i].payload) { return Some(ForbiddenShape); }
      }
      for i := 0 to |chain|
        invariant forall k :: 0 <= k < i ==> Authentic(keys, chain[k])
      {
        if chain[i].payload.iss !in keys { return Some(BadSig); }
        if chain[i].sig != Signed(keys[chain[i].payload.iss], chain[i].payload) { return Some(BadSig); }
      }
      if chain[0].payload.iss != chain[0].payload.sub { return Some(BadChain); }
      for i := 1 to |chain|
        invariant LinksGate(chain, 1) == LinksGate(chain, i)
      {
        var prev, cur := chain[i - 1].payload, chain[i].payload;
        if cur.iss != prev.aud { return Some(BadChain); }
        if cur.sub != prev.sub { return Some(BadChain); }
        if !Narrows(prev, cur) { return Some(BadPolicy); }
      }
      return None;
    }

    method GateWindows(chain: Chain, now: int) returns (bad: Option<Deny>)
      ensures bad == WindowsGate(chain, 0, now)
    {
      for i := 0 to |chain|
        invariant WindowsGate(chain, 0, now) == WindowsGate(chain, i, now)
      {
        var p := chain[i].payload;
        if p.nbf.Some? && now < p.nbf.value - SKEW { return Some(NotYetValid); }
        if now > p.exp + SKEW { return Some(Expired); }
      }
      return None;
    }

    method GateRevocations(chain: Chain) returns (hit: bool)
      ensures hit <==> exists i :: 0 <= i < |chain| && chain[i].payload.revocationId in revocations.revoked
    {
      for i := 0 to |chain|
        invariant forall k :: 0 <= k < i ==> chain[k].payload.revocationId !in revocations.revoked
      {
        if chain[i].payload.revocationId in revocations.revoked { return true; }
      }
      return false;
    }

    /** None when some link has no use left, otherwise the least number of uses left. */
    method CountUses(chain: Chain) returns (remaining: Option<int>)
      requires chain != []
      ensures remaining.None? <==> exists i :: 0 <= i < |chain| && Left(uses.used, chain[i].payload) <= 0
      ensures remaining.Some? ==> remaining.value == LeastLeft(uses.used, chain)
    {
      remaining := None;
      for i := 0 to |chain|
        invariant forall k :: 0 <= k < i ==> Left(uses.used, chain[k].payload) > 0
        invariant remaining.None? <==> i == 0
        invariant i > 0 ==> remaining.value == LeastLeft(uses.used, chain[..i])
      {
        assert chain[..i + 1][..i] == chain[..i];
        var left := uses.Remaining(chain[i].payload);
        var l := if left.Some? then left.value else chain[i].payload.maxUses;
        if l <= 0 { return None; }
        if remaining.None? || l < remaining.value { remaining := Some(l); }
      }
      assert chain[..|chain|] == chain;
    }

    method ConsumeLinks(chain: Chain)
      modifies uses
      ensures uses.used == ConsumeAll(old(uses.used), chain)
    {
      for i := 0 to |chain|
        invariant ConsumeAll(old(uses.used), chain) == ConsumeAll(uses.used, chain[i..])
      {
        assert chain[i..][1..] == chain[i + 1..];
        var next := uses.Consume(chain[i].payload);
      }
    }

    method RunGates(chain: Chain, d: Demand, now: int) returns (bad: Option<Deny>)
      ensures bad == Gates(keys, revocations.revoked, chain, d, now)
    {
      bad := GateChain(chain);
      if bad.Some? { return; }
      bad := GateWindows(chain, now);
      if bad.Some? { return; }
      var hit := GateRevocations(chain);
      if hit { return Some(Revoked); }
      bad := DemandGate(Leaf(chain), d);
    }

    method RunAuthorization(chain: Chain, d: Demand, now: int, mode: Mode) returns (r: Outcome)
      modifies uses
      ensures r == Authorize(keys, revocations.revoked, old(uses.used), chain, d, now, mode)
      ensures uses.used == LedgerAfter(old(uses.used), chain, r)
    {
      if mode.Redeem? && Underspecified(d) { return Denied(BadTerms); }
      var bad := RunGates(chain, d, now);
      if bad.Some? { return Denied(bad.value); }
      r := SpendUses(chain, d, mode);
    }

    method SpendUses(chain: Chain, d: Demand, mode: Mode) returns (r: Outcome)
      requires chain != []
      modifies uses
      ensures r == Spend(keys, old(uses.used), chain, d, mode)
      ensures uses.used == LedgerAfter(old(uses.used), chain, r)
    {
      var remaining := CountUses(chain);
      if remaining.None? { return Denied(UsesExhausted); }
      if mode.Check? { return Checked(remaining.value, d); }
      var unproved := ProofGate(keys, Leaf(chain), mode.proof);
      if unproved.Some? { return Denied(unproved.value); }
      ConsumeLinks(chain);
      return Redeemed(remaining.value - 1, Cid(Leaf(chain)), d);
    }

    method Revoke(id: Text, exp: Option<int>)
      modifies revocations
      ensures revocations.revoked == old(revocations.revoked)[id := exp]
    {
      revocations.Add(id, exp);
    }
  }
}
