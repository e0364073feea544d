/**
 * What checking and redeeming a chain means, written out link by link and field by field
 * (`runAuthorization`, src/core/capability.ts), and the proof of possession a redemption needs.
 */
module CapabilityMeaning {
  import opened Basics
  import opened Canonical
  import opened CanonicalLaws
  import opened Policy
  import opened Coverage
  import opened Capability
  import M = PolicyMeaning
  import A = AuthorityMeaning

  // ---------------------------------------------------------------- one link

  /** The root command or something under it. */
  ghost predicate Family(root: Text, cmd: Text) { cmd == root || exists rest :: cmd == root + [47] + rest }

  lemma FamilyMeans(root: Text, cmd: Text)
    ensures InFamily(root, cmd) <==> Family(root, cmd)
  {
    if StartsWith(cmd, root + [SLASH]) { assert cmd == root + [47] + cmd[|root| + 1..]; }
  }

  /** A link is well formed. */
  ghost predicate WellShaped(p: Payload) {
    && p.tag == Lit("ptf/cap@0.1")
    && (exists rest :: rest != [] && p.cmd == [47] + rest)
    && p.sub != [] && p.iss != [] && p.aud != []
    && p.exp > 0 && (p.nbf.Some? ==> p.nbf.value >= 0) && p.maxUses >= 1
    && |p.nonce| >= 16 && |p.termsDigest| >= 16 && |p.revocationId| >= 8
    && (Family(Lit("/pay"), p.cmd) ==>
          p.amountMax.Some? && p.amountMax.value > 0 && p.currency.Some? && p.currency.value != [])
  }

  lemma ShapeMeans(p: Payload)
    ensures LinkShape(p) <==> WellShaped(p)
  {
    FamilyMeans(Lit("/pay"), p.cmd);
    if LinkShape(p) { assert p.cmd == [47] + p.cmd[1..]; }
  }

  /** The payload is signed with the key its issuer is known by. */
  predicate SignedByIssuer(keys: map<Text, Key>, link: Sealed) {
    link.payload.iss in keys && link.sig == Signed(keys[link.payload.iss], link.payload)
  }

  predicate InWindow(p: Payload, now: int) { (p.nbf.Some? ==> now >= p.nbf.value - 60) && now <= p.exp + 60 }

  // ---------------------------------------------------------------- one hop

  /** `p` is an upper bound v that the child has at w, no higher; at a strict one an inclusive one must be lower. */
  predicate LoweredTo(p: Pred, child: seq<Pred>, sel: Text, v: int, w: int) {
    || (p == Cmp(Le, sel, v) && (Cmp(Le, sel, w) in child || Cmp(Lt, sel, w) in child) && w <= v)
    || (p == Cmp(Lt, sel, v) && ((Cmp(Lt, sel, w) in child && w <= v) || (Cmp(Le, sel, w) in child && w < v)))
  }

  ghost predicate Lowered(p: Pred, child: seq<Pred>) { exists sel, v, w :: LoweredTo(p, child, sel, v, w) }

  /** Every predicate of the parent is repeated or lowered. */
  ghost predicate PolicyKept(parent: seq<Pred>, child: seq<Pred>) {
    forall p :: p in parent ==> p in child || Lowered(p, child)
  }

  lemma LoweredMeans(p: Pred, child: seq<Pred>)
    ensures (exists c :: c in child && Tightens(p, c)) <==> Lowered(p, child)
  {
    if c :| c in child && Tightens(p, c) {
      assert p == Cmp(p.op, p.sel, p.bound) && c == Cmp(c.op, p.sel, c.bound);
      assert LoweredTo(p, child, p.sel, p.bound, c.bound);
    }
    if sel, v, w :| LoweredTo(p, child, sel, v, w) {
      var le, lt := Cmp(Le, sel, w), Cmp(Lt, sel, w);
      var c := if le in child && (p.op == Le || w < v) then le else lt;
      assert c in child && Tightens(p, c);
    }
  }

  lemma PolicyKeptMeans(parent: seq<Pred>, child: seq<Pred>)
    ensures IsPolicyNarrower(parent, child) <==> PolicyKept(parent, child)
  {
    NarrowerMeans(parent, child);
    forall p | p in parent ensures (exists c :: c in child && Tightens(p, c)) <==> Lowered(p, child) { LoweredMeans(p, child); }
  }

  ghost predicate ClaimsKept(par: Payload, child: Payload) {
    if par.claims.Some? then child.claims.Some? ==> forall c :: c in child.claims.value ==> c in par.claims.value
    else child.claims.None? || (child.claims.value == [] && !Family(Lit("/pay"), child.cmd))
  }

  /** The child delegates what the parent was given, and no more of it in any dimension. */
  ghost predicate Attenuates(par: Payload, child: Payload) {
    && child.iss == par.aud && child.sub == par.sub && child.parentRevocationId == Some(par.revocationId)
    && A.CommandUnder(par.cmd, child.cmd) && PolicyKept(par.pol, child.pol)
    && child.exp <= par.exp && (par.nbf.Some? ==> child.nbf.Some? && child.nbf.value >= par.nbf.value)
    && child.maxUses <= par.maxUses
    && child.purpose == par.purpose && child.resource == par.resource
    && child.recipient == par.recipient && child.termsDigest == par.termsDigest
    && (par.amountMax.Some? ==> child.amountMax.Some? && child.amountMax.value <= par.amountMax.value)
    && (par.currency.Some? ==> child.currency == par.currency)
    && ClaimsKept(par, child)
  }

  lemma HopMeans(par: Payload, child: Payload)
    ensures Narrows(par, child) <==> WellShaped(child) && Attenuates(par, child)
  {
    ShapeMeans(child);
    A.CommandMeans(par.cmd, child.cmd);
    PolicyKeptMeans(par.pol, child.pol);
    FamilyMeans(Lit("/pay"), child.cmd);
    ClaimsMean(par, child);
  }

  lemma ClaimsMean(par: Payload, child: Payload)
    ensures par.claims.Some? ==>
      (ClaimSet(child) <= ClaimSet(par) <==>
         (child.claims.Some? ==> forall c :: c in child.claims.value ==> c in par.claims.value))
  {
    if par.claims.Some? && child.claims.Some? {
      assert forall c :: c in child.claims.value <==> c in ClaimSet(child);
    }
  }

  // ---------------------------------------------------------------- the demand

  /** A payment within the ceiling, in the currency. */
  predicate PaysWithin(p: Payload, args: map<Text, Val>) {
    && Lit("amount") in args
    && (match args[Lit("amount")] case VNum(n) => 0 < n && p.amountMax.Some? && n <= p.amountMax.value case _ => false)
    && (p.currency.Some? ==> Lit("currency") in args && args[Lit("currency")] == VStr(p.currency.value))
  }

  /** Only allowed claims are asked for. */
  ghost predicate DisclosesWithin(p: Payload, args: map<Text, Val>) {
    && Lit("claims") in args
    && exists asked: seq<Val> :: args[Lit("claims")] == VArr(asked) &&
         forall c :: c in asked ==> c.VStr? && p.claims.Some? && c.text in p.claims.value
  }

  ghost predicate Within(p: Payload, d: Demand) {
    && A.CommandUnder(p.cmd, d.cmd)
    && (forall pred :: pred in p.pol ==> M.Accepts(pred, VObj(d.args)))
    && (Family(Lit("/pay"), p.cmd) ==> PaysWithin(p, d.args))
    && (Family(Lit("/disclose"), p.cmd) ==> DisclosesWithin(p, d.args))
    && d.recipient == p.recipient
    && (d.resource.Some? ==> d.resource.value == p.resource)
    && (d.purpose.Some? ==> d.purpose.value == p.purpose)
    && d.termsDigest == p.termsDigest
  }

  lemma DisclosureMeans(p: Payload, args: map<Text, Val>)
    ensures DiscloseDemand(p, args) <==> DisclosesWithin(p, args)
  {
    assert forall c :: c in ClaimSet(p) <==> p.claims.Some? && c in p.claims.value;
  }

  lemma DemandMeans(p: Payload, d: Demand)
    ensures DemandGate(p, d).None? <==> Within(p, d)
  {
    A.CommandMeans(p.cmd, d.cmd);
    M.PolicyMeans(p.pol, VObj(d.args));
    FamilyMeans(Lit("/pay"), p.cmd);
    FamilyMeans(Lit("/disclose"), p.cmd);
    DisclosureMeans(p, d.args);
  }

  // ---------------------------------------------------------------- the chain

  ghost predicate ChainSound(keys: map<Text, Key>, chain: Chain) {
    && chain != []
    && (forall i :: 0 <= i < |chain| ==> WellShaped(chain[i].payload) && SignedByIssuer(keys, chain[i]))
    && chain[0].payload.iss == chain[0].payload.sub
    && (forall i :: 0 < i < |chain| ==> Attenuates(chain[i - 1].payload, chain[i].payload))
  }

  lemma {:induction false} LinksMean(chain: Chain, i: nat)
    requires 1 <= i <= |chain|
    ensures LinksGate(chain, i).None? <==> forall k :: i <= k < |chain| ==> Narrows(chain[k - 1].payload, chain[k].payload)
    decreases |chain| - i
  {
    if i == |chain| {
    } else {
      LinksMean(chain, i + 1);
      LinkMeans(chain[i - 1].payload, chain[i].payload);
    }
  }

  lemma LinkMeans(prev: Payload, cur: Payload)
    ensures LinkGate(prev, cur).None? <==> Narrows(prev, cur)
  {}

  lemma ChainMeans(keys: map<Text, Key>, chain: Chain)
    ensures ChainGate(keys, chain).None? <==> ChainSound(keys, chain)
  {
    if chain != [] {
      LinksMean(chain, 1);
      forall i | 0 <= i < |chain| ensures LinkShape(chain[i].payload) <==> WellShaped(chain[i].payload) {
        ShapeMeans(chain[i].payload);
      }
      forall i | 0 < i < |chain|
        ensures Narrows(chain[i - 1].payload, chain[i].payload)
           <==> WellShaped(chain[i].payload) && Attenuates(chain[i - 1].payload, chain[i].payload)
      {
        HopMeans(chain[i - 1].payload, chain[i].payload);
      }
      assert forall i :: 0 <= i < |chain| ==> (Authentic(keys, chain[i]) <==> SignedByIssuer(keys, chain[i]));
    }
  }

  lemma {:induction false} WindowsMean(chain: Chain, i: nat, now: int)
    requires i <= |chain|
    ensures WindowsGate(chain, i, now).None? <==> forall k :: i <= k < |chain| ==> InWindow(chain[k].payload, now)
    decreases |chain| - i
  {
    if i == |chain| {
    } else {
      WindowsMean(chain, i + 1, now);
    }
  }

  /** Uses left on a link: what the ledger says, or all of them. */
  function UsesLeft(ledger: Ledger, p: Payload): int {
    if Cid(p) in ledger then ledger[Cid(p)].left else p.maxUses
  }

  // ---------------------------------------------------------------- the two decisions

  /** Everything a check asks for. */
  ghost predicate Acceptable(keys: map<Text, Key>, revoked: Revocations, ledger: Ledger, chain: Chain, d: Demand, now: int) {
    && ChainSound(keys, chain)
    && (forall i :: 0 <= i < |chain| ==> InWindow(chain[i].payload, now))
    && (forall i :: 0 <= i < |chain| ==> chain[i].payload.revocationId !in revoked)
    && Within(chain[|chain| - 1].payload, d)
    && (forall i :: 0 <= i < |chain| ==> UsesLeft(ledger, chain[i].payload) > 0)
  }

  lemma GatesMean(keys: map<Text, Key>, revoked: Revocations, chain: Chain, d: Demand, now: int)
    requires chain != []
    ensures Gates(keys, revoked, chain, d, now).None? <==>
      && ChainSound(keys, chain)
      && (forall i :: 0 <= i < |chain| ==> InWindow(chain[i].payload, now))
      && (forall i :: 0 <= i < |chain| ==> chain[i].payload.revocationId !in revoked)
      && Within(chain[|chain| - 1].payload, d)
  {
    ChainMeans(keys, chain);
    WindowsMean(chain, 0, now);
    DemandMeans(Leaf(chain), d);
  }

  /** A check accepts exactly when every link, every hop, the demand and the uses are in order. */
  lemma CheckMeans(keys: map<Text, Key>, revoked: Revocations, ledger: Ledger, chain: Chain, d: Demand, now: int)
    ensures Authorize(keys, revoked, ledger, chain, d, now, Check).Checked? <==> Acceptable(keys, revoked, ledger, chain, d, now)
  {
    if chain != [] {
      GatesMean(keys, revoked, chain, d, now);
      assert forall i :: 0 <= i < |chain| ==> Left(ledger, chain[i].payload) == UsesLeft(ledger, chain[i].payload);
    }
  }

  /** The presenter holds the recipient's key and has signed this very chain with it. */
  predicate Possesses(keys: map<Text, Key>, leaf: Payload, proof: Proof) {
    && leaf.recipient in keys
    && proof.key == keys[leaf.recipient] && proof.signer == keys[leaf.recipient]
    && proof.over == Cid(leaf)
  }

  /** A redemption must say what it is for. */
  predicate Named(d: Demand) { d.resource.Some? && d.resource.value != [] && d.purpose.Some? && d.purpose.value != [] }

  /**
   * A redemption succeeds exactly when the same check does, resource and purpose are named, and the
   * proof is the recipient's own over this chain's content.
   */
  lemma RedeemMeans(keys: map<Text, Key>, revoked: Revocations, ledger: Ledger, chain: Chain, d: Demand, now: int, proof: Proof)
    ensures Authorize(keys, revoked, ledger, chain, d, now, Redeem(proof)).Redeemed? <==>
      && Authorize(keys, revoked, ledger, chain, d, now, Check).Checked?
      && Named(d) && chain != [] && Possesses(keys, chain[|chain| - 1].payload, proof)
  {}

  /** Without possession an otherwise good redemption is refused as the wrong recipient's. */
  lemma ImpostorRefused(keys: map<Text, Key>, revoked: Revocations, ledger: Ledger, chain: Chain, d: Demand, now: int, proof: Proof)
    requires Authorize(keys, revoked, ledger, chain, d, now, Check).Checked? && Named(d)
    requires chain != [] && !Possesses(keys, chain[|chain| - 1].payload, proof)
    ensures Authorize(keys, revoked, ledger, chain, d, now, Redeem(proof)) == Denied(BadRecipient)
  {}

  lemma {:induction false} LeastLeftIs(ledger: Ledger, chain: Chain)
    requires chain != []
    ensures forall i :: 0 <= i < |chain| ==> LeastLeft(ledger, chain) <= UsesLeft(ledger, chain[i].payload)
    ensures exists i :: 0 <= i < |chain| && LeastLeft(ledger, chain) == UsesLeft(ledger, chain[i].payload)
    decreases |chain|
  {
    if |chain| == 1 {
      assert LeastLeft(ledger, chain) == UsesLeft(ledger, chain[0].payload);
    } else {
      var front := chain[..|chain| - 1];
      LeastLeftIs(ledger, front);
      assert forall i :: 0 <= i < |front| ==> chain[i] == front[i];
      if LeastLeft(ledger, chain) == Left(ledger, Leaf(chain)) {
        assert LeastLeft(ledger, chain) == UsesLeft(ledger, chain[|chain| - 1].payload);
      } else {
        var i :| 0 <= i < |front| && LeastLeft(ledger, front) == UsesLeft(ledger, front[i].payload);
        assert chain[i] == front[i];
      }
    }
  }

  /** What is reported: the least number of uses left on the chain, after this one; the demand; the leaf. */
  lemma ResultsMean(keys: map<Text, Key>, revoked: Revocations, ledger: Ledger, chain: Chain, d: Demand, now: int, mode: Mode)
    requires !Authorize(keys, revoked, ledger, chain, d, now, mode).Denied?
    ensures var r := Authorize(keys, revoked, ledger, chain, d, now, mode);
      var left := if mode.Redeem? then r.remaining + 1 else r.remaining;
      && chain != [] && r.operation == d
      && (mode.Redeem? <==> r.Redeemed?) && (r.Redeemed? ==> r.chainId == Cid(chain[|chain| - 1].payload))
      && (forall i :: 0 <= i < |chain| ==> left <= UsesLeft(ledger, chain[i].payload))
      && (exists i :: 0 <= i < |chain| && left == UsesLeft(ledger, chain[i].payload))
  {
    LeastLeftIs(ledger, chain);
  }

  // ---------------------------------------------------------------- refusals

  ghost predicate AllShaped(chain: Chain) { forall i :: 0 <= i < |chain| ==> WellShaped(chain[i].payload) }

  predicate AllSigned(keys: map<Text, Key>, chain: Chain) { forall i :: 0 <= i < |chain| ==> SignedByIssuer(keys, chain[i]) }

  predicate AllCurrent(chain: Chain, now: int) { forall i :: 0 <= i < |chain| ==> InWindow(chain[i].payload, now) }

  predicate NoneRevoked(revoked: Revocations, chain: Chain) {
    forall i :: 0 <= i < |chain| ==> chain[i].payload.revocationId !in revoked
  }

  lemma ShapesMean(chain: Chain)
    ensures AllShaped(chain) <==> forall i :: 0 <= i < |chain| ==> LinkShape(chain[i].payload)
  {
    forall i | 0 <= i < |chain| ensures LinkShape(chain[i].payload) <==> WellShaped(chain[i].payload) { ShapeMeans(chain[i].payload); }
  }

  lemma ChainRefusals(keys: map<Text, Key>, chain: Chain)
    requires chain != []
    ensures var bad := ChainGate(keys, chain);
      && (bad.None? <==> ChainSound(keys, chain))
      && (bad == Some(ForbiddenShape) <==> !AllShaped(chain))
      && (bad == Some(BadSig) <==> AllShaped(chain) && !AllSigned(keys, chain))
      && bad in {None, Some(ForbiddenShape), Some(BadSig), Some(BadChain), Some(BadPolicy)}
  {
    ShapesMean(chain);
    ChainMeans(keys, chain);
    LinkRefusals(chain, 1);
    assert forall i :: 0 <= i < |chain| ==> (Authentic(keys, chain[i]) <==> SignedByIssuer(keys, chain[i]));
  }

  lemma DemandRefusals(p: Payload, d: Demand)
    ensures DemandGate(p, d) in {None, Some(BadPolicy), Some(BadRecipient), Some(BadTerms)}
  {}

  lemma SpendRefusals(keys: map<Text, Key>, ledger: Ledger, chain: Chain, d: Demand)
    requires chain != []
    ensures var r := Spend(keys, ledger, chain, d, Check);
      && (r == Denied(UsesExhausted) <==> exists i :: 0 <= i < |chain| && UsesLeft(ledger, chain[i].payload) <= 0)
      && (r.Denied? ==> r == Denied(UsesExhausted))
  {
    assert forall i :: 0 <= i < |chain| ==> Left(ledger, chain[i].payload) == UsesLeft(ledger, chain[i].payload);
  }

  /** Why a check is refused: the first of these that fails, in this order. */
  lemma RefusalsMean(keys: map<Text, Key>, revoked: Revocations, ledger: Ledger, chain: Chain, d: Demand, now: int)
    requires chain != []
    ensures var r := Authorize(keys, revoked, ledger, chain, d, now, Check);
      && (r == Denied(ForbiddenShape) <==> !AllShaped(chain))
      && (r == Denied(BadSig) <==> AllShaped(chain) && !AllSigned(keys, chain))
      && (r == Denied(NotYetValid) || r == Denied(Expired) <==> ChainSound(keys, chain) && !AllCurrent(chain, now))
      && (r == Denied(Revoked) <==> ChainSound(keys, chain) && AllCurrent(chain, now) && !NoneRevoked(revoked, chain))
      && (r == Denied(UsesExhausted) <==>
            && ChainSound(keys, chain) && AllCurrent(chain, now) && NoneRevoked(revoked, chain)
            && Within(chain[|chain| - 1].payload, d)
            && exists i :: 0 <= i < |chain| && UsesLeft(ledger, chain[i].payload) <= 0)
  {
    ChainRefusals(keys, chain);
    WindowsMean(chain, 0, now);
    WindowRefusals(chain, 0, now);
    DemandMeans(Leaf(chain), d);
    DemandRefusals(Leaf(chain), d);
    SpendRefusals(keys, ledger, chain, d);
    RefusalOrder(keys, revoked, ledger, chain, d, now);
  }

  /** The gates one after the other. */
  lemma RefusalOrder(keys: map<Text, Key>, revoked: Revocations, ledger: Ledger, chain: Chain, d: Demand, now: int)
    requires chain != []
    ensures Authorize(keys, revoked, ledger, chain, d, now, Check) ==
      var bad, late, out := ChainGate(keys, chain), WindowsGate(chain, 0, now), DemandGate(Leaf(chain), d);
      if bad.Some? then Denied(bad.value)
      else if late.Some? then Denied(late.value)
      else if !NoneRevoked(revoked, chain) then Denied(Revoked)
      else if out.Some? then Denied(out.value)
      else Spend(keys, ledger, chain, d, Check)
  {}

  lemma {:induction false} LinkRefusals(chain: Chain, i: nat)
    requires 1 <= i <= |chain|
    ensures LinksGate(chain, i) in {None, Some(BadChain), Some(BadPolicy)}
    decreases |chain| - i
  {
    if i == |chain| {
    } else {
      LinkRefusals(chain, i + 1);
    }
  }

  lemma {:induction false} WindowRefusals(chain: Chain, i: nat, now: int)
    requires i <= |chain|
    ensures WindowsGate(chain, i, now) in {None, Some(NotYetValid), Some(Expired)}
    decreases |chain| - i
  {
    if i == |chain| {
    } else {
      WindowRefusals(chain, i + 1, now);
    }
  }

  // ---------------------------------------------------------------- issuing

  /** The payload asks for exactly what the request asks for; the rest is fixed by parent and randomness. */
  predicate DrawnUp(p: Payload, parent: Chain, req: Request, nonce: Text, id: Text) {
    && p.tag == Lit("ptf/cap@0.1") && p.nonce == nonce && p.revocationId == id
    && p.iss == req.iss && p.aud == req.aud && p.sub == req.sub && p.cmd == req.cmd && p.pol == req.pol
    && p.purpose == req.purpose && p.resource == req.resource && p.recipient == req.recipient
    && p.amountMax == req.amountMax && p.currency == req.currency && p.claims == req.claims
    && p.nbf == req.nbf && p.exp == req.exp && p.termsDigest == req.termsDigest && p.meta == req.meta
    && p.maxUses == (if req.maxUses.Some? then req.maxUses.value else 1)
    && p.parentRevocationId == (if parent == [] then None else Some(parent[|parent| - 1].payload.revocationId))
  }

  /** A capability is issued exactly when it is well shaped and self-issued or within its parent, and it is then signed whole. */
  lemma IssueMeans(parent: Chain, req: Request, signer: Key, nonce: Text, id: Text, p: Payload)
    requires DrawnUp(p, parent, req, nonce, id)
    ensures Issue(parent, req, signer, nonce, id) ==
      if WellShaped(p) && (if parent == [] then req.iss == req.sub else Attenuates(parent[|parent| - 1].payload, p))
      then Some(Sealed(p, Signed(signer, p))) else None
  {
    ShapeMeans(p);
    if parent != [] { HopMeans(Leaf(parent), p); }
    assert p == PayloadFor(parent, req, nonce, id);
  }

  // ---------------------------------------------------------------- consumption

  /** How often a payload stands in a chain. */
  function Times(chain: Chain, p: Payload): nat {
    if chain == [] then 0 else (if chain[0].payload == p then 1 else 0) + Times(chain[1..], p)
  }

  /** A redemption takes from each account exactly as many uses as it has links in the chain. */
  lemma {:induction false} ConsumesExactly(ledger: Ledger, chain: Chain, p: Payload)
    ensures var after := ConsumeAll(ledger, chain);
      if Times(chain, p) > 0 then Cid(p) in after && after[Cid(p)] == Use(UsesLeft(ledger, p) - Times(chain, p), Some(p.exp))
      else (Cid(p) in after <==> Cid(p) in ledger) && (Cid(p) in ledger ==> after[Cid(p)] == ledger[Cid(p)])
    decreases |chain|
  {
    if chain == [] {
    } else {
      ConsumesExactly(ConsumeOne(ledger, chain[0].payload), chain[1..], p);
    }
  }
}
