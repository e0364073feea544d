/**
 * From capability to effect: what a redeemed chain says about the terms that the journaled
 * execution path really submits, and why a dry run can never execute.
 */
module ProtectedEffects {
  import opened Basics
  import opened Canonical
  import opened CanonicalLaws
  import C = Capability
  import L = CapabilityLaws
  import M = CapabilityMeaning
  import A = AuthorityMeaning
  import J = Journal
  import P = Providers
  import R = JournalReceipts

  /** The echo of the verified demand. */
  function BoundOperation(d: C.Demand): P.Operation {
    P.Operation(d.cmd, d.args, d.recipient, d.resource, d.purpose, d.termsDigest)
  }

  /** The result of an authorization as execution paths see it; `idText` prints a content id. */
  function ResultOf(r: C.Outcome, idText: C.Cid -> Text): P.Redemption {
    match r
    case Redeemed(_, id, d) => P.Redemption(true, true, true, idText(id), BoundOperation(d))
    case Checked(_, d) => P.Redemption(true, false, false, [], BoundOperation(d))
    case Denied(_) => P.Redemption(false, false, false, [], BoundOperation(NOTHING))
  }

  const NOTHING := C.Demand([], map[], [], [], None, None)

  /** The terms of a call, read as a demand. */
  function SubmittedTerms(call: P.Call): C.Demand {
    var t := call.req.terms;
    C.Demand(t.action, t.context, t.recipient, t.termsDigest, Some(t.resource), Some(t.purpose))
  }

  lemma SubmissionIsAdmitted(c: P.Cell, call: P.Call, room: bool)
    ensures P.Execute(c, call, room).cell != c ==> P.Admitted(call)
  {}

  /** An admitted call submits the very demand that was verified. */
  lemma AdmittedTermsAreVerified(r: C.Outcome, idText: C.Cid -> Text, call: P.Call)
    requires call.redemption == ResultOf(r, idText) && P.Admitted(call)
    ensures r.Redeemed? && SubmittedTerms(call) == r.operation
  {
    PrintInjective(VObj(call.redemption.operation.args), VObj(call.req.terms.context));
  }

  /**
   * End to end: whatever a call submits under the result of an authorization lies within the
   * command, policy, window, amount, currency, claims, recipient and terms of every link of the
   * chain - the root's and every ancestor's, not only the leaf's - and was presented with a proof of
   * the recipient's key over this chain.
   */
  lemma EffectWithinEveryLink(
    keys: map<Text, C.Key>, revoked: C.Revocations, ledger: C.Ledger, chain: C.Chain, d: C.Demand, now: int,
    mode: C.Mode, idText: C.Cid -> Text, c: P.Cell, call: P.Call, room: bool, k: nat)
    requires call.redemption == ResultOf(C.Authorize(keys, revoked, ledger, chain, d, now, mode), idText)
    requires k < |chain|
    ensures P.Execute(c, call, room).cell.submits > c.submits ==>
      && L.Bounds(chain[k].payload, SubmittedTerms(call), now) && C.Authentic(keys, chain[k])
      && mode.Redeem? && M.Possesses(keys, chain[|chain| - 1].payload, mode.proof)
  {
    var r := C.Authorize(keys, revoked, ledger, chain, d, now, mode);
    if P.Execute(c, call, room).cell.submits > c.submits {
      SubmissionIsAdmitted(c, call, room);
      AdmittedTermsAreVerified(r, idText, call);
      L.AcceptedBoundsEveryLink(keys, revoked, ledger, chain, d, now, mode, k);
      AuthorizeEchoes(keys, revoked, ledger, chain, d, now, mode);
      M.RedeemMeans(keys, revoked, ledger, chain, d, now, mode.proof);
    }
  }

  lemma AuthorizeEchoes(keys: map<Text, C.Key>, revoked: C.Revocations, ledger: C.Ledger, chain: C.Chain, d: C.Demand,
                        now: int, mode: C.Mode)
    ensures var r := C.Authorize(keys, revoked, ledger, chain, d, now, mode);
      (r.Redeemed? ==> mode.Redeem? && r.operation == d) && (r.Checked? ==> mode.Check? && r.operation == d)
  {}

  /** A check is a dry run: its result executes nothing and leaves no trace in the journal. */
  lemma CheckNeverExecutes(
    keys: map<Text, C.Key>, revoked: C.Revocations, ledger: C.Ledger, chain: C.Chain, d: C.Demand, now: int,
    idText: C.Cid -> Text, c: P.Cell, call: P.Call, room: bool)
    requires call.redemption == ResultOf(C.Authorize(keys, revoked, ledger, chain, d, now, C.Check), idText)
    ensures P.Execute(c, call, room) == P.Run(c, P.Failed, false)
  {
    AuthorizeEchoes(keys, revoked, ledger, chain, d, now, C.Check);
  }

  // ---------------------------------------------------------------- and what is redeemed can be executed

  /** The call asks for exactly the demand, under the capability that was redeemed. */
  predicate AsksFor(call: P.Call, d: C.Demand, capabilityId: Text) {
    && d.resource.Some? && d.purpose.Some?
    && call.req == P.Request(capabilityId, J.Terms(d.termsDigest, d.cmd, d.recipient, d.resource.value, d.purpose.value, d.args))
  }

  lemma CoveredIsCommand(broad: Text, narrow: Text)
    requires |broad| >= 2 && broad[0] == 47 && A.CommandUnder(broad, narrow)
    ensures |narrow| >= 2 && narrow[0] == 47
  {}

  lemma RedeemedTerms(keys: map<Text, C.Key>, revoked: C.Revocations, ledger: C.Ledger, chain: C.Chain, d: C.Demand,
                      now: int, proof: C.Proof)
    requires C.Authorize(keys, revoked, ledger, chain, d, now, C.Redeem(proof)).Redeemed?
    ensures chain != [] && M.Named(d) && M.Within(chain[|chain| - 1].payload, d) && |d.termsDigest| >= 16
    ensures |d.cmd| >= 2 && d.cmd[0] == 47
  {
    M.RedeemMeans(keys, revoked, ledger, chain, d, now, proof);
    M.CheckMeans(keys, revoked, ledger, chain, d, now);
    var leaf := chain[|chain| - 1].payload;
    assert M.WellShaped(leaf);
    CoveredIsCommand(leaf.cmd, d.cmd);
  }

  /**
   * A redeemed demand is executed: the first uninterrupted call that asks for it and is answered well
   * returns a receipt for the recipient, resource, purpose and digest of the leaf.
   */
  lemma RedeemedExecutes(
    keys: map<Text, C.Key>, revoked: C.Revocations, ledger: C.Ledger, chain: C.Chain, d: C.Demand, now: int,
    proof: C.Proof, idText: C.Cid -> Text, call: P.Call, ref: Text)
    requires C.Authorize(keys, revoked, ledger, chain, d, now, C.Redeem(proof)).Redeemed?
    requires call.redemption == ResultOf(C.Authorize(keys, revoked, ledger, chain, d, now, C.Redeem(proof)), idText)
    requires var id := idText(C.Cid(C.Leaf(chain))); |id| >= 8 && AsksFor(call, d, id)
    requires R.Digest(d.termsDigest) && R.ScopeName(call.scope) && d.recipient != []
    requires |call.newId| == 32 && R.Hex(call.newId) && (call.maxAttempts.Some? ==> call.maxAttempts.value >= 1)
    requires call.stop.steps >= 6 && call.submit == P.SubmitReturns(true, Some(ref), true) && 1 <= |ref| <= 256
    ensures var leaf := C.Leaf(chain);
      P.Execute(P.VACANT, call, true).outcome == P.Returned(P.Receipt(
        Lit("rcpt-") + call.nonce, idText(C.Cid(leaf)), leaf.recipient, leaf.resource, leaf.purpose, ref, call.at, leaf.termsDigest))
  {
    RedeemedTerms(keys, revoked, ledger, chain, d, now, proof);
    M.ResultsMean(keys, revoked, ledger, chain, d, now, C.Redeem(proof));
    AuthorizeEchoes(keys, revoked, ledger, chain, d, now, C.Redeem(proof));
    assert R.Cleared(call);
    R.AdmittedMeans(call);
    assert |Lit("ptf-")| == 4;
    J.CreationMeans([], P.NewFor(call));
    R.FirstReceipt(call, ref);
  }
}
