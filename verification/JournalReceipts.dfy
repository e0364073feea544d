/**
 * Where a receipt comes from (`executeWithJournal`, src/adapters/providers.ts): over every run, each
 * field of a returned receipt is traced to the answer of the rail, to the call that heard it, or to
 * the call that created the record.
 */
module JournalReceipts {
  import opened Basics
  import opened Canonical
  import C = CanonicalLaws
  import opened Journal
  import opened Providers
  import opened JournalRuns
  import opened JournalExactness

  /** The record carries this reference, and the identity and time of the call that heard it. */
  predicate Carries(c: Cell, ref: Option<Text>, call: Call) {
    && c.rec.Some? && c.rec.value.externalRef == ref
    && c.rec.value.receiptId == Some(Lit("rcpt-") + call.nonce) && c.rec.value.receiptAt == Some(call.at)
  }

  /** The reference that the query, or else the provider, answered with. */
  function Answered(call: Call): Option<Text> {
    if call.query.Effected? then call.query.ref
    else if call.submit.SubmitReturns? then call.submit.ref
    else None
  }

  lemma SubmitCarries(c: Cell, call: Call, n: nat, started: bool)
    requires c.rec.Some? && !Succeeded(c)
    ensures var run := SubmitRun(c, call, n, started);
      Succeeded(run.cell) ==> call.submit.SubmitReturns? && Carries(run.cell, call.submit.ref, call)
  {}

  lemma SettleCarries(c: Cell, call: Call, n: nat)
    requires c.rec.Some? && !Succeeded(c)
    ensures Succeeded(SettleRun(c, call, n).cell) ==> Carries(SettleRun(c, call, n).cell, Answered(call), call)
  {
    if n > 0 { SubmitCarries(c, call, n - 1, true); }
  }

  /** A submission from an unsubmitted record is answered by the provider alone. */
  lemma ResumeCarries(c: Cell, call: Call, n: nat)
    requires c.rec.Some? && !Succeeded(c)
    ensures var d := ResumeRun(c, call, n).cell;
      Succeeded(d) ==>
        Carries(d, if c.rec.value.state == PREPARED || c.rec.value.state == AUTHORIZED then SubmitRef(call) else Answered(call), call)
  {
    match c.rec.value.state
    case PREPARED => if n > 0 { SubmitCarries(Shift(c, AUTHORIZED, NOTHING, call.now), call, n - 1, false); }
    case AUTHORIZED => SubmitCarries(c, call, n, false);
    case SUBMITTING => if n > 0 { SettleCarries(Shift(c, SUBMITTED_UNKNOWN, RESUMED, call.now), call, n - 1); }
    case SUBMITTED_UNKNOWN => SettleCarries(c, call, n);
    case _ =>
  }

  function SubmitRef(call: Call): Option<Text> { if call.submit.SubmitReturns? then call.submit.ref else None }

  /** The provider's answer was attested, usable and persisted by this call. */
  predicate ProviderSaid(c: Cell, e: Event, ref: Text) {
    SubmissionSucceeds(c, e) && e.call.submit.ref == Some(ref) && e.call.submit.attested
  }

  /** The query's answer was attested, usable and persisted by this call. */
  predicate QuerySaid(c: Cell, e: Event, ref: Text) { QuerySucceeds(c, e) && e.call.query == Effected(Some(ref), true) }

  /** The call that makes a record SUCCEEDED writes what it heard, under its own identity and time. */
  lemma SuccessWrites(c: Cell, e: Event)
    requires !Succeeded(c) && Succeeded(StepCell(c, e))
    ensures e.Attempt?
    ensures exists ref :: (ProviderSaid(c, e, ref) || QuerySaid(c, e, ref)) && Carries(StepCell(c, e), Some(ref), e.call)
  {
    StepDoes(c, e);
    if c.rec.Some? {
      ResumeCarries(c, e.call, e.call.stop.steps);
    } else {
      ResumeCarries(c.(rec := Some(Prepared(NewFor(e.call), e.call.now))), e.call, e.call.stop.steps - 1);
    }
    var ref := StepCell(c, e).rec.value.externalRef.value;
    assert ProviderSaid(c, e, ref) || QuerySaid(c, e, ref);
  }

  /** Which call of a run made the record SUCCEEDED, and what the record took from it. */
  lemma {:induction false} SuccessHasSource(events: seq<Event>) returns (i: nat, ref: Text)
    requires Succeeded(After(events))
    ensures i < |events| && events[i].Attempt?
    ensures ProviderSaid(After(events[..i]), events[i], ref) || QuerySaid(After(events[..i]), events[i], ref)
    ensures Carries(After(events), Some(ref), events[i].call)
    decreases |events|
  {
    var c, e := After(ButLast(events)), Last(events);
    if Succeeded(c) {
      i, ref := SuccessHasSource(ButLast(events));
      SettledMakesNone(c, e);
      assert ButLast(events)[..i] == events[..i];
    } else {
      SuccessWrites(c, e);
      i := |events| - 1;
      ref :| (ProviderSaid(c, e, ref) || QuerySaid(c, e, ref)) && Carries(StepCell(c, e), Some(ref), e.call);
      assert events[..i] == ButLast(events);
    }
  }

  /**
   * For every run and every call that returns: the receipt's transaction is the reference that the
   * provider or the query gave to call i, whose nonce and time it bears; its capability, recipient,
   * resource, purpose and digest are those of call j, which created the record.
   */
  lemma ReceiptHasSource(events: seq<Event>, receipt: Receipt) returns (i: nat, j: nat)
    requires ReturnsAt(events, receipt)
    ensures i < |events| && j < |events| && events[i].Attempt? && events[j].Attempt?
    ensures ProviderSaid(After(events[..i]), events[i], receipt.transaction)
         || QuerySaid(After(events[..i]), events[i], receipt.transaction)
    ensures receipt.receiptId == Lit("rcpt-") + events[i].call.nonce && receipt.at == events[i].call.at
    ensures var call := events[j].call;
      && Admitted(call)
      && receipt.capabilityId == call.req.capabilityId && receipt.recipient == call.req.terms.recipient
      && receipt.resource == call.req.terms.resource && receipt.purpose == call.req.terms.purpose
      && receipt.termsDigest == call.req.terms.termsDigest
  {
    ReturnedIsDurable(After(ButLast(events)), Last(events).call, Last(events).room);
    var ref: Text;
    i, ref := SuccessHasSource(events);
    j := RecordHasCreator(events);
  }

  /** The first call of a key, uninterrupted: the receipt repeats what the provider just answered. */
  lemma FirstReceipt(call: Call, ref: Text)
    requires Admitted(call) && NewExecutionOk(NewFor(call)) && call.stop.steps >= 5
    requires call.submit == SubmitReturns(true, Some(ref), true) && RefOk(Some(ref))
    ensures Execute(VACANT, call, true).outcome == Returned(Receipt(
      Lit("rcpt-") + call.nonce, call.req.capabilityId, call.req.terms.recipient, call.req.terms.resource,
      call.req.terms.purpose, ref, call.at, call.req.terms.termsDigest))
  {}

  // ---------------------------------------------------------------- who may start, and under which key

  predicate Hex(t: Text) { forall c :: c in t ==> ('0' as int <= c <= '9' as int) || ('a' as int <= c <= 'f' as int) }

  /** A digest as the journal takes it. */
  predicate Digest(t: Text) { (16 <= |t| <= 128 && Hex(t)) || Symbolic(t) }

  /** Lower-case letters, digits and dashes, no dash first. */
  predicate ScopeName(t: Text) {
    && t != [] && |t| <= 64 && t[0] != '-' as int
    && forall c :: c in t ==> ('0' as int <= c <= '9' as int) || ('a' as int <= c <= 'z' as int) || c == '-' as int
  }

  /** The key of a digest and a scope spells both out; anything malformed throws. */
  lemma KeyMeans(digest: Text, scope: Text)
    ensures DeriveIdempotencyKey(digest, scope) ==
      if Digest(digest) && ScopeName(scope) then Some(Lit("ptf-") + digest + Lit("-") + scope) else None
  {
    assert Lit("-") == [45];
    if scope != [] && ScopeName(scope) { assert scope[0] in scope; }
  }

  /** What a call must bring before the journal is touched: a used, proven redemption for exactly these terms. */
  predicate Cleared(call: Call) {
    var r, t := call.redemption, call.req.terms;
    && r.ok && r.consumed && r.proofVerified && r.chainId == call.req.capabilityId && |r.chainId| >= 8
    && t.termsDigest == r.operation.termsDigest && t.action == r.operation.cmd && t.recipient == r.operation.recipient
    && r.operation.resource == Some(t.resource) && r.operation.purpose == Some(t.purpose) && r.operation.args == t.context
    && |t.termsDigest| >= 16 && Digest(t.termsDigest) && ScopeName(call.scope)
    && |t.action| >= 2 && t.action[0] == '/' as int && t.recipient != [] && t.resource != [] && t.purpose != []
  }

  lemma AdmittedMeans(call: Call)
    ensures Admitted(call) <==> Cleared(call)
    ensures Admitted(call) ==> KeyOf(call) == Lit("ptf-") + call.req.terms.termsDigest + Lit("-") + call.scope
  {
    KeyMeans(call.req.terms.termsDigest, call.scope);
    if Print(VObj(call.redemption.operation.args)) == Print(VObj(call.req.terms.context)) {
      C.PrintInjective(VObj(call.redemption.operation.args), VObj(call.req.terms.context));
    }
  }

  /** The record a first call leaves if it is cut off right after creating it. */
  lemma CreatedMeans(call: Call)
    requires Cleared(call) && call.stop.steps == 1
    requires |call.newId| == 32 && Hex(call.newId) && (call.maxAttempts.Some? ==> call.maxAttempts.value >= 1)
    ensures Execute(VACANT, call, true).cell == Cell(Some(Record(
      call.newId, Lit("ptf-") + call.req.terms.termsDigest + Lit("-") + call.scope, call.req.capabilityId, call.req.terms,
      PREPARED, call.now, call.now, 0, if call.maxAttempts.Some? then call.maxAttempts.value else 3,
      None, None, None, None, None)), 0, 0, 0)
  {
    AdmittedMeans(call);
    assert |Lit("ptf-")| == 4;
  }

  /** Nothing that is not cleared touches record or rail. */
  lemma UnclearedDoesNothing(c: Cell, call: Call, room: bool)
    requires !Cleared(call)
    ensures Execute(c, call, room) == Run(c, Failed, false)
  {
    AdmittedMeans(call);
  }

  // ---------------------------------------------------------------- what each answer leaves behind

  /** The call is not cut off: at most five outside steps follow one another. */
  predicate Whole(call: Call) { call.stop.steps >= 6 }

  /** The record is now in this state under this note; nothing else of it says why. */
  predicate Noted(c: Cell, to: ExecutionState, note: string) {
    c.rec.Some? && c.rec.value.state == to && c.rec.value.lastError == Some(Lit(note))
  }

  /** One submission was made and counted, and had an effect if the rail says so. */
  predicate SubmittedOnce(before: Cell, after: Cell, call: Call) {
    && before.rec.Some? && after.rec.Some? && after.rec.value.attempts == before.rec.value.attempts + 1
    && after.submits == before.submits + 1 && after.effects == before.effects + (if call.submit.effected then 1 else 0)
  }

  predicate Unsubmitted(before: Cell, after: Cell) {
    && before.rec.Some? && after.rec.Some? && after.rec.value.attempts == before.rec.value.attempts
    && after.submits == before.submits && after.effects == before.effects
  }

  /** The provider's answer decides: only an attested one with a usable reference is a success. */
  predicate AsProviderSays(run: Run, call: Call) {
    match call.submit
    case SubmitThrows(_) => run.outcome.Ambiguous? && Noted(run.cell, SUBMITTED_UNKNOWN, "provider submission failed ambiguously")
    case SubmitReturns(_, ref, attested) =>
      if !attested then run.outcome.Ambiguous? && Noted(run.cell, SUBMITTED_UNKNOWN, "provider attestation failed")
      else if ref.None? || !(1 <= |ref.value| <= 256) then
        run.outcome.Ambiguous? && Noted(run.cell, SUBMITTED_UNKNOWN, "provider returned malformed ref")
      else run.outcome.Returned? && Succeeded(run.cell) && Carries(run.cell, ref, call)
  }

  lemma SubmitSays(c: Cell, call: Call, n: nat, started: bool)
    requires c.rec.Some? && n >= 3
    ensures var run := SubmitRun(c, call, n, started); run.started && SubmittedOnce(c, run.cell, call) && AsProviderSays(run, call)
  {}

  /** A record that was never submitted is submitted once, and the answer decides. */
  lemma FreshAttemptMeans(c: Cell, call: Call, room: bool)
    requires Cleared(call) && Whole(call) && c.rec.Some? && (c.rec.value.state == PREPARED || c.rec.value.state == AUTHORIZED)
    ensures var run := Execute(c, call, room); run.started && SubmittedOnce(c, run.cell, call) && AsProviderSays(run, call)
  {
    AdmittedMeans(call);
    if c.rec.value.state == PREPARED {
      SubmitSays(Shift(c, AUTHORIZED, NOTHING, call.now), call, call.stop.steps - 1, false);
    } else {
      SubmitSays(c, call, call.stop.steps, false);
    }
  }

  /** The first call of a key: its record is created and submitted once. */
  lemma FirstCallMeans(call: Call)
    requires Cleared(call) && Whole(call) && NewExecutionOk(NewFor(call))
    ensures var run := Execute(VACANT, call, true);
      && run.started && run.cell.submits == 1 && run.cell.effects == (if call.submit.effected then 1 else 0)
      && run.cell.rec.Some? && run.cell.rec.value.attempts == 1 && AsProviderSays(run, call)
  {
    AdmittedMeans(call);
    var c := VACANT.(rec := Some(Prepared(NewFor(call), call.now)));
    SubmitSays(Shift(c, AUTHORIZED, NOTHING, call.now), call, call.stop.steps - 2, false);
  }

  /** The query decides: nothing is submitted again unless it says absent and the budget is not used up. */
  predicate AsQuerySays(before: Cell, run: Run, call: Call)
    requires before.rec.Some?
  {
    var r := before.rec.value;
    match call.query
    case NoQuery => Unsubmitted(before, run.cell) && run.outcome.Ambiguous? && run.cell.rec.value.state == SUBMITTED_UNKNOWN
    case QueryThrows => Unsubmitted(before, run.cell) && run.outcome.Failed? && run.cell.rec.value.state == SUBMITTED_UNKNOWN
    case Effected(ref, attested) =>
      && Unsubmitted(before, run.cell)
      && if ref.None? || !(1 <= |ref.value| <= 256) then run.outcome.Failed? && run.cell.rec.value.state == SUBMITTED_UNKNOWN
         else if attested then run.outcome.Returned? && Succeeded(run.cell) && Carries(run.cell, ref, call)
         else Quarantined(run, call, "reconcile: provider attestation failed")
    case Unknown => Unsubmitted(before, run.cell) && Quarantined(run, call, "reconcile: provider state unknowable")
    case Absent =>
      if r.attempts < r.maxAttempts then SubmittedOnce(before, run.cell, call) && AsProviderSays(run, call)
      else Unsubmitted(before, run.cell) && Quarantined(run, call, "reconcile: attempt budget exhausted")
  }

  predicate Quarantined(run: Run, call: Call, note: string) {
    run.outcome.Ambiguous? && Noted(run.cell, RECONCILED, note) && run.cell.rec.value.reconciledAt == Some(call.now)
  }

  lemma SettleSays(c: Cell, call: Call, n: nat)
    requires c.rec.Some? && n >= 4 && c.rec.value.state == SUBMITTED_UNKNOWN
    ensures SettleRun(c, call, n).started && AsQuerySays(c, SettleRun(c, call, n), call)
  {
    if call.query.Absent? { SubmitSays(c, call, n - 1, true); }
  }

  /** A record whose outcome is open is settled by the query. */
  lemma OpenOutcomeMeans(c: Cell, call: Call, room: bool)
    requires Cleared(call) && Whole(call) && c.rec.Some?
    requires c.rec.value.state == SUBMITTING || c.rec.value.state == SUBMITTED_UNKNOWN
    ensures Execute(c, call, room).started && AsQuerySays(c, Execute(c, call, room), call)
    ensures c.rec.value.state == SUBMITTING && (call.query.NoQuery? || call.query.QueryThrows?) ==>
      Noted(Execute(c, call, room).cell, SUBMITTED_UNKNOWN, "resume found submitting record: effect unknown")
  {
    AdmittedMeans(call);
    if c.rec.value.state == SUBMITTING {
      SettleSays(Shift(c, SUBMITTED_UNKNOWN, RESUMED, call.now), call, call.stop.steps - 1);
    } else {
      SettleSays(c, call, call.stop.steps);
    }
  }

  /** A record that is final is only reported. */
  lemma FinalRecordMeans(c: Cell, call: Call, room: bool)
    requires Cleared(call) && c.rec.Some? && Terminal(c.rec.value.state)
    ensures var run, r := Execute(c, call, room), c.rec.value;
      && run.cell == c
      && (r.state == FAILED_FINAL ==> run.outcome.Failed? && !run.started)
      && (r.state == RECONCILED ==> run.outcome == Ambiguous(r.executionId) && run.started)
      && (r.state == SUCCEEDED && r.receiptId.Some? && r.receiptAt.Some? && r.externalRef.Some? ==>
            run.outcome == Returned(Receipt(r.receiptId.value, r.capabilityId, r.terms.recipient, r.terms.resource,
                                            r.terms.purpose, r.externalRef.value, r.receiptAt.value, r.terms.termsDigest)))
  {
    AdmittedMeans(call);
  }
}
