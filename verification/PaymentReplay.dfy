/**
 * Read-only replay of a payment attempt from the journal (src/privacy/payment-replay.ts), and
 * its agreement with the runs that wrote the journal.
 */
module PaymentReplay {
  import opened Basics
  import opened Canonical
  import opened CanonicalLaws
  import opened Journal
  import opened Providers
  import opened JournalRuns
  import R = JournalReceipts

  datatype Reason = CorruptRecord | Live | Mismatch | Quarantined | Unsubmitted

  datatype PaymentReceipt = PaymentReceipt(base: Receipt, amount: int, currency: Text)

  datatype Replay =
    | NoRecord
    | Replayed(record: Record, receipt: PaymentReceipt)
    | FinallyFailed(record: Record)
    | Unsure(evidence: Option<Record>, reason: Reason)

  const PAYMENT := Lit("payment")
  const AMOUNT := Lit("amount")
  const CURRENCY := Lit("currency")

  predicate Filled(t: Text, most: nat) { 1 <= |t| <= most }

  predicate SameTerms(actual: Terms, expected: Terms) {
    && actual.termsDigest == expected.termsDigest
    && actual.action == expected.action
    && actual.recipient == expected.recipient
    && actual.resource == expected.resource
    && actual.purpose == expected.purpose
    && Print(VObj(actual.context)) == Print(VObj(expected.context))
  }

  predicate SucceededRecord(r: Record) {
    && r.state == SUCCEEDED
    && r.receiptAt.Some?
    && r.receiptId.Some? && Filled(r.receiptId.value, 256)
    && r.externalRef.Some? && Filled(r.externalRef.value, 256)
    && r.capabilityId != [] && r.terms.recipient != [] && r.terms.resource != [] && r.terms.purpose != []
  }

  /** A positive amount and a short currency code. */
  predicate PaymentTerms(context: Bag) {
    && AMOUNT in context && context[AMOUNT].VNum? && context[AMOUNT].num > 0
    && CURRENCY in context && context[CURRENCY].VStr? && Filled(context[CURRENCY].text, 16)
  }

  function PaymentReceiptOf(r: Record): Option<PaymentReceipt> {
    if !SucceededRecord(r) || !PaymentTerms(r.terms.context) then None
    else
      Some(PaymentReceipt(
        Receipt(r.receiptId.value, r.capabilityId, r.terms.recipient, r.terms.resource, r.terms.purpose,
                r.externalRef.value, r.receiptAt.value, r.terms.termsDigest),
        r.terms.context[AMOUNT].num, r.terms.context[CURRENCY].text))
  }

  function Classify(r: Record): Replay {
    match r.state
    case SUCCEEDED =>
      var receipt := PaymentReceiptOf(r);
      if receipt.Some? then Replayed(r, receipt.value) else Unsure(Some(r), CorruptRecord)
    case FAILED_FINAL => FinallyFailed(r)
    case RECONCILED => Unsure(Some(r), Quarantined)
    case PREPARED => Unsure(Some(r), Unsubmitted)
    case AUTHORIZED => Unsure(Some(r), Unsubmitted)
    case _ => Unsure(Some(r), Live)
  }

  /** `find` is the journal lookup by idempotency key. */
  function Inspect(find: Text -> Option<Record>, expected: Terms): Replay {
    var key := DeriveIdempotencyKey(expected.termsDigest, PAYMENT);
    if key.None? then Unsure(None, CorruptRecord)
    else
      var found := find(key.value);
      if found.None? then NoRecord
      else if !SameTerms(found.value.terms, expected) then Unsure(found, Mismatch)
      else Classify(found.value)
  }

  /** The lookup that a key's history leaves behind. */
  function Finder(key: Text, events: seq<Event>): Text -> Option<Record> {
    k => if k == key then After(events).rec else None
  }

  /** Matching canonical contexts are equal contexts, so matching terms are equal terms. */
  lemma SameTermsAreEqual(a: Terms, b: Terms)
    ensures SameTerms(a, b) <==> a == b
  {
    if SameTerms(a, b) { PrintInjective(VObj(a.context), VObj(b.context)); }
  }

  /** A settled success has everything a payment receipt takes from outside the terms. */
  lemma {:induction false} SuccessIsComplete(events: seq<Event>)
    requires After(events).rec.Some? && After(events).rec.value.state == SUCCEEDED
    ensures SucceededRecord(After(events).rec.value)
  {
    RunBounded(events);
    var i := RecordHasCreator(events);
  }

  /** Success is reported for these terms and no others, with the record's own receipt. */
  predicate Reports(replay: Replay, rec: Option<Record>, expected: Terms, receipt: Receipt) {
    && rec.Some?
    && (replay.Replayed? <==> rec.value.terms == expected && PaymentTerms(expected.context))
    && (replay.Replayed? ==> replay.record == rec.value && replay.receipt.base == receipt)
  }

  /**
   * After any call of a history has returned a receipt, inspecting the journal reports success
   * exactly when it is asked about the terms that were executed and these are payment terms; and
   * then it reports that very receipt.
   */
  lemma InspectReportsTheReceipt(
    key: Text, events: seq<Event>, later: seq<Event>, receipt: Receipt, expected: Terms)
    requires DeriveIdempotencyKey(expected.termsDigest, PAYMENT) == Some(key)
    requires ReturnsAt(events, receipt)
    ensures Reports(Inspect(Finder(key, events + later), expected), After(events).rec, expected, receipt)
  {
    ReturnedIsDurable(After(ButLast(events)), Last(events).call, Last(events).room);
    TerminalIsFinal(events, later);
    SuccessIsComplete(events);
    SameTermsAreEqual(After(events).rec.value.terms, expected);
  }

  /**
   * What each answer proves about the world when the rail's answers are honest. A key that holds
   * a record for other terms, a live one or a quarantined one proves nothing but "at most one".
   */
  lemma {:induction false} InspectTellsEffects(key: Text, events: seq<Event>, expected: Terms)
    requires DeriveIdempotencyKey(expected.termsDigest, PAYMENT) == Some(key)
    requires HonestRun(events)
    ensures var effects := After(events).effects;
      match Inspect(Finder(key, events), expected)
      case NoRecord => effects == 0
      case Replayed(_, _) => effects == 1
      case FinallyFailed(_) => effects == 0
      case Unsure(_, reason) => if reason == Unsubmitted then effects == 0 else effects <= 1
  {
    AtMostOneEffect(events);
  }

  /** A run that executed `expected` under its payment key is never reported as a mismatch. */
  lemma OwnTermsNeverMismatch(key: Text, events: seq<Event>, expected: Terms)
    requires DeriveIdempotencyKey(expected.termsDigest, PAYMENT) == Some(key)
    requires forall i :: 0 <= i < |events| && events[i].Attempt? ==> events[i].call.req.terms == expected
    ensures var replay := Inspect(Finder(key, events), expected);
      replay.Unsure? ==> replay.reason != Mismatch
  {
    if After(events).rec.Some? {
      var i := RecordHasCreator(events);
      assert events[i].Attempt?;
    }
  }

  // ---------------------------------------------------------------- the answers, written out

  /** The record is a complete, bounded receipt for a payment. */
  predicate Complete(r: Record) {
    && r.receiptAt.Some?
    && r.receiptId.Some? && 1 <= |r.receiptId.value| <= 256 && r.externalRef.Some? && 1 <= |r.externalRef.value| <= 256
    && r.capabilityId != [] && r.terms.recipient != [] && r.terms.resource != [] && r.terms.purpose != []
    && Lit("amount") in r.terms.context && Lit("currency") in r.terms.context
    && (match r.terms.context[Lit("amount")] case VNum(n) => n > 0 case _ => false)
    && (match r.terms.context[Lit("currency")] case VStr(code) => 1 <= |code| <= 16 case _ => false)
  }

  /** The receipt repeats the record: its ids, its terms, the amount and currency of its context. */
  predicate ReceiptOf(p: PaymentReceipt, r: Record) {
    && r.receiptId == Some(p.base.receiptId) && r.externalRef == Some(p.base.transaction) && r.receiptAt == Some(p.base.at)
    && p.base.capabilityId == r.capabilityId && p.base.recipient == r.terms.recipient && p.base.resource == r.terms.resource
    && p.base.purpose == r.terms.purpose && p.base.termsDigest == r.terms.termsDigest
    && Lit("amount") in r.terms.context && r.terms.context[Lit("amount")] == VNum(p.amount)
    && Lit("currency") in r.terms.context && r.terms.context[Lit("currency")] == VStr(p.currency)
  }

  /** What is said of the record found for the expected terms. */
  predicate Tells(replay: Replay, r: Record, expected: Terms) {
    if r.terms != expected then replay == Unsure(Some(r), Mismatch)
    else
      match r.state
      case SUCCEEDED =>
        if Complete(r) then replay.Replayed? && replay.record == r && ReceiptOf(replay.receipt, r)
        else replay == Unsure(Some(r), CorruptRecord)
      case FAILED_FINAL => replay == FinallyFailed(r)
      case RECONCILED => replay == Unsure(Some(r), Quarantined)
      case PREPARED => replay == Unsure(Some(r), Unsubmitted)
      case AUTHORIZED => replay == Unsure(Some(r), Unsubmitted)
      case SUBMITTING => replay == Unsure(Some(r), Live)
      case SUBMITTED_UNKNOWN => replay == Unsure(Some(r), Live)
  }

  lemma ClassifyMeans(r: Record)
    ensures Tells(Classify(r), r, r.terms)
  {
    assert |Lit("amount")| == 6 && |Lit("currency")| == 8;
  }

  /** Whatever the journal holds: the record of these terms in the payment scope, and what it proves. */
  lemma InspectMeans(find: Text -> Option<Record>, expected: Terms)
    ensures var replay, key := Inspect(find, expected), Lit("ptf-") + expected.termsDigest + Lit("-") + Lit("payment");
      if !R.Digest(expected.termsDigest) then replay == Unsure(None, CorruptRecord)
      else if find(key).None? then replay == NoRecord
      else Tells(replay, find(key).value, expected)
  {
    R.KeyMeans(expected.termsDigest, Lit("payment"));
    assert Lit("payment") == [112, 97, 121, 109, 101, 110, 116];
    var key := DeriveIdempotencyKey(expected.termsDigest, PAYMENT);
    if key.Some? && find(key.value).Some? {
      SameTermsAreEqual(find(key.value).value.terms, expected);
      ClassifyMeans(find(key.value).value);
    }
  }
}
