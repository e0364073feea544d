/**
 * Whole runs of the journal: any number of calls for one key, cut off anywhere, mixed with
 * restart recovery and aborts; and the same for a directory holding every key at once.
 */
module JournalRuns {
  import opened Basics
  import opened Canonical
  import opened Journal
  import opened Providers

  // ---------------------------------------------------------------- one key's history

  datatype Event =
    | Attempt(call: Call, room: bool)
    | Recover(now: int)
    | Abandon(why: AbortReason, now: int)

  function StepCell(c: Cell, e: Event): Cell {
    match e
    case Attempt(call, room) => Execute(c, call, room).cell
    case Recover(now) =>
      if c.rec.Some? && c.rec.value.state == SUBMITTING then Shift(c, SUBMITTED_UNKNOWN, RESTARTED, now) else c
    case Abandon(why, now) =>
      if c.rec.Some? && (c.rec.value.state == PREPARED || c.rec.value.state == AUTHORIZED)
      then Shift(c, FAILED_FINAL, AbortNote(why), now) else c
  }

  function After(events: seq<Event>): Cell {
    if events == [] then VACANT else StepCell(After(ButLast(events)), Last(events))
  }

  /**
   * Honest answers: "absent" is final, an attested query answer reports an effect that exists,
   * and an attested submission has an effect behind it (a new one or one made earlier).
   * Everything else - throwing, "unknown", failed attestation - may be said at any time.
   */
  predicate Honest(c: Cell, call: Call) {
    && (call.query.Absent? ==> c.effects == 0)
    && (call.query.Effected? && call.query.attested ==> c.effects >= 1)
    && (call.submit.SubmitReturns? && call.submit.attested ==> call.submit.effected || c.effects >= 1)
  }

  predicate HonestRun(events: seq<Event>) {
    events != [] ==>
      && HonestRun(ButLast(events))
      && (Last(events).Attempt? ==> Honest(After(ButLast(events)), Last(events).call))
  }

  // ---------------------------------------------------------------- counters, whatever is answered

  /** The state fixes how many transitions were made, up to the attempt count. */
  predicate Counted(state: ExecutionState, attempts: nat, moves: nat) {
    match state
    case PREPARED => attempts == 0 && moves == 0
    case AUTHORIZED => attempts == 0 && moves == 1
    case SUBMITTING => attempts >= 1 && moves == 2 * attempts
    case SUBMITTED_UNKNOWN => attempts >= 1 && moves == 2 * attempts + 1
    case SUCCEEDED => attempts >= 1 && 2 * attempts + 1 <= moves <= 2 * attempts + 2
    case FAILED_FINAL => attempts == 0 && 1 <= moves <= 2
    case RECONCILED => attempts >= 1 && moves == 2 * attempts + 2
  }

  predicate Bounded(c: Cell) {
    if c.rec.None? then c == VACANT
    else
      var r := c.rec.value;
      && 0 <= c.effects <= c.submits <= r.attempts <= r.maxAttempts
      && 1 <= r.maxAttempts
      && Counted(r.state, r.attempts, c.moves)
      && (r.state == SUCCEEDED ==> ReceiptFromRecord(r).Some? && RefOk(r.externalRef) && RefOk(r.receiptId))
  }

  lemma AnswerBounded(c: Cell, call: Call)
    requires Bounded(c) && c.rec.Some? && c.rec.value.state == SUBMITTING
    ensures Bounded(AnswerRun(c, call).cell)
  {}

  lemma SubmitBounded(c: Cell, call: Call, n: nat, started: bool)
    requires Bounded(c) && c.rec.Some?
    requires c.rec.value.state == AUTHORIZED
          || (c.rec.value.state == SUBMITTED_UNKNOWN && c.rec.value.attempts < c.rec.value.maxAttempts)
    ensures Bounded(SubmitRun(c, call, n, started).cell)
  {
    var s := Submitted(Shift(c, SUBMITTING, NOTHING, call.now), call);
    assert Bounded(s);
    AnswerBounded(s, call);
  }

  lemma SettleBounded(c: Cell, call: Call, n: nat)
    requires Bounded(c) && c.rec.Some? && c.rec.value.state == SUBMITTED_UNKNOWN
    ensures Bounded(SettleRun(c, call, n).cell)
  {
    if n > 0 && c.rec.value.attempts < c.rec.value.maxAttempts { SubmitBounded(c, call, n - 1, true); }
  }

  lemma ResumeBounded(c: Cell, call: Call, n: nat)
    requires Bounded(c) && c.rec.Some?
    ensures Bounded(ResumeRun(c, call, n).cell)
  {
    var state := c.rec.value.state;
    if state == AUTHORIZED { SubmitBounded(c, call, n, false); }
    if state == SUBMITTED_UNKNOWN { SettleBounded(c, call, n); }
    if n > 0 && state == PREPARED { SubmitBounded(Shift(c, AUTHORIZED, NOTHING, call.now), call, n - 1, false); }
    if n > 0 && state == SUBMITTING { SettleBounded(Shift(c, SUBMITTED_UNKNOWN, RESUMED, call.now), call, n - 1); }
  }

  lemma StepBounded(c: Cell, e: Event)
    requires Bounded(c)
    ensures Bounded(StepCell(c, e))
  {
    if e.Attempt? {
      var call := e.call;
      if c.rec.Some? {
        ResumeBounded(c, call, call.stop.steps);
      } else if call.stop.steps > 0 && NewExecutionOk(NewFor(call)) {
        ResumeBounded(c.(rec := Some(Prepared(NewFor(call), call.now))), call, call.stop.steps - 1);
      }
    }
  }

  lemma {:induction false} RunBounded(events: seq<Event>)
    ensures Bounded(After(events))
    decreases |events|
  {
    if events == [] {
    } else {
      RunBounded(ButLast(events));
      StepBounded(After(ButLast(events)), Last(events));
    }
  }

  /**
   * However providers, queries and crashes behave: effects <= submissions <= attempts <= the
   * budget fixed at creation, and the cycle in the transition map is walked at most that often.
   */
  lemma BudgetHolds(events: seq<Event>)
    ensures var c := After(events);
      c.rec.Some? ==>
        && c.effects <= c.submits <= c.rec.value.attempts <= c.rec.value.maxAttempts
        && c.moves <= 2 * c.rec.value.maxAttempts + 2
  {
    RunBounded(events);
  }

  // ---------------------------------------------------------------- effects, under honest answers

  /** What the durable state proves about the outside world. */
  predicate Sound(c: Cell) {
    && Bounded(c)
    && c.effects <= 1
    && (c.rec.Some? && c.rec.value.state == SUCCEEDED ==> c.effects == 1)
  }

  lemma SubmitSound(c: Cell, call: Call, n: nat, started: bool)
    requires Sound(c) && c.rec.Some? && c.effects == 0
    requires call.submit.SubmitReturns? && call.submit.attested ==> call.submit.effected
    requires c.rec.value.state == AUTHORIZED
          || (c.rec.value.state == SUBMITTED_UNKNOWN && c.rec.value.attempts < c.rec.value.maxAttempts)
    ensures Sound(SubmitRun(c, call, n, started).cell)
  {
    SubmitBounded(c, call, n, started);
  }

  lemma SettleSound(c: Cell, call: Call, n: nat)
    requires Sound(c) && c.rec.Some? && c.rec.value.state == SUBMITTED_UNKNOWN
    requires Honest(c, call)
    ensures Sound(SettleRun(c, call, n).cell)
  {
    SettleBounded(c, call, n);
    if n > 0 && call.query.Absent? && c.rec.value.attempts < c.rec.value.maxAttempts {
      SubmitSound(c, call, n - 1, true);
    }
  }

  lemma ResumeSound(c: Cell, call: Call, n: nat)
    requires Sound(c) && c.rec.Some? && Honest(c, call)
    ensures Sound(ResumeRun(c, call, n).cell)
  {
    ResumeBounded(c, call, n);
    var state := c.rec.value.state;
    if state == AUTHORIZED { SubmitSound(c, call, n, false); }
    if state == SUBMITTED_UNKNOWN { SettleSound(c, call, n); }
    if n > 0 && state == PREPARED { SubmitSound(Shift(c, AUTHORIZED, NOTHING, call.now), call, n - 1, false); }
    if n > 0 && state == SUBMITTING { SettleSound(Shift(c, SUBMITTED_UNKNOWN, RESUMED, call.now), call, n - 1); }
  }

  lemma StepSound(c: Cell, e: Event)
    requires Sound(c)
    requires e.Attempt? ==> Honest(c, e.call)
    ensures Sound(StepCell(c, e))
  {
    StepBounded(c, e);
    if e.Attempt? {
      var call := e.call;
      if c.rec.Some? {
        ResumeSound(c, call, call.stop.steps);
      } else if call.stop.steps > 0 && NewExecutionOk(NewFor(call)) {
        ResumeSound(c.(rec := Some(Prepared(NewFor(call), call.now))), call, call.stop.steps - 1);
      }
    }
  }

  lemma {:induction false} RunSound(events: seq<Event>)
    requires HonestRun(events)
    ensures Sound(After(events))
    decreases |events|
  {
    if events == [] {
    } else {
      RunSound(ButLast(events));
      StepSound(After(ButLast(events)), Last(events));
    }
  }

  /**
   * Safety over whole runs: at most one external effect; SUCCEEDED means exactly one;
   * PREPARED, AUTHORIZED and FAILED_FINAL mean that nothing was even submitted.
   */
  lemma {:induction false} AtMostOneEffect(events: seq<Event>)
    requires HonestRun(events)
    ensures var c := After(events);
      && c.effects <= 1
      && (c.rec.None? ==> c.effects == 0)
      && (c.rec.Some? && c.rec.value.state == SUCCEEDED ==> c.effects == 1)
      && (c.rec.Some? && c.rec.value.state in {PREPARED, AUTHORIZED, FAILED_FINAL} ==> c.effects == 0 && c.submits == 0)
  {
    RunSound(events);
  }

  // ---------------------------------------------------------------- why "absent" must be final

  /** A submission that throws although the effect landed, then a query that answers "absent". */
  function LostReply(first: Call, second: Call): seq<Event> {
    [Attempt(first, true), Attempt(second, true)]
  }

  /**
   * Drop the finality of "absent" and the guarantee is gone: if the first submission throws after
   * its effect landed and the query then says absent, the retry makes a second effect - for every
   * such pair of calls whose budget allows a retry.
   */
  lemma PrematureAbsentDuplicates(first: Call, second: Call)
    requires Admitted(first) && Admitted(second) && NewExecutionOk(NewFor(first))
    requires OrElse(first.maxAttempts, 3) >= 2
    requires first.submit == SubmitThrows(true) && first.stop.steps >= 5
    requires second.query == Absent && second.submit.effected && second.stop.steps >= 3
    ensures After(LostReply(first, second)).effects == 2
  {
    AfterTwo(Attempt(first, true), Attempt(second, true));
    LostReplyFirst(first);
    RetriedDespiteEffect(StepCell(VACANT, Attempt(first, true)), second);
  }

  lemma AfterTwo(a: Event, b: Event)
    ensures After([a, b]) == StepCell(StepCell(VACANT, a), b)
  {
    assert ButLast([a, b]) == [a] && ButLast([a]) == [];
    assert After([a]) == StepCell(After([]), a);
  }

  lemma LostReplyFirst(first: Call)
    requires Admitted(first) && NewExecutionOk(NewFor(first))
    requires first.submit == SubmitThrows(true) && first.stop.steps >= 5
    ensures var c := StepCell(VACANT, Attempt(first, true));
      c.rec.Some? && c.effects == 1 && c.rec.value.state == SUBMITTED_UNKNOWN && c.rec.value.attempts == 1
      && c.rec.value.maxAttempts == OrElse(first.maxAttempts, 3)
  {
    var start := VACANT.(rec := Some(Prepared(NewFor(first), first.now)));
    assert StepCell(VACANT, Attempt(first, true)) == ResumeRun(start, first, first.stop.steps - 1).cell;
    var cleared := Shift(start, AUTHORIZED, NOTHING, first.now);
    assert ResumeRun(start, first, first.stop.steps - 1) == SubmitRun(cleared, first, first.stop.steps - 2, false);
  }

  lemma RetriedDespiteEffect(c: Cell, second: Call)
    requires c.rec.Some? && c.effects == 1 && c.rec.value.state == SUBMITTED_UNKNOWN
    requires c.rec.value.attempts < c.rec.value.maxAttempts
    requires Admitted(second) && second.query == Absent && second.submit.effected && second.stop.steps >= 3
    ensures StepCell(c, Attempt(second, true)).effects == 2
  {
    assert StepCell(c, Attempt(second, true)) == SettleRun(c, second, second.stop.steps).cell;
  }

  // ---------------------------------------------------------------- terminal records and receipts

  predicate Settled(c: Cell) { c.rec.Some? && Terminal(c.rec.value.state) }

  lemma SettledStays(c: Cell, e: Event)
    requires Settled(c)
    ensures StepCell(c, e) == c
  {}

  /** Nothing moves a terminal record, and no later call submits anything. */
  lemma {:induction false} TerminalIsFinal(events: seq<Event>, later: seq<Event>)
    requires Settled(After(events))
    ensures After(events + later) == After(events)
    decreases |later|
  {
    if later == [] {
      assert events + later == events;
    } else {
      TerminalIsFinal(events, ButLast(later));
      assert ButLast(events + later) == events + ButLast(later) && Last(events + later) == Last(later);
      SettledStays(After(events), Last(later));
    }
  }

  /** What no transition changes. */
  predicate SameOrigin(a: Record, b: Record) {
    && a.executionId == b.executionId && a.idempotencyKey == b.idempotencyKey && a.capabilityId == b.capabilityId
    && a.terms == b.terms && a.createdAt == b.createdAt && a.maxAttempts == b.maxAttempts
  }

  predicate KeepsOrigin(c: Cell, d: Cell)
    requires c.rec.Some?
  {
    d.rec.Some? && SameOrigin(c.rec.value, d.rec.value)
  }

  predicate DurableIfReturned(run: Run) {
    run.outcome.Returned? ==> Settled(run.cell) && ReceiptFromRecord(run.cell.rec.value) == Some(run.outcome.receipt)
  }

  lemma SubmitFaithful(c: Cell, call: Call, n: nat, started: bool)
    requires c.rec.Some?
    ensures KeepsOrigin(c, SubmitRun(c, call, n, started).cell) && DurableIfReturned(SubmitRun(c, call, n, started))
  {}

  lemma SettleFaithful(c: Cell, call: Call, n: nat)
    requires c.rec.Some?
    ensures KeepsOrigin(c, SettleRun(c, call, n).cell) && DurableIfReturned(SettleRun(c, call, n))
  {
    if n > 0 { SubmitFaithful(c, call, n - 1, true); }
  }

  lemma ResumeFaithful(c: Cell, call: Call, n: nat)
    requires c.rec.Some?
    ensures KeepsOrigin(c, ResumeRun(c, call, n).cell) && DurableIfReturned(ResumeRun(c, call, n))
  {
    SubmitFaithful(c, call, n, false);
    SettleFaithful(c, call, n);
    if n > 0 {
      SubmitFaithful(Shift(c, AUTHORIZED, NOTHING, call.now), call, n - 1, false);
      SettleFaithful(Shift(c, SUBMITTED_UNKNOWN, RESUMED, call.now), call, n - 1);
    }
  }

  /** A returned receipt is the one the durable record holds. */
  lemma ReturnedIsDurable(c: Cell, call: Call, room: bool)
    ensures DurableIfReturned(Execute(c, call, room))
  {
    if c.rec.Some? {
      ResumeFaithful(c, call, call.stop.steps);
    } else if call.stop.steps > 0 {
      ResumeFaithful(c.(rec := Some(Prepared(NewFor(call), call.now))), call, call.stop.steps - 1);
    }
  }

  /** The outcome of the last event, when it is a call that returned. */
  predicate ReturnsAt(events: seq<Event>, receipt: Receipt) {
    && events != [] && Last(events).Attempt?
    && Execute(After(ButLast(events)), Last(events).call, Last(events).room).outcome == Returned(receipt)
  }

  /** Every returning call of a run, early or late, returns one and the same receipt. */
  lemma OneReceipt(events: seq<Event>, later: seq<Event>, a: Receipt, b: Receipt)
    requires ReturnsAt(events, a) && ReturnsAt(events + later, b)
    ensures a == b
  {
    ReturnedIsDurable(After(ButLast(events)), Last(events).call, Last(events).room);
    var all := events + later;
    ReturnedIsDurable(After(ButLast(all)), Last(all).call, Last(all).room);
    TerminalIsFinal(events, later);
  }

  /** Once a call has returned, every admitted call returns that receipt and submits nothing. */
  lemma ReplayReturnsIt(events: seq<Event>, receipt: Receipt, later: seq<Event>, call: Call, room: bool)
    requires ReturnsAt(events, receipt) && Admitted(call)
    ensures var c := After(events + later);
      Execute(c, call, room) == Run(c, Returned(receipt), false)
  {
    ReturnedIsDurable(After(ButLast(events)), Last(events).call, Last(events).room);
    TerminalIsFinal(events, later);
  }

  // ---------------------------------------------------------------- keys

  /** Distinct digest-and-scope pairs never share a key. */
  lemma KeysDistinct(d: Text, s: Text, e: Text, t: Text)
    requires DeriveIdempotencyKey(d, s).Some?
    requires DeriveIdempotencyKey(d, s) == DeriveIdempotencyKey(e, t)
    ensures d == e && s == t
  {
    KeyAt(d, s);
    KeyAt(e, t);
    var k := DeriveIdempotencyKey(d, s).value;
    assert k[4 + |d|] == DASH == k[4 + |e|] && |d| == |e|;
    assert d == k[4..4 + |d|] == e;
    assert s == k[5 + |d|..] == t;
  }

  lemma NoDashIn(d: Text)
    requires DigestText(d)
    ensures forall i :: 0 <= i < |d| ==> d[i] != DASH
  {
    assert Lit("sha256:") == [115, 104, 97, 50, 53, 54, 58];
    forall i | 0 <= i < |d| ensures d[i] != DASH {
      if HexText(d, 16, 128) { assert d[i] in d; } else if i < 7 { assert d[i] == Lit("sha256:")[i]; }
    }
  }

  lemma KeyAt(d: Text, s: Text)
    requires DeriveIdempotencyKey(d, s).Some?
    ensures var k := DeriveIdempotencyKey(d, s).value;
      && |k| == 5 + |d| + |s| && k[4 + |d|] == DASH && k[4..4 + |d|] == d && k[5 + |d|..] == s
      && forall i :: 4 <= i < 4 + |d| ==> k[i] != DASH
  {
    assert |Lit("ptf-")| == 4;
    var k := DeriveIdempotencyKey(d, s).value;
    NoDashIn(d);
    forall i | 4 <= i < 4 + |d| ensures k[i] != DASH { assert k[i] == d[i - 4]; }
  }

  /** Every call of the history is for this key. */
  predicate ForKey(events: seq<Event>, key: Text) {
    forall i :: 0 <= i < |events| && events[i].Attempt? ==> KeyOf(events[i].call) == key
  }

  /** The call that created the record. */
  predicate Created(r: Record, e: Event) {
    && e.Attempt? && Admitted(e.call) && NewExecutionOk(NewFor(e.call))
    && SameOrigin(r, Prepared(NewFor(e.call), e.call.now))
  }

  /** Every record goes back to one admitted call of the history: its terms are that call's terms. */
  lemma {:induction false} RecordHasCreator(events: seq<Event>) returns (i: nat)
    requires After(events).rec.Some?
    ensures i < |events| && Created(After(events).rec.value, events[i])
    decreases |events|
  {
    var c, e := After(ButLast(events)), Last(events);
    if c.rec.Some? {
      if e.Attempt? { ResumeFaithful(c, e.call, e.call.stop.steps); }
      i := RecordHasCreator(ButLast(events));
    } else {
      var fresh_ := c.(rec := Some(Prepared(NewFor(e.call), e.call.now)));
      ResumeFaithful(fresh_, e.call, e.call.stop.steps - 1);
      i := |events| - 1;
    }
  }

  /** The record under a key was written for the very digest that the key was derived from. */
  lemma RecordMatchesKey(events: seq<Event>, digest: Text, scope: Text)
    requires DeriveIdempotencyKey(digest, scope).Some?
    requires ForKey(events, DeriveIdempotencyKey(digest, scope).value)
    ensures var c := After(events);
      c.rec.Some? ==>
        && c.rec.value.idempotencyKey == DeriveIdempotencyKey(digest, scope).value
        && c.rec.value.terms.termsDigest == digest
  {
    if After(events).rec.Some? {
      var i := RecordHasCreator(events);
      var call := events[i].call;
      KeysDistinct(digest, scope, call.req.terms.termsDigest, call.scope);
    }
  }

  // ---------------------------------------------------------------- the directory and every key in it

  lemma {:induction false} RecoveredFinds(rs: seq<Record>, now: int, key: Text)
    ensures Find(AllRecovered(rs, now), key)
         == if Find(rs, key).Some? then Some(Recovered(Find(rs, key).value, now)) else None
  {
    if rs == [] {
    } else {
      assert AllRecovered(rs, now)[1..] == AllRecovered(rs[1..], now);
      RecoveredFinds(rs[1..], now, key);
    }
  }

  lemma {:induction false} CaughtOnce(rs: seq<Record>, key: Text)
    requires Unique(rs)
    ensures Caught(rs)[key]
         == if Find(rs, key).Some? && Find(rs, key).value.state == SUBMITTING then 1 else 0
    decreases |rs|
  {
    if rs == [] {
    } else {
      var front, r := ButLast(rs), Last(rs);
      assert rs == front + [r];
      CaughtOnce(front, key);
      FindAppend(front, r, key);
      FoundIn(front, key);
    }
  }

  /**
   * A host on one store directory and one rail. `past` is what each key went through; it decides
   * the whole state, so the theorems about histories hold for every run of these methods.
   */
  class Host {
    const journal: JournalStore
    const rail: Rail
    ghost var past: Text -> seq<Event>

    ghost predicate Valid()
      reads this, journal, rail
    {
      && journal.Valid()
      && (forall key :: CellOf(journal, rail, key) == After(past(key)))
      && (forall key :: ForKey(past(key), key))
    }

    constructor ()
      ensures Valid() && fresh(journal) && fresh(rail) && past == (key => [])
    {
      journal := new JournalStore();
      rail := new Rail();
      past := key => [];
    }

    method Run(call: Call) returns (out: Outcome, started: bool)
      requires Valid()
      modifies this, journal, rail
      ensures Valid()
      ensures var room := old(Room(journal.records, call.newId));
        && past == Extended(old(past), KeyOf(call), Attempt(call, room))
        && out == Execute(After(old(past)(KeyOf(call))), call, room).outcome
        && started == Execute(After(old(past)(KeyOf(call))), call, room).started
    {
      ghost var room := Room(journal.records, call.newId);
      out, started := ExecuteWithJournal(journal, rail, call);
      past := Extended(past, KeyOf(call), Attempt(call, room));
      forall key ensures CellOf(journal, rail, key) == After(past(key)) && ForKey(past(key), key) {
        ExtendedAt(old(past), KeyOf(call), Attempt(call, room), key);
      }
    }

    method Restart(now: int) returns (unsettled: seq<Record>)
      requires Valid()
      modifies this, journal
      ensures Valid()
      ensures past == (key => old(past)(key) + [Recover(now)])
      ensures unsettled == Unsettled(journal.records)
    {
      ghost var rs := journal.records;
      unsettled := journal.RecoverUnsettled(now);
      past := key => old(past)(key) + [Recover(now)];
      forall key ensures CellOf(journal, rail, key) == After(past(key)) && ForKey(past(key), key) {
        RecoveredFinds(rs, now, key);
        CaughtOnce(rs, key);
        assert ButLast(past(key)) == old(past)(key);
      }
    }

    method Abort(id: Text, why: AbortReason, now: int) returns (r: Option<Record>)
      requires Valid()
      modifies this, journal
      ensures Valid()
      ensures past == if r.Some? then Extended(old(past), r.value.idempotencyKey, Abandon(why, now)) else old(past)
    {
      ghost var rs := journal.records;
      ByIdIn(rs, id);
      r := journal.AbortExecution(id, why, now);
      if r.Some? {
        ghost var before := ById(rs, id).value;
        ghost var i := Locate(rs, before);
        FindIs(rs, i);
        RewriteFinds(rs, before, r.value);
        past := Extended(past, r.value.idempotencyKey, Abandon(why, now));
        forall key ensures CellOf(journal, rail, key) == After(past(key)) && ForKey(past(key), key) {
          ExtendedAt(old(past), r.value.idempotencyKey, Abandon(why, now), key);
        }
      }
    }
  }

  ghost function Extended(past: Text -> seq<Event>, key: Text, e: Event): Text -> seq<Event> {
    k => if k == key then past(k) + [e] else past(k)
  }

  lemma ExtendedAt(past: Text -> seq<Event>, key: Text, e: Event, k: Text)
    ensures After(Extended(past, key, e)(k)) == if k == key then StepCell(After(past(k)), e) else After(past(k))
    ensures ForKey(past(k), k) && (e.Attempt? ==> KeyOf(e.call) == key) ==> ForKey(Extended(past, key, e)(k), k)
  {
    assert ButLast(past(k) + [e]) == past(k);
  }
}
