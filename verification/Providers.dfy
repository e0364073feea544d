/**
 * Journaled protected execution (`executeWithJournal`, src/adapters/providers.ts). What the
 * outside world answers - the reconcile query, the provider, a cut-off - is a parameter of each
 * call, and the rail counts the external effects that really happened.
 */
module Providers {
  import opened Basics
  import opened Canonical
  import opened Journal

  // ---------------------------------------------------------------- what a call carries

  datatype Operation = Operation(
    cmd: Text, args: Bag, recipient: Text, resource: Option<Text>, purpose: Option<Text>, termsDigest: Text)

  datatype Redemption = Redemption(ok: bool, consumed: bool, proofVerified: bool, chainId: Text, operation: Operation)

  datatype Request = Request(capabilityId: Text, terms: Terms)

  /** A reference None is one that is not even text. */
  datatype QueryAnswer =
    NoQuery | QueryThrows | Effected(ref: Option<Text>, attested: bool) | Absent | Unknown

  datatype SubmitAnswer =
    | SubmitThrows(effected: bool)
    | SubmitReturns(effected: bool, ref: Option<Text>, attested: bool)

  /**
   * How many outside steps - durable writes, the query, the submission - a call completes before
   * it is cut off, and whether by a crash of the process or by a throwing step.
   */
  datatype Stop = Stop(steps: nat, crash: bool)

  /** Eight random bytes in hexadecimal. */
  type Nonce = t: Text | HexText(t, 16, 16) witness seq(16, _ => 48)

  datatype Call = Call(
    req: Request, redemption: Redemption, scope: Text, maxAttempts: Option<int>, now: int, at: int,
    newId: Text, nonce: Nonce, query: QueryAnswer, submit: SubmitAnswer, stop: Stop)

  datatype Receipt = Receipt(
    receiptId: Text, capabilityId: Text, recipient: Text, resource: Text, purpose: Text,
    transaction: Text, at: int, termsDigest: Text)

  datatype Outcome = Returned(receipt: Receipt) | Failed | Ambiguous(executionId: Text) | Crashed

  // ---------------------------------------------------------------- gates before the journal

  predicate RequestOk(req: Request) {
    var t := req.terms;
    && |req.capabilityId| >= 8 && |t.termsDigest| >= 16
    && |t.action| > 1 && t.action[0] == 47
    && t.recipient != [] && t.resource != [] && t.purpose != []
  }

  predicate Redeemed(r: Redemption) { r.ok && r.consumed && r.proofVerified }

  /** Every effect-bearing term equals the authorized one, and nothing rides along. */
  predicate TermsCover(op: Operation, t: Terms) {
    && t.termsDigest == op.termsDigest
    && t.action == op.cmd
    && t.recipient == op.recipient
    && op.resource == Some(t.resource)
    && op.purpose == Some(t.purpose)
    && Print(VObj(op.args)) == Print(VObj(t.context))
  }

  predicate Admitted(call: Call) {
    && RequestOk(call.req)
    && Redeemed(call.redemption)
    && call.redemption.chainId == call.req.capabilityId
    && TermsCover(call.redemption.operation, call.req.terms)
    && DeriveIdempotencyKey(call.req.terms.termsDigest, call.scope).Some?
  }

  function KeyOf(call: Call): Text {
    OrElse(DeriveIdempotencyKey(call.req.terms.termsDigest, call.scope), [])
  }

  predicate RefOk(ref: Option<Text>) { ref.Some? && 1 <= |ref.value| <= 256 }

  function ReceiptFromRecord(r: Record): Option<Receipt> {
    if r.state != SUCCEEDED || r.receiptId.None? || r.receiptAt.None? || r.externalRef.None? then None
    else Some(Receipt(r.receiptId.value, r.capabilityId, r.terms.recipient, r.terms.resource, r.terms.purpose,
                      r.externalRef.value, r.receiptAt.value, r.terms.termsDigest))
  }

  // ---------------------------------------------------------------- one key's share of the world

  /** The record of a key, the effects and submissions it caused, the transitions it made. */
  datatype Cell = Cell(rec: Option<Record>, effects: nat, submits: nat, moves: nat)

  const VACANT := Cell(None, 0, 0, 0)

  function Shift(c: Cell, to: ExecutionState, p: Patch, now: int): Cell
    requires c.rec.Some?
  {
    c.(rec := Some(Moved(c.rec.value, to, p, now)), moves := c.moves + 1)
  }

  /** `started`: the caller was told that an effect may have begun. */
  datatype Run = Run(cell: Cell, outcome: Outcome, started: bool)

  function CutOff(c: Cell, call: Call, started: bool): Run {
    Run(c, if call.stop.crash then Crashed else Failed, started)
  }

  const RESUMED := Note("resume found submitting record: effect unknown")
  const UNATTESTED := Note("reconcile: provider attestation failed")
  const UNKNOWABLE := Note("reconcile: provider state unknowable")
  const EXHAUSTED := Note("reconcile: attempt budget exhausted")
  const THREW := Note("provider submission failed ambiguously")
  const UNVERIFIED := Note("provider attestation failed")
  const MALFORMED := Note("provider returned malformed ref")

  function ReceiptPatch(call: Call, ref: Text): Patch {
    NOTHING.(externalRef := Some(ref), receiptId := Some(Lit("rcpt-") + call.nonce), receiptAt := Some(call.at))
  }

  function Quarantine(c: Cell, call: Call, why: Patch): Run
    requires c.rec.Some?
  {
    Run(Shift(c, RECONCILED, why.(reconciledAt := Some(call.now)), call.now), Ambiguous(c.rec.value.executionId), true)
  }

  function Unsettle(c: Cell, call: Call, why: Patch): Run
    requires c.rec.Some?
  {
    Run(Shift(c, SUBMITTED_UNKNOWN, why, call.now), Ambiguous(c.rec.value.executionId), true)
  }

  function Succeed(c: Cell, call: Call, ref: Text): Run
    requires c.rec.Some?
  {
    var done := Shift(c, SUCCEEDED, ReceiptPatch(call, ref), call.now);
    Run(done, Returned(ReceiptFromRecord(done.rec.value).value), true)
  }

  /** The provider's answer is persisted: only a verified one with a usable reference succeeds. */
  function AnswerRun(c: Cell, call: Call): Run
    requires c.rec.Some?
  {
    if call.submit.SubmitThrows? then Unsettle(c, call, THREW)
    else if !call.submit.attested then Unsettle(c, call, UNVERIFIED)
    else if !RefOk(call.submit.ref) then Unsettle(c, call, MALFORMED)
    else Succeed(c, call, call.submit.ref.value)
  }

  function Submitted(c: Cell, call: Call): Cell {
    c.(submits := c.submits + 1, effects := c.effects + if call.submit.effected then 1 else 0)
  }

  /** SUBMITTING is durable before the provider is called; the answer is persisted after it. */
  function SubmitRun(c: Cell, call: Call, n: nat, started: bool): Run
    requires c.rec.Some?
  {
    if n == 0 then CutOff(c, call, started)
    else if n == 1 then CutOff(Shift(c, SUBMITTING, NOTHING, call.now), call, true)
    else if n == 2 then CutOff(Submitted(Shift(c, SUBMITTING, NOTHING, call.now), call), call, true)
    else AnswerRun(Submitted(Shift(c, SUBMITTING, NOTHING, call.now), call), call)
  }

  /** An unknown outcome is settled by the query, never by a blind retry. */
  function SettleRun(c: Cell, call: Call, n: nat): Run
    requires c.rec.Some?
  {
    if call.query.NoQuery? then Run(c, Ambiguous(c.rec.value.executionId), true)
    else if n == 0 then CutOff(c, call, true)
    else if call.query.QueryThrows? then Run(c, Failed, true)
    else if call.query.Effected? && !RefOk(call.query.ref) then Run(c, Failed, true)
    else if call.query.Absent? && c.rec.value.attempts < c.rec.value.maxAttempts then SubmitRun(c, call, n - 1, true)
    else if n == 1 then CutOff(c, call, true)
    else if call.query.Absent? then Quarantine(c, call, EXHAUSTED)
    else if call.query.Unknown? then Quarantine(c, call, UNKNOWABLE)
    else if !call.query.attested then Quarantine(c, call, UNATTESTED)
    else Succeed(c, call, call.query.ref.value)
  }

  function ResumeRun(c: Cell, call: Call, n: nat): Run
    requires c.rec.Some?
  {
    match c.rec.value.state
    case PREPARED =>
      if n == 0 then CutOff(c, call, false) else SubmitRun(Shift(c, AUTHORIZED, NOTHING, call.now), call, n - 1, false)
    case AUTHORIZED => SubmitRun(c, call, n, false)
    case SUBMITTING =>
      if n == 0 then CutOff(c, call, false) else SettleRun(Shift(c, SUBMITTED_UNKNOWN, RESUMED, call.now), call, n - 1)
    case SUBMITTED_UNKNOWN => SettleRun(c, call, n)
    case _ => Run(c, Failed, false)
  }

  function NewFor(call: Call): NewExecution {
    NewExecution(call.newId, KeyOf(call), call.redemption.chainId, call.req.terms, call.maxAttempts)
  }

  /** One call for one key; `room` says the directory can take its record. */
  function Execute(c: Cell, call: Call, room: bool): Run {
    if !Admitted(call) then Run(c, Failed, false)
    else if c.rec.None? then
      if call.stop.steps == 0 then CutOff(c, call, false)
      else if !NewExecutionOk(NewFor(call)) || !room then Run(c, Failed, false)
      else ResumeRun(c.(rec := Some(Prepared(NewFor(call), call.now))), call, call.stop.steps - 1)
    else
      match c.rec.value.state
      case SUCCEEDED =>
        var receipt := ReceiptFromRecord(c.rec.value);
        Run(c, if receipt.Some? then Returned(receipt.value) else Failed, false)
      case FAILED_FINAL => Run(c, Failed, false)
      case RECONCILED => Run(c, Ambiguous(c.rec.value.executionId), true)
      case _ => ResumeRun(c, call, call.stop.steps)
  }

  // ---------------------------------------------------------------- the imperative run

  /** The external rail. Effects and submissions are counted by idempotency key. */
  class Rail {
    ghost var effects: multiset<Text>
    ghost var submits: multiset<Text>

    constructor ()
      ensures effects == multiset{} && submits == multiset{}
    {
      effects := multiset{};
      submits := multiset{};
    }

    method Submit(key: Text, answer: SubmitAnswer)
      modifies this
      ensures submits == old(submits) + multiset{key}
      ensures effects == old(effects) + if answer.effected then multiset{key} else multiset{}
    {
      submits := submits + multiset{key};
      effects := effects + if answer.effected then multiset{key} else multiset{};
    }
  }

  ghost function CellOf(j: JournalStore, rail: Rail, key: Text): Cell
    reads j, rail
  {
    Cell(Find(j.records, key), rail.effects[key], rail.submits[key], j.moves[key])
  }

  /** A transition of the record at hand, seen from every key. */
  method Advance(j: JournalStore, rail: Rail, rec: Record, to: ExecutionState, p: Patch, now: int) returns (next: Record)
    requires j.Valid() && Find(j.records, rec.idempotencyKey) == Some(rec)
    requires TransitionOk(rec, to, p)
    modifies j
    ensures j.Valid()
    ensures next == Moved(rec, to, p, now)
    ensures CellOf(j, rail, rec.idempotencyKey) == Shift(old(CellOf(j, rail, rec.idempotencyKey)), to, p, now)
    ensures forall k :: k != rec.idempotencyKey ==> CellOf(j, rail, k) == old(CellOf(j, rail, k))
    ensures |j.records| == |old(j.records)|
  {
    FoundIn(j.records, rec.idempotencyKey);
    ghost var i := Locate(j.records, rec);
    FindIs(j.records, i);
    var moved := j.TransitionExecution(rec.executionId, to, p, now);
    next := moved.value;
    RewriteFinds(old(j.records), rec, next);
  }

  /** `out` and `started` are what the run of this call on this cell yields. */
  ghost predicate Follows(run: Run, after: Cell, out: Outcome, started: bool) {
    run.cell == after && run.outcome == out && run.started == started
  }

  function Cut(call: Call): Outcome { if call.stop.crash then Crashed else Failed }

  method SubmitOnce(j: JournalStore, rail: Rail, rec0: Record, call: Call, n: nat, started0: bool)
    returns (out: Outcome, started: bool)
    requires j.Valid() && Find(j.records, rec0.idempotencyKey) == Some(rec0)
    requires rec0.state == AUTHORIZED || rec0.state == SUBMITTED_UNKNOWN
    modifies j, rail
    ensures j.Valid()
    ensures Follows(SubmitRun(old(CellOf(j, rail, rec0.idempotencyKey)), call, n, started0),
                    CellOf(j, rail, rec0.idempotencyKey), out, started)
    ensures forall k :: k != rec0.idempotencyKey ==> CellOf(j, rail, k) == old(CellOf(j, rail, k))
  {
    var rec := rec0;
    started := started0;
    if n == 0 { return Cut(call), started; }
    rec := Advance(j, rail, rec, SUBMITTING, NOTHING, call.now);
    started := true;
    if n == 1 { return Cut(call), started; }
    rail.Submit(rec.idempotencyKey, call.submit);
    if n == 2 { return Cut(call), started; }
    match call.submit {
      case SubmitThrows(_) =>
        rec := Advance(j, rail, rec, SUBMITTED_UNKNOWN, THREW, call.now);
      case SubmitReturns(_, ref, attested) =>
        if !attested {
          rec := Advance(j, rail, rec, SUBMITTED_UNKNOWN, UNVERIFIED, call.now);
        } else if !RefOk(ref) {
          rec := Advance(j, rail, rec, SUBMITTED_UNKNOWN, MALFORMED, call.now);
        } else {
          rec := Advance(j, rail, rec, SUCCEEDED, ReceiptPatch(call, ref.value), call.now);
          return Returned(ReceiptFromRecord(rec).value), started;
        }
    }
    return Ambiguous(rec.executionId), started;
  }

  method SettleUnknown(j: JournalStore, rail: Rail, rec0: Record, call: Call, n: nat)
    returns (out: Outcome, started: bool)
    requires j.Valid() && Find(j.records, rec0.idempotencyKey) == Some(rec0)
    requires rec0.state == SUBMITTED_UNKNOWN
    modifies j, rail
    ensures j.Valid()
    ensures Follows(SettleRun(old(CellOf(j, rail, rec0.idempotencyKey)), call, n),
                    CellOf(j, rail, rec0.idempotencyKey), out, started)
    ensures forall k :: k != rec0.idempotencyKey ==> CellOf(j, rail, k) == old(CellOf(j, rail, k))
  {
    var rec := rec0;
    started := true;
    if call.query.NoQuery? { return Ambiguous(rec.executionId), started; }
    if n == 0 { return Cut(call), started; }
    if call.query.QueryThrows? { return Failed, started; }
    var why := UNATTESTED;
    match call.query {
      case Effected(ref, attested) =>
        if !RefOk(ref) { return Failed, started; }
        if attested {
          if n == 1 { return Cut(call), started; }
          rec := Advance(j, rail, rec, SUCCEEDED, ReceiptPatch(call, ref.value), call.now);
          return Returned(ReceiptFromRecord(rec).value), started;
        }
      case Unknown => why := UNKNOWABLE;
      case Absent =>
        if rec.attempts < rec.maxAttempts {
          out, started := SubmitOnce(j, rail, rec, call, n - 1, started);
          return;
        }
        why := EXHAUSTED;
    }
    if n == 1 { return Cut(call), started; }
    rec := Advance(j, rail, rec, RECONCILED, why.(reconciledAt := Some(call.now)), call.now);
    return Ambiguous(rec.executionId), started;
  }

  method ResumeLive(j: JournalStore, rail: Rail, rec0: Record, call: Call, n: nat)
    returns (out: Outcome, started: bool)
    requires j.Valid() && Find(j.records, rec0.idempotencyKey) == Some(rec0)
    modifies j, rail
    ensures j.Valid()
    ensures Follows(ResumeRun(old(CellOf(j, rail, rec0.idempotencyKey)), call, n),
                    CellOf(j, rail, rec0.idempotencyKey), out, started)
    ensures forall k :: k != rec0.idempotencyKey ==> CellOf(j, rail, k) == old(CellOf(j, rail, k))
  {
    var rec := rec0;
    var left := n;
    if rec.state == PREPARED {
      if left == 0 { return Cut(call), false; }
      rec := Advance(j, rail, rec, AUTHORIZED, NOTHING, call.now);
      left := left - 1;
    }
    if rec.state == SUBMITTING {
      if left == 0 { return Cut(call), false; }
      rec := Advance(j, rail, rec, SUBMITTED_UNKNOWN, RESUMED, call.now);
      left := left - 1;
    }
    if rec.state == SUBMITTED_UNKNOWN {
      out, started := SettleUnknown(j, rail, rec, call, left);
    } else if Terminal(rec.state) {
      return Failed, false;
    } else {
      out, started := SubmitOnce(j, rail, rec, call, left, false);
    }
  }

  method ExecuteWithJournal(j: JournalStore, rail: Rail, call: Call) returns (out: Outcome, started: bool)
    requires j.Valid()
    modifies j, rail
    ensures j.Valid()
    ensures Follows(Execute(old(CellOf(j, rail, KeyOf(call))), call, old(Room(j.records, call.newId))),
                    CellOf(j, rail, KeyOf(call)), out, started)
    ensures forall k :: k != KeyOf(call) ==> CellOf(j, rail, k) == old(CellOf(j, rail, k))
  {
    if !Admitted(call) { return Failed, false; }
    var key := KeyOf(call);
    var found, count := j.ScanExecutions(key);
    FoundIn(j.records, key);
    if found.Some? {
      var rec := found.value;
      if rec.state == SUCCEEDED {
        var receipt := ReceiptFromRecord(rec);
        return if receipt.Some? then Returned(receipt.value) else Failed, false;
      }
      if rec.state == FAILED_FINAL { return Failed, false; }
      if rec.state == RECONCILED { return Ambiguous(rec.executionId), true; }
      out, started := ResumeLive(j, rail, rec, call, call.stop.steps);
    } else {
      if call.stop.steps == 0 { return Cut(call), false; }
      var created := j.CreateExecution(NewFor(call), call.now);
      if created.None? { return Failed, false; }
      forall k ensures Find(j.records, k) == if k == key then created else old(Find(j.records, k)) {
        FindAppend(old(j.records), created.value, k);
      }
      out, started := ResumeLive(j, rail, created.value, call, call.stop.steps - 1);
    }
  }
}
