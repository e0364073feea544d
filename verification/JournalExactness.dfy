/**
 * Exactly when the effect guarantees of the journal hold, with no assumption about the answers:
 * "at most one effect" and "SUCCEEDED means exactly one" as equivalences over whole runs.
 */
module JournalExactness {
  import opened Basics
  import opened Journal
  import opened Providers
  import opened JournalRuns

  // ---------------------------------------------------------------- how far a call gets

  /** The steps left when an unknown record reaches a new submission; None when it does not. */
  function RetrySteps(r: Record, call: Call, n: nat): Option<nat> {
    if call.query.Absent? && n > 0 && r.attempts < r.maxAttempts then Some(n - 1) else None
  }

  /** The steps left when a call reaches its submission; None when it does not. */
  function SubmissionSteps(c: Cell, call: Call, room: bool): Option<nat> {
    var n := call.stop.steps;
    if !Admitted(call) then None
    else if c.rec.None? then
      if n < 2 || !room || !NewExecutionOk(NewFor(call)) then None else Some(n - 2)
    else
      match c.rec.value.state
      case PREPARED => if n == 0 then None else Some(n - 1)
      case AUTHORIZED => Some(n)
      case SUBMITTING => if n == 0 then None else RetrySteps(c.rec.value, call, n - 1)
      case SUBMITTED_UNKNOWN => RetrySteps(c.rec.value, call, n)
      case _ => None
  }

  /** The provider is called - after the durable SUBMITTING - and its effect lands. */
  predicate MakesEffect(c: Cell, e: Event) {
    && e.Attempt? && e.call.submit.effected
    && var n := SubmissionSteps(c, e.call, e.room); n.Some? && n.value >= 2
  }

  /** The submission is answered by an attested, usable reference and the answer is persisted. */
  predicate SubmissionSucceeds(c: Cell, e: Event) {
    && e.Attempt? && e.call.submit.SubmitReturns? && e.call.submit.attested && RefOk(e.call.submit.ref)
    && var n := SubmissionSteps(c, e.call, e.room); n.Some? && n.value >= 3
  }

  /** The query reports an attested, usable reference for an unknown outcome, and it is persisted. */
  predicate QuerySucceeds(c: Cell, e: Event) {
    && e.Attempt? && Admitted(e.call)
    && e.call.query.Effected? && e.call.query.attested && RefOk(e.call.query.ref)
    && c.rec.Some?
    && ((c.rec.value.state == SUBMITTED_UNKNOWN && e.call.stop.steps >= 2)
        || (c.rec.value.state == SUBMITTING && e.call.stop.steps >= 3))
  }

  predicate Succeeded(c: Cell) { c.rec.Some? && c.rec.value.state == SUCCEEDED }

  // ---------------------------------------------------------------- what one step does, exactly

  /** How a run relates to its cell: one more effect or none, success or not. */
  predicate Does(c: Cell, run: Run, effect: bool, success: bool) {
    && run.cell.effects == c.effects + (if effect then 1 else 0)
    && (Succeeded(run.cell) <==> success)
  }

  lemma SubmitDoes(c: Cell, call: Call, n: nat, started: bool)
    requires c.rec.Some? && !Succeeded(c)
    ensures Does(c, SubmitRun(c, call, n, started), call.submit.effected && n >= 2,
                 call.submit.SubmitReturns? && call.submit.attested && RefOk(call.submit.ref) && n >= 3)
  {}

  lemma SettleDoes(c: Cell, call: Call, n: nat)
    requires c.rec.Some? && !Succeeded(c)
    ensures var m := RetrySteps(c.rec.value, call, n);
      Does(c, SettleRun(c, call, n), m.Some? && m.value >= 2 && call.submit.effected,
           || (m.Some? && m.value >= 3 && call.submit.SubmitReturns? && call.submit.attested && RefOk(call.submit.ref))
           || (call.query.Effected? && call.query.attested && RefOk(call.query.ref) && n >= 2))
  {
    if RetrySteps(c.rec.value, call, n).Some? { SubmitDoes(c, call, n - 1, true); }
  }

  lemma ResumeDoes(c: Cell, call: Call, n: nat, e: Event)
    requires c.rec.Some? && !Terminal(c.rec.value.state) && Admitted(call)
    requires e.Attempt? && e.call == call && call.stop.steps == n
    ensures Does(c, ResumeRun(c, call, n), MakesEffect(c, e), SubmissionSucceeds(c, e) || QuerySucceeds(c, e))
  {
    match c.rec.value.state
    case PREPARED => if n > 0 { SubmitDoes(Shift(c, AUTHORIZED, NOTHING, call.now), call, n - 1, false); }
    case AUTHORIZED => SubmitDoes(c, call, n, false);
    case SUBMITTING => if n > 0 { SettleDoes(Shift(c, SUBMITTED_UNKNOWN, RESUMED, call.now), call, n - 1); }
    case SUBMITTED_UNKNOWN => SettleDoes(c, call, n);
    case _ =>
  }

  lemma FirstDoes(c: Cell, call: Call, room: bool)
    requires c.rec.None? && Admitted(call)
    ensures var e := Attempt(call, room);
      Does(c, Execute(c, call, room), MakesEffect(c, e), SubmissionSucceeds(c, e))
  {
    if call.stop.steps > 1 && room && NewExecutionOk(NewFor(call)) {
      var cleared := Shift(c.(rec := Some(Prepared(NewFor(call), call.now))), AUTHORIZED, NOTHING, call.now);
      SubmitDoes(cleared, call, call.stop.steps - 2, false);
    }
  }

  /** The step law: when an effect is added and when the record becomes SUCCEEDED. */
  lemma StepDoes(c: Cell, e: Event)
    ensures StepCell(c, e).effects == c.effects + if MakesEffect(c, e) then 1 else 0
    ensures Succeeded(StepCell(c, e)) <==> Succeeded(c) || SubmissionSucceeds(c, e) || QuerySucceeds(c, e)
  {
    if e.Attempt? && Admitted(e.call) {
      if c.rec.None? {
        FirstDoes(c, e.call, e.room);
      } else if !Terminal(c.rec.value.state) {
        ResumeDoes(c, e.call, e.call.stop.steps, e);
      }
    }
  }

  // ---------------------------------------------------------------- at most one effect

  /**
   * A retry after an effect: the query says absent although an effect has landed, the budget allows
   * another attempt, the call lives long enough to submit and the submission takes effect.
   */
  predicate FalseRetry(c: Cell, e: Event) {
    && c.effects >= 1 && c.rec.Some?
    && e.Attempt? && Admitted(e.call) && e.call.query.Absent? && e.call.submit.effected
    && c.rec.value.attempts < c.rec.value.maxAttempts
    && ((c.rec.value.state == SUBMITTED_UNKNOWN && e.call.stop.steps >= 3)
        || (c.rec.value.state == SUBMITTING && e.call.stop.steps >= 4))
  }

  /** Once an effect exists, only a false retry adds another. */
  lemma SecondEffectIsFalseRetry(c: Cell, e: Event)
    requires Bounded(c) && c.effects >= 1
    ensures StepCell(c, e).effects > c.effects <==> FalseRetry(c, e)
  {
    StepDoes(c, e);
  }

  predicate NoFalseRetry(events: seq<Event>) {
    events != [] ==> NoFalseRetry(ButLast(events)) && !FalseRetry(After(ButLast(events)), Last(events))
  }

  /**
   * For every run, whatever providers and queries answer: at most one effect if and only if no
   * event of the run retries after an effect.
   */
  lemma {:induction false} AtMostOneExactly(events: seq<Event>)
    ensures After(events).effects <= 1 <==> NoFalseRetry(events)
    decreases |events|
  {
    if events == [] {
    } else {
      var c, e := After(ButLast(events)), Last(events);
      AtMostOneExactly(ButLast(events));
      RunBounded(ButLast(events));
      StepDoes(c, e);
      if c.effects >= 1 { SecondEffectIsFalseRetry(c, e); }
    }
  }

  // ---------------------------------------------------------------- SUCCEEDED means exactly one

  /** Success is recorded although no effect has landed. */
  predicate FalseSuccess(c: Cell, e: Event) {
    c.effects == 0 && ((SubmissionSucceeds(c, e) && !e.call.submit.effected) || QuerySucceeds(c, e))
  }

  predicate NoFalseSuccess(events: seq<Event>) {
    events != [] ==> NoFalseSuccess(ButLast(events)) && !FalseSuccess(After(ButLast(events)), Last(events))
  }

  lemma SettledMakesNone(c: Cell, e: Event)
    requires Succeeded(c)
    ensures StepCell(c, e) == c && !MakesEffect(c, e) && !SubmissionSucceeds(c, e) && !QuerySucceeds(c, e)
  {}

  lemma QueryMakesNone(c: Cell, e: Event)
    requires QuerySucceeds(c, e)
    ensures !MakesEffect(c, e)
  {}

  /** One step keeps, loses or misses the effect behind a success. */
  lemma EmptySuccessStep(c: Cell, e: Event)
    ensures var d := StepCell(c, e);
      Succeeded(d) && d.effects == 0 <==> (Succeeded(c) && c.effects == 0) || FalseSuccess(c, e)
  {
    StepDoes(c, e);
    if Succeeded(c) { SettledMakesNone(c, e); }
    if QuerySucceeds(c, e) { QueryMakesNone(c, e); }
  }

  lemma {:induction false} EmptySuccessExactly(events: seq<Event>)
    ensures Succeeded(After(events)) && After(events).effects == 0 <==> !NoFalseSuccess(events)
    decreases |events|
  {
    if events == [] {
    } else {
      EmptySuccessExactly(ButLast(events));
      EmptySuccessStep(After(ButLast(events)), Last(events));
    }
  }

  /**
   * A SUCCEEDED record stands for exactly one effect if and only if the run contains neither a
   * retry after an effect nor a success recorded without one.
   */
  lemma SucceededExactly(events: seq<Event>)
    requires Succeeded(After(events))
    ensures After(events).effects == 1 <==> NoFalseRetry(events) && NoFalseSuccess(events)
  {
    AtMostOneExactly(events);
    EmptySuccessExactly(events);
  }

  /** Unsubmitted and failed records mean no effect, whatever is answered. */
  lemma {:induction false} UnsubmittedMeansNone(events: seq<Event>)
    ensures var c := After(events);
      c.rec.None? || c.rec.value.state in {PREPARED, AUTHORIZED, FAILED_FINAL} ==> c.effects == 0 && c.submits == 0
  {
    RunBounded(events);
  }

  /** Honest answers are one way to meet both conditions. */
  lemma {:induction false} HonestRunsMeetBoth(events: seq<Event>)
    requires HonestRun(events)
    ensures NoFalseRetry(events) && NoFalseSuccess(events)
    decreases |events|
  {
    if events == [] {
    } else {
      HonestRunsMeetBoth(ButLast(events));
    }
  }
}
