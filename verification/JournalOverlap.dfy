/**
 * Journaled calls that overlap: `executeWithJournal` awaits the query and the submission, so any
 * number of calls for one key can be in flight at once. Each call is split at its awaits here, and
 * a submitted effect may land at any time after its submission, or never.
 */
module JournalOverlap {
  import opened Basics
  import opened Journal
  import opened Providers
  import R = JournalRuns

  // ---------------------------------------------------------------- calls in flight

  /**
   * What a call waits for: the answer of its query, holding the record as it read it, or the answer
   * of its submission. `steps` is how many outside steps it still completes.
   */
  datatype Flight = Asking(call: Call, seen: Record, steps: nat) | Waiting(call: Call, steps: nat)

  /** One key: its record and counters, the calls in flight, and the submissions that may still land. */
  datatype Site = Site(cell: Cell, flights: map<nat, Flight>, pending: nat)

  const IDLE := Site(VACANT, map[], 0)

  function Ended(s: Site, k: nat): Site { s.(flights := s.flights - {k}) }

  /** A guarded transition, on the record as it is now; a refused one throws. The call is over. */
  function Ending(s: Site, k: nat, to: ExecutionState, p: Patch, now: int): Site
    requires s.cell.rec.Some?
  {
    if CanTransition(s.cell.rec.value.state, to) then Ended(s, k).(cell := Shift(s.cell, to, p, now)) else Ended(s, k)
  }

  /** SUBMITTING, then the provider is called and awaited. */
  function Submitting(s: Site, k: nat, call: Call, n: nat): Site
    requires s.cell.rec.Some?
  {
    if n == 0 || !CanTransition(s.cell.rec.value.state, SUBMITTING) then Ended(s, k)
    else
      var c := Shift(s.cell, SUBMITTING, NOTHING, call.now);
      if n == 1 then Ended(s, k).(cell := c)
      else Site(c.(submits := c.submits + 1), s.flights[k := Waiting(call, n - 2)], s.pending + 1)
  }

  /** The query is sent and awaited. */
  function Settling(s: Site, k: nat, call: Call, n: nat): Site
    requires s.cell.rec.Some?
  {
    if call.query.NoQuery? || n == 0 then Ended(s, k)
    else s.(flights := s.flights[k := Asking(call, s.cell.rec.value, n - 1)])
  }

  function Resuming(s: Site, k: nat, call: Call, n: nat): Site
    requires s.cell.rec.Some?
  {
    match s.cell.rec.value.state
    case PREPARED => if n == 0 then s else Submitting(s.(cell := Shift(s.cell, AUTHORIZED, NOTHING, call.now)), k, call, n - 1)
    case AUTHORIZED => Submitting(s, k, call, n)
    case SUBMITTING =>
      if n == 0 then s else Settling(s.(cell := Shift(s.cell, SUBMITTED_UNKNOWN, RESUMED, call.now)), k, call, n - 1)
    case SUBMITTED_UNKNOWN => Settling(s, k, call, n)
    case _ => s
  }

  /** From the entry of a call to its first await. */
  function Entering(s: Site, k: nat, call: Call, room: bool): Site {
    if k in s.flights || !Admitted(call) then s
    else if s.cell.rec.None? then
      if call.stop.steps == 0 || !NewExecutionOk(NewFor(call)) || !room then s
      else Resuming(s.(cell := s.cell.(rec := Some(Prepared(NewFor(call), call.now)))), k, call, call.stop.steps - 1)
    else Resuming(s, k, call, call.stop.steps)
  }

  /** From the query's answer to the next await. The budget is checked on the record as it was read. */
  function Hearing(s: Site, k: nat, call: Call, seen: Record, n: nat): Site
    requires s.cell.rec.Some?
  {
    match call.query
    case Absent =>
      if seen.attempts < seen.maxAttempts then Submitting(s, k, call, n)
      else if n == 0 then Ended(s, k)
      else Ending(s, k, RECONCILED, EXHAUSTED.(reconciledAt := Some(call.now)), call.now)
    case Unknown =>
      if n == 0 then Ended(s, k) else Ending(s, k, RECONCILED, UNKNOWABLE.(reconciledAt := Some(call.now)), call.now)
    case Effected(ref, attested) =>
      if !RefOk(ref) || n == 0 then Ended(s, k)
      else if attested then Ending(s, k, SUCCEEDED, ReceiptPatch(call, ref.value), call.now)
      else Ending(s, k, RECONCILED, UNATTESTED.(reconciledAt := Some(call.now)), call.now)
    case _ => Ended(s, k)
  }

  /** From the provider's answer to the end of the call. */
  function Replying(s: Site, k: nat, call: Call, n: nat): Site
    requires s.cell.rec.Some?
  {
    if n == 0 then Ended(s, k)
    else
      match call.submit
      case SubmitThrows(_) => Ending(s, k, SUBMITTED_UNKNOWN, THREW, call.now)
      case SubmitReturns(_, ref, attested) =>
        if !attested then Ending(s, k, SUBMITTED_UNKNOWN, UNVERIFIED, call.now)
        else if !RefOk(ref) then Ending(s, k, SUBMITTED_UNKNOWN, MALFORMED, call.now)
        else Ending(s, k, SUCCEEDED, ReceiptPatch(call, ref.value), call.now)
  }

  datatype Event =
    | Enter(k: nat, call: Call, room: bool)
    | Hear(k: nat)
    | Reply(k: nat)
    | Land
    | Lose
    | Restart(now: int)
    | Abandon(why: AbortReason, now: int)

  function Step(s: Site, e: Event): Site {
    match e
    case Enter(k, call, room) => Entering(s, k, call, room)
    case Hear(k) =>
      if s.cell.rec.None? || k !in s.flights || !s.flights[k].Asking? then s
      else Hearing(s, k, s.flights[k].call, s.flights[k].seen, s.flights[k].steps)
    case Reply(k) =>
      if s.cell.rec.None? || k !in s.flights || !s.flights[k].Waiting? then s
      else Replying(s, k, s.flights[k].call, s.flights[k].steps)
    case Land => if s.pending == 0 then s else s.(pending := s.pending - 1, cell := s.cell.(effects := s.cell.effects + 1))
    case Lose => if s.pending == 0 then s else s.(pending := s.pending - 1)
    case Restart(now) => s.(flights := map[], cell := R.StepCell(s.cell, R.Recover(now)))
    case Abandon(why, now) => s.(cell := R.StepCell(s.cell, R.Abandon(why, now)))
  }

  function After(events: seq<Event>): Site {
    if events == [] then IDLE else Step(After(ButLast(events)), Last(events))
  }

  // ---------------------------------------------------------------- what every overlap keeps

  predicate Unsubmitted(c: Cell) { c.rec.None? || c.rec.value.state in {PREPARED, AUTHORIZED, FAILED_FINAL} }

  /** A call in flight read an earlier version of the same record. */
  predicate Behind(f: Flight, r: Record) {
    f.Asking? ==> f.seen.maxAttempts == r.maxAttempts && f.seen.attempts <= r.attempts
  }

  predicate Sound(s: Site) {
    var c := s.cell;
    && c.effects + s.pending <= c.submits
    && (Unsubmitted(c) ==> c.submits == 0)
    && (c.rec.None? ==> s.flights == map[])
    && (c.rec.Some? ==>
          && c.submits <= c.rec.value.attempts && 1 <= c.rec.value.maxAttempts
          && (Unsubmitted(c) ==> c.rec.value.attempts == 0)
          && forall k :: k in s.flights ==> Behind(s.flights[k], c.rec.value))
  }

  lemma EndingSound(s: Site, k: nat, to: ExecutionState, p: Patch, now: int)
    requires Sound(s) && s.cell.rec.Some? && (to == SUCCEEDED || to == RECONCILED || to == SUBMITTED_UNKNOWN)
    ensures Sound(Ending(s, k, to, p, now))
  {}

  lemma SubmittingSound(s: Site, k: nat, call: Call, n: nat)
    requires Sound(s) && s.cell.rec.Some?
    ensures Sound(Submitting(s, k, call, n))
  {}

  lemma ShiftSound(s: Site, to: ExecutionState, p: Patch, now: int)
    requires Sound(s) && s.cell.rec.Some? && CanTransition(s.cell.rec.value.state, to) && to != SUBMITTING
    requires to == FAILED_FINAL ==> Unsubmitted(s.cell)
    ensures Sound(s.(cell := Shift(s.cell, to, p, now)))
  {}

  lemma ResumingSound(s: Site, k: nat, call: Call, n: nat)
    requires Sound(s) && s.cell.rec.Some?
    ensures Sound(Resuming(s, k, call, n))
  {
    var state := s.cell.rec.value.state;
    if state == PREPARED && n > 0 {
      ShiftSound(s, AUTHORIZED, NOTHING, call.now);
      SubmittingSound(s.(cell := Shift(s.cell, AUTHORIZED, NOTHING, call.now)), k, call, n - 1);
    } else if state == AUTHORIZED {
      SubmittingSound(s, k, call, n);
    } else if state == SUBMITTING && n > 0 {
      ShiftSound(s, SUBMITTED_UNKNOWN, RESUMED, call.now);
    }
  }

  lemma EnteringSound(s: Site, k: nat, call: Call, room: bool)
    requires Sound(s)
    ensures Sound(Entering(s, k, call, room))
  {
    if s.cell.rec.Some? {
      ResumingSound(s, k, call, call.stop.steps);
    } else if call.stop.steps > 0 && NewExecutionOk(NewFor(call)) {
      ResumingSound(s.(cell := s.cell.(rec := Some(Prepared(NewFor(call), call.now)))), k, call, call.stop.steps - 1);
    }
  }

  lemma HearingSound(s: Site, k: nat, call: Call, seen: Record, n: nat)
    requires Sound(s) && s.cell.rec.Some?
    ensures Sound(Hearing(s, k, call, seen, n))
  {
    SubmittingSound(s, k, call, n);
    match call.query
    case Absent => EndingSound(s, k, RECONCILED, EXHAUSTED.(reconciledAt := Some(call.now)), call.now);
    case Unknown => EndingSound(s, k, RECONCILED, UNKNOWABLE.(reconciledAt := Some(call.now)), call.now);
    case Effected(ref, attested) =>
      EndingSound(s, k, RECONCILED, UNATTESTED.(reconciledAt := Some(call.now)), call.now);
      if RefOk(ref) { EndingSound(s, k, SUCCEEDED, ReceiptPatch(call, ref.value), call.now); }
    case _ =>
  }

  lemma ReplyingSound(s: Site, k: nat, call: Call, n: nat)
    requires Sound(s) && s.cell.rec.Some?
    ensures Sound(Replying(s, k, call, n))
  {
    match call.submit
    case SubmitThrows(_) => EndingSound(s, k, SUBMITTED_UNKNOWN, THREW, call.now);
    case SubmitReturns(_, ref, _) =>
      EndingSound(s, k, SUBMITTED_UNKNOWN, UNVERIFIED, call.now);
      EndingSound(s, k, SUBMITTED_UNKNOWN, MALFORMED, call.now);
      if RefOk(ref) { EndingSound(s, k, SUCCEEDED, ReceiptPatch(call, ref.value), call.now); }
  }

  lemma StepSound(s: Site, e: Event)
    requires Sound(s)
    ensures Sound(Step(s, e))
  {
    match e
    case Enter(k, call, room) => EnteringSound(s, k, call, room);
    case Hear(k) =>
      if s.cell.rec.Some? && k in s.flights && s.flights[k].Asking? {
        HearingSound(s, k, s.flights[k].call, s.flights[k].seen, s.flights[k].steps);
      }
    case Reply(k) =>
      if s.cell.rec.Some? && k in s.flights && s.flights[k].Waiting? {
        ReplyingSound(s, k, s.flights[k].call, s.flights[k].steps);
      }
    case _ =>
  }

  /**
   * However calls overlap: effects landed and outstanding never outnumber submissions, nor these the
   * recorded attempts, and nothing was submitted under a PREPARED, AUTHORIZED or FAILED_FINAL record.
   */
  lemma {:induction false} OverlapSound(events: seq<Event>)
    ensures Sound(After(events))
    decreases |events|
  {
    if events == [] {
    } else {
      OverlapSound(ButLast(events));
      StepSound(After(ButLast(events)), Last(events));
    }
  }

  /** A terminal record is never moved and never submitted under again, whoever is in flight. */
  lemma TerminalStays(s: Site, e: Event)
    requires s.cell.rec.Some? && Terminal(s.cell.rec.value.state)
    ensures Step(s, e).cell.rec == s.cell.rec && Step(s, e).cell.submits == s.cell.submits
  {}

  // ---------------------------------------------------------------- at most one effect

  /** The answer "absent" makes a call submit again. */
  predicate Resubmits(s: Site, e: Event) {
    && e.Hear? && s.cell.rec.Some? && e.k in s.flights && s.flights[e.k].Asking?
    && (var f := s.flights[e.k];
        && f.call.query.Absent? && f.seen.attempts < f.seen.maxAttempts && f.steps >= 2
        && CanTransition(s.cell.rec.value.state, SUBMITTING))
  }

  /** "Absent" is acted upon although an effect has landed or may still land. */
  predicate Premature(s: Site, e: Event) { Resubmits(s, e) && s.cell.effects + s.pending >= 1 }

  predicate NoPremature(events: seq<Event>) {
    events != [] ==> NoPremature(ButLast(events)) && !Premature(After(ButLast(events)), Last(events))
  }

  /** Effects that exist or may still come to exist. */
  function Exposure(s: Site): nat { s.cell.effects + s.pending }

  /** Never, at any point of the run, may two effects come to exist. */
  predicate AtMostOne(events: seq<Event>) {
    Exposure(After(events)) <= 1 && (events != [] ==> AtMostOne(ButLast(events)))
  }

  /** Only a first submission or a resubmission adds exposure, and always one. */
  lemma StepExposes(s: Site, e: Event)
    requires Sound(s)
    ensures Resubmits(s, e) ==> Exposure(Step(s, e)) == Exposure(s) + 1
    ensures !Resubmits(s, e) && s.cell.submits > 0 ==> Exposure(Step(s, e)) <= Exposure(s)
    ensures s.cell.submits == 0 ==> Exposure(Step(s, e)) <= 1
  {}

  /**
   * For every overlap, whatever is answered: two effects can never come to exist if and only if no
   * call acts on "absent" while an effect exists or a submission may still land.
   */
  lemma {:induction false} AtMostOneExactly(events: seq<Event>)
    ensures AtMostOne(events) <==> NoPremature(events)
    decreases |events|
  {
    if events == [] {
    } else {
      AtMostOneExactly(ButLast(events));
      OverlapSound(ButLast(events));
      StepExposes(After(ButLast(events)), Last(events));
    }
  }

  lemma {:induction false} AllLand(events: seq<Event>, n: nat)
    requires n <= After(events).pending
    ensures After(events + seq(n, _ => Land)).cell.effects == After(events).cell.effects + n
    ensures After(events + seq(n, _ => Land)).pending == After(events).pending - n
    decreases n
  {
    if n == 0 {
      assert events + seq(n, _ => Land) == events;
    } else {
      var longer := events + seq(n, _ => Land);
      AllLand(events, n - 1);
      assert ButLast(longer) == events + seq(n - 1, _ => Land) && Last(longer) == Land;
    }
  }

  /** And the danger is real: after such a step the outstanding submissions can make two effects. */
  lemma PrematureCanDouble(events: seq<Event>, e: Event)
    requires Premature(After(events), e)
    ensures var t := events + [e]; After(t + seq(After(t).pending, _ => Land)).cell.effects >= 2
  {
    var t := events + [e];
    assert ButLast(t) == events && Last(t) == e;
    OverlapSound(events);
    StepExposes(After(events), e);
    AllLand(t, After(t).pending);
  }

  // ---------------------------------------------------------------- the attempt budget

  /** A call resubmits on a record that has used up its budget since the call read it. */
  predicate Overruns(s: Site, e: Event) {
    && e.Hear? && s.cell.rec.Some? && e.k in s.flights && s.flights[e.k].Asking?
    && (var f, r := s.flights[e.k], s.cell.rec.value;
        && f.call.query.Absent? && f.seen.attempts < f.seen.maxAttempts && f.steps >= 1
        && CanTransition(r.state, SUBMITTING) && r.attempts >= r.maxAttempts)
  }

  predicate NoOverrun(events: seq<Event>) {
    events != [] ==> NoOverrun(ButLast(events)) && !Overruns(After(ButLast(events)), Last(events))
  }

  predicate WithinBudget(s: Site) { s.cell.rec.Some? ==> s.cell.rec.value.attempts <= s.cell.rec.value.maxAttempts }

  lemma StepBudget(s: Site, e: Event)
    requires Sound(s)
    ensures WithinBudget(s) ==> (WithinBudget(Step(s, e)) <==> !Overruns(s, e))
    ensures !WithinBudget(s) ==> !WithinBudget(Step(s, e))
  {}

  /**
   * The budget is checked on the record as it was before the query: attempts stay within it for
   * every overlap if and only if no call resubmits after others have used it up.
   */
  lemma {:induction false} BudgetExactly(events: seq<Event>)
    ensures WithinBudget(After(events)) <==> NoOverrun(events)
    decreases |events|
  {
    if events == [] {
    } else {
      BudgetExactly(ButLast(events));
      OverlapSound(ButLast(events));
      StepBudget(After(ButLast(events)), Last(events));
    }
  }

  // ---------------------------------------------------------------- calls that do not overlap

  /** A waiting call whose submission lands before the provider answers, or never. */
  function Answered(s: Site, k: nat, call: Call): Site {
    if k in s.flights && s.flights[k].Waiting? then Step(Step(s, if call.submit.effected then Land else Lose), Reply(k)) else s
  }

  /** A call that nobody interrupts. */
  function Alone(s: Site, k: nat, call: Call, room: bool): Site {
    Answered(Step(Step(s, Enter(k, call, room)), Hear(k)), k, call)
  }

  lemma ReplyAlone(s: Site, k: nat, call: Call, n: nat)
    requires s.cell.rec.Some? && s.cell.rec.value.state == SUBMITTING
    ensures Replying(s, k, call, n) == Ended(s, k).(cell := if n == 0 then s.cell else AnswerRun(s.cell, call).cell)
  {}

  lemma LandedAlone(s: Site, k: nat, call: Call)
    requires s.pending > 0
    ensures Step(s, if call.submit.effected then Land else Lose)
      == s.(pending := s.pending - 1, cell := s.cell.(effects := s.cell.effects + if call.submit.effected then 1 else 0))
  {}

  lemma SubmitAlone(s: Site, k: nat, call: Call, n: nat)
    requires s.cell.rec.Some? && (s.cell.rec.value.state == AUTHORIZED || s.cell.rec.value.state == SUBMITTED_UNKNOWN)
    requires k in s.flights ==> !s.flights[k].Waiting?
    ensures Answered(Submitting(s, k, call, n), k, call) == Ended(s, k).(cell := SubmitRun(s.cell, call, n, true).cell)
  {
    var t := Submitting(s, k, call, n);
    if n >= 2 {
      LandedAlone(t, k, call);
      var u := Step(t, if call.submit.effected then Land else Lose);
      ReplyAlone(u, k, call, n - 2);
      assert s.flights[k := Waiting(call, n - 2)] - {k} == s.flights - {k};
    }
  }

  lemma HearAlone(s: Site, k: nat, call: Call, n: nat)
    requires s.cell.rec.Some? && s.cell.rec.value.state == SUBMITTED_UNKNOWN && !call.query.NoQuery?
    requires k in s.flights ==> !s.flights[k].Waiting?
    ensures Answered(Hearing(s, k, call, s.cell.rec.value, n), k, call)
      == Ended(s, k).(cell := SettleRun(s.cell, call, n + 1).cell)
  {
    SubmitAlone(s, k, call, n);
  }

  /** What becomes of a call that stands here. */
  predicate ComesTo(t: Site, k: nat, call: Call, s: Site, c: Cell) {
    Answered(Step(t, Hear(k)), k, call) == s.(cell := c)
  }

  lemma AskAlone(s: Site, t: Site, k: nat, call: Call, n: nat)
    requires s.cell.rec.Some? && s.cell.rec.value.state == SUBMITTED_UNKNOWN && k !in s.flights && !call.query.NoQuery?
    requires t == s.(flights := s.flights[k := Asking(call, s.cell.rec.value, n)])
    ensures ComesTo(t, k, call, s, SettleRun(s.cell, call, n + 1).cell)
  {
    HearAlone(t, k, call, n);
    assert t.flights - {k} == s.flights;
  }

  lemma SettleAlone(s: Site, k: nat, call: Call, n: nat)
    requires s.cell.rec.Some? && s.cell.rec.value.state == SUBMITTED_UNKNOWN && k !in s.flights
    ensures ComesTo(Settling(s, k, call, n), k, call, s, SettleRun(s.cell, call, n).cell)
  {
    if call.query.NoQuery? || n == 0 {
      assert s.flights - {k} == s.flights;
    } else {
      AskAlone(s, Settling(s, k, call, n), k, call, n - 1);
    }
  }

  lemma StillWaiting(s: Site, k: nat)
    requires k !in s.flights || s.flights[k].Waiting?
    ensures Step(s, Hear(k)) == s
  {}

  lemma SubmitFirst(s: Site, k: nat, call: Call, n: nat)
    requires s.cell.rec.Some? && s.cell.rec.value.state == AUTHORIZED && k !in s.flights
    ensures Answered(Step(Submitting(s, k, call, n), Hear(k)), k, call) == s.(cell := SubmitRun(s.cell, call, n, true).cell)
  {
    StillWaiting(Submitting(s, k, call, n), k);
    SubmitAlone(s, k, call, n);
    assert s.flights - {k} == s.flights;
  }

  lemma StartedOrNot(c: Cell, call: Call, n: nat)
    requires c.rec.Some?
    ensures SubmitRun(c, call, n, true).cell == SubmitRun(c, call, n, false).cell
  {}

  lemma IdleAlone(s: Site, k: nat, call: Call)
    requires k !in s.flights
    ensures ComesTo(s, k, call, s, s.cell)
  {
    StillWaiting(s, k);
  }

  lemma PreparedAlone(s: Site, k: nat, call: Call, n: nat)
    requires s.cell.rec.Some? && s.cell.rec.value.state == PREPARED && k !in s.flights
    ensures ComesTo(Resuming(s, k, call, n), k, call, s, ResumeRun(s.cell, call, n).cell)
  {
    if n == 0 {
      IdleAlone(s, k, call);
    } else {
      var t := s.(cell := Shift(s.cell, AUTHORIZED, NOTHING, call.now));
      SubmitFirst(t, k, call, n - 1);
      StartedOrNot(t.cell, call, n - 1);
    }
  }

  function Noted(s: Site, call: Call): Site
    requires s.cell.rec.Some?
  {
    s.(cell := Shift(s.cell, SUBMITTED_UNKNOWN, RESUMED, call.now))
  }

  lemma LeftoverIs(s: Site, k: nat, call: Call, n: nat)
    requires s.cell.rec.Some? && s.cell.rec.value.state == SUBMITTING && n > 0
    ensures Resuming(s, k, call, n) == Settling(Noted(s, call), k, call, n - 1)
    ensures ResumeRun(s.cell, call, n) == SettleRun(Noted(s, call).cell, call, n - 1)
  {}

  lemma SettlesTo(s: Site, u: Site, t: Site, k: nat, call: Call, n: nat, c: Cell)
    requires t.cell.rec.Some? && t.cell.rec.value.state == SUBMITTED_UNKNOWN && k !in t.flights && t == s.(cell := t.cell)
    requires u == Settling(t, k, call, n) && c == SettleRun(t.cell, call, n).cell
    ensures ComesTo(u, k, call, s, c)
  {
    SettleAlone(t, k, call, n);
  }

  lemma LeftoverAlone(s: Site, k: nat, call: Call, n: nat)
    requires s.cell.rec.Some? && s.cell.rec.value.state == SUBMITTING && k !in s.flights && n > 0
    ensures ComesTo(Resuming(s, k, call, n), k, call, s, ResumeRun(s.cell, call, n).cell)
  {
    LeftoverIs(s, k, call, n);
    SettlesTo(s, Resuming(s, k, call, n), Noted(s, call), k, call, n - 1, ResumeRun(s.cell, call, n).cell);
  }

  lemma SettledAlone(s: Site, k: nat, call: Call, n: nat)
    requires s.cell.rec.Some? && k !in s.flights
    requires var state := s.cell.rec.value.state; state != PREPARED && state != SUBMITTING
    ensures ComesTo(Resuming(s, k, call, n), k, call, s, ResumeRun(s.cell, call, n).cell)
  {
    match s.cell.rec.value.state
    case AUTHORIZED =>
      SubmitFirst(s, k, call, n);
      StartedOrNot(s.cell, call, n);
    case SUBMITTED_UNKNOWN => SettleAlone(s, k, call, n);
    case _ => IdleAlone(s, k, call);
  }

  lemma ResumeAlone(s: Site, k: nat, call: Call, n: nat)
    requires s.cell.rec.Some? && k !in s.flights
    ensures ComesTo(Resuming(s, k, call, n), k, call, s, ResumeRun(s.cell, call, n).cell)
  {
    match s.cell.rec.value.state
    case PREPARED => PreparedAlone(s, k, call, n);
    case SUBMITTING => if n == 0 { IdleAlone(s, k, call); } else { LeftoverAlone(s, k, call, n); }
    case _ => SettledAlone(s, k, call, n);
  }

  /** Without overlap this is the call as one step. */
  lemma AloneIsExecute(s: Site, k: nat, call: Call, room: bool)
    requires k !in s.flights
    ensures Alone(s, k, call, room) == s.(cell := Execute(s.cell, call, room).cell)
  {
    if Admitted(call) {
      if s.cell.rec.Some? {
        ResumeAlone(s, k, call, call.stop.steps);
        if Terminal(s.cell.rec.value.state) { IdleAlone(s, k, call); }
      } else if call.stop.steps > 0 && NewExecutionOk(NewFor(call)) && room {
        ResumeAlone(s.(cell := s.cell.(rec := Some(Prepared(NewFor(call), call.now)))), k, call, call.stop.steps - 1);
      }
    }
  }

  // ---------------------------------------------------------------- overlaps that go wrong

  /** A first call of a key whose query, truthfully or not, says absent, and that is not cut off. */
  predicate Retries(call: Call) {
    && Admitted(call) && NewExecutionOk(NewFor(call)) && OrElse(call.maxAttempts, 3) >= 2
    && call.query.Absent? && call.stop.steps >= 5
  }

  lemma AfterSnoc(events: seq<Event>, e: Event)
    ensures After(events + [e]) == Step(After(events), e)
  {
    assert ButLast(events + [e]) == events && Last(events + [e]) == e;
  }

  /** The record stands here, in the course of such calls. */
  predicate Live(s: Site, call: Call, state: ExecutionState, attempts: nat) {
    && s.cell.rec.Some? && s.cell.rec.value.state == state
    && s.cell.rec.value.attempts == attempts && s.cell.rec.value.maxAttempts == OrElse(call.maxAttempts, 3)
  }

  /** This call waits for its query and read the record at this count. */
  predicate Asks(s: Site, k: nat, call: Call, attempts: nat) {
    && k in s.flights && s.flights[k].Asking? && s.flights[k].call == call && s.flights[k].steps >= 2
    && s.flights[k].seen.attempts == attempts && s.flights[k].seen.maxAttempts == OrElse(call.maxAttempts, 3)
  }

  lemma FirstEnters(call: Call)
    requires Retries(call)
    ensures var s := Step(IDLE, Enter(1, call, true));
      Live(s, call, SUBMITTING, 1) && s.flights.Keys == {1} && s.pending == 1 && s.cell.effects == 0
  {}

  /** A call that finds SUBMITTING takes it for a leftover, although another call is waiting. */
  lemma FindsSubmitting(s: Site, k: nat, call: Call, attempts: nat)
    requires Retries(call) && Live(s, call, SUBMITTING, attempts) && k !in s.flights
    ensures var t := Step(s, Enter(k, call, true));
      && Live(t, call, SUBMITTED_UNKNOWN, attempts) && Asks(t, k, call, attempts)
      && t.pending == s.pending && t.cell.effects == s.cell.effects
      && t.flights == s.flights[k := t.flights[k]]
  {}

  lemma FindsUnknown(s: Site, k: nat, call: Call, attempts: nat)
    requires Retries(call) && Live(s, call, SUBMITTED_UNKNOWN, attempts) && k !in s.flights
    ensures var t := Step(s, Enter(k, call, true));
      Live(t, call, SUBMITTED_UNKNOWN, attempts) && Asks(t, k, call, attempts) && t.flights == s.flights[k := t.flights[k]]
  {}

  lemma HearsAbsent(s: Site, k: nat, call: Call, attempts: nat)
    requires Retries(call) && Live(s, call, SUBMITTED_UNKNOWN, attempts) && Asks(s, k, call, attempts)
    requires attempts < OrElse(call.maxAttempts, 3)
    ensures Resubmits(s, Hear(k))
    ensures var t := Step(s, Hear(k)); Live(t, call, SUBMITTING, attempts + 1) && t.flights == s.flights[k := t.flights[k]]
  {}

  /**
   * Truthful answers are not enough: a second call sends its query while the first one's submission
   * is under way, is told - truthfully, as no effect exists yet - that there is none, and submits
   * again; both submissions can land.
   */
  lemma TruthfulOverlapDuplicates(call: Call)
    requires Retries(call)
    ensures var two := [Enter(1, call, true), Enter(2, call, true)];
      var t := two + [Hear(2)];
      && After(two).cell.effects == 0
      && After(t + seq(After(t).pending, _ => Land)).cell.effects >= 2
  {
    var one, two := [Enter(1, call, true)], [Enter(1, call, true), Enter(2, call, true)];
    AfterSnoc([], Enter(1, call, true));
    AfterSnoc(one, Enter(2, call, true));
    assert [] + [Enter(1, call, true)] == one && one + [Enter(2, call, true)] == two;
    FirstEnters(call);
    FindsSubmitting(After(one), 2, call, 1);
    HearsAbsent(After(two), 2, call, 1);
    PrematureCanDouble(two, Hear(2));
  }

  /** Two calls that have read the same record after one attempt, and nobody else but the first. */
  predicate BothAsk(s: Site, call: Call) {
    Live(s, call, SUBMITTED_UNKNOWN, 1) && Asks(s, 2, call, 1) && Asks(s, 3, call, 1) && 4 !in s.flights
  }

  lemma ThreeEnter(call: Call)
    requires Retries(call)
    ensures BothAsk(After([Enter(1, call, true), Enter(2, call, true), Enter(3, call, true)]), call)
  {
    var one, two := [Enter(1, call, true)], [Enter(1, call, true), Enter(2, call, true)];
    AfterSnoc([], Enter(1, call, true));
    AfterSnoc(one, Enter(2, call, true));
    AfterSnoc(two, Enter(3, call, true));
    assert [] + [Enter(1, call, true)] == one && one + [Enter(2, call, true)] == two;
    assert two + [Enter(3, call, true)] == [Enter(1, call, true), Enter(2, call, true), Enter(3, call, true)];
    FirstEnters(call);
    FindsSubmitting(After(one), 2, call, 1);
    FindsUnknown(After(two), 3, call, 1);
  }

  lemma FirstResubmits(s: Site, call: Call)
    requires Retries(call) && BothAsk(s, call)
    ensures var t := Step(s, Hear(2)); Live(t, call, SUBMITTING, 2) && Asks(t, 3, call, 1) && 4 !in t.flights
  {
    HearsAbsent(s, 2, call, 1);
  }

  lemma SecondOverruns(s: Site, call: Call)
    requires Retries(call) && call.maxAttempts == Some(2)
    requires Live(s, call, SUBMITTING, 2) && Asks(s, 3, call, 1) && 4 !in s.flights
    ensures !WithinBudget(Step(Step(s, Enter(4, call, true)), Hear(3)))
  {
    FindsSubmitting(s, 4, call, 2);
    RunsOver(Step(s, Enter(4, call, true)), 3, call);
  }

  lemma RunsOver(s: Site, k: nat, call: Call)
    requires Retries(call) && call.maxAttempts == Some(2) && Live(s, call, SUBMITTED_UNKNOWN, 2) && Asks(s, k, call, 1)
    ensures !WithinBudget(Step(s, Hear(k)))
  {}

  /** Two calls that read the same record use up a budget of two, and the second runs over it. */
  lemma OverlapOverruns(call: Call)
    requires Retries(call) && call.maxAttempts == Some(2)
    ensures var three := [Enter(1, call, true), Enter(2, call, true), Enter(3, call, true)];
      !WithinBudget(After(three + [Hear(2)] + [Enter(4, call, true)] + [Hear(3)]))
  {
    var three := [Enter(1, call, true), Enter(2, call, true), Enter(3, call, true)];
    ThreeEnter(call);
    FirstResubmits(After(three), call);
    AfterSnoc(three, Hear(2));
    SecondOverruns(After(three + [Hear(2)]), call);
    AfterSnoc(three + [Hear(2)], Enter(4, call, true));
    AfterSnoc(three + [Hear(2)] + [Enter(4, call, true)], Hear(3));
  }

  // ---------------------------------------------------------------- such calls exist

  const DIGEST: Text := seq(32, _ => 48)

  const TERMS := Terms(DIGEST, Lit("/a"), Lit("r"), Lit("k"), Lit("p"), map[])

  const CALL := Call(
    Request(Lit("capability"), TERMS),
    Redemption(true, true, true, Lit("capability"),
               Operation(Lit("/a"), map[], Lit("r"), Some(Lit("k")), Some(Lit("p")), DIGEST)),
    Lit("card"), Some(2), 0, 0, DIGEST, seq(16, _ => 48), Absent, SubmitThrows(true), Stop(9, false))

  lemma SomeCallRetries()
    ensures Retries(CALL) && CALL.maxAttempts == Some(2)
  {
    assert |Lit("capability")| == 10 && |Lit("/a")| == 2 && Lit("/a")[0] == 47;
    assert |Lit("r")| == 1 && |Lit("k")| == 1 && |Lit("p")| == 1;
    assert Lit("card") == [99, 97, 114, 100];
    assert ScopeText(Lit("card"));
    assert HexText(DIGEST, 16, 128) && HexText(DIGEST, 32, 32);
    assert |Lit("ptf-")| == 4;
  }
}
