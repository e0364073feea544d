/**
 * What FAILED_FINAL evidence says over whole histories, retries of the same attempt included:
 * exactly when an event ends FAILED_FINAL although an effect was begun under it.
 */
module BoundaryEvidence {
  import opened Basics
  import opened PrivacyEvents
  import opened Boundary
  import opened BoundaryLaws
  import opened BoundaryHistory

  // ---------------------------------------------------------------- one happening, seen from one event

  /** The happening is a run of this attempt: it gets past the gates and files its evidence under `id`. */
  predicate RunsUnder(w: World, cfg: Config, h: Happening, id: EventId) {
    h.Ran? && Gated(w.auth, cfg, h.env).Ok? && EventFor(cfg, h.env, Gated(w.auth, cfg, h.env).value) == id
  }

  /** A run of this attempt enters the effect step and begins an effect. */
  predicate BeginsUnder(w: World, cfg: Config, h: Happening, id: EventId) {
    && RunsUnder(w, cfg, h, id) && Admit(w, cfg, h.env).Ok?
    && Began(w, StepWorld(w, cfg, h))
  }

  /** The happening writes FAILED_FINAL into the event. */
  predicate RecordsFailure(w: World, cfg: Config, h: Happening, id: EventId) {
    !StateIs(w, id, EventFailed) && StateIs(StepWorld(w, cfg, h), id, EventFailed)
  }

  /** A callback of this attempt acts unannounced and throws, and the failure is recorded. */
  predicate Misjudges(w: World, cfg: Config, h: Happening, id: EventId) {
    && RunsUnder(w, cfg, h, id) && Admit(w, cfg, h.env).Ok? && ActsUnannounced(cfg, h.env)
    && RecordsFailure(w, cfg, h, id)
  }

  /** A run of this attempt begins an effect and leaves the event PREPARED: it died or its final write was lost. */
  predicate LeavesOpen(w: World, cfg: Config, h: Happening, id: EventId) {
    BeginsUnder(w, cfg, h, id) && StateIs(StepWorld(w, cfg, h), id, EventPrepared)
  }

  /** A run of this attempt is refused and the failure is recorded. */
  predicate RefusesUnder(w: World, cfg: Config, h: Happening, id: EventId) {
    RunsUnder(w, cfg, h, id) && RunOnce(w, cfg, h.env, h.room).outcome.Refused? && RecordsFailure(w, cfg, h, id)
  }

  // ---------------------------------------------------------------- over a history

  predicate EverBegan(w: World, cfg: Config, hs: seq<Happening>, id: EventId) {
    hs != [] &&
    (EverBegan(w, cfg, ButLast(hs), id) || BeginsUnder(After(w, cfg, ButLast(hs)), cfg, Last(hs), id))
  }

  predicate EverMisjudged(w: World, cfg: Config, hs: seq<Happening>, id: EventId) {
    hs != [] &&
    (EverMisjudged(w, cfg, ButLast(hs), id) || Misjudges(After(w, cfg, ButLast(hs)), cfg, Last(hs), id))
  }

  predicate EverLeftOpen(w: World, cfg: Config, hs: seq<Happening>, id: EventId) {
    hs != [] &&
    (EverLeftOpen(w, cfg, ButLast(hs), id) || LeavesOpen(After(w, cfg, ButLast(hs)), cfg, Last(hs), id))
  }

  /** After an effect was left open, a later run of the same attempt was refused and recorded. */
  predicate RetriedIntoFailure(w: World, cfg: Config, hs: seq<Happening>, id: EventId) {
    hs != [] &&
    (RetriedIntoFailure(w, cfg, ButLast(hs), id)
     || (EverLeftOpen(w, cfg, ButLast(hs), id) && RefusesUnder(After(w, cfg, ButLast(hs)), cfg, Last(hs), id)))
  }

  // ---------------------------------------------------------------- what a run does to the events

  /** Only this event can change, and only while it is absent or PREPARED. */
  predicate Touches(before: Events, after: Events, id: EventId) {
    && (forall e :: e in before ==> e in after)
    && (forall e :: e in before && (e != id || before[e].state != EventPrepared) ==> after[e] == before[e])
    && (forall e :: e in after && e != id ==> e in before)
  }

  lemma ConcludeTouches(w: World, id: EventId, to: EventState, env: Env, out: Outcome)
    requires StateIs(w, id, EventPrepared)
    ensures Touches(w.events, Conclude(w, id, to, env, out).world.events, id)
  {}

  lemma RecordTouches(w: World, receipt: Receipt, env: Env)
    requires StateIs(w, receipt.event, EventPrepared)
    ensures Touches(w.events, RecordSuccess(w, receipt, env).world.events, receipt.event)
  {}

  lemma CarryTouches(ready: Ready, cfg: Config, env: Env, room: bool)
    requires StateIs(ready.world, ready.id, EventPrepared)
    ensures Touches(ready.world.events, Carry(ready, cfg, env, room).world.events, ready.id)
  {
    if env.alive >= 3 {
      PerformIs(ready.world, cfg, env, room);
      var done := Perform(ready.world, cfg, env, room);
      match done.end
      case Dies =>
      case Throws =>
        ConcludeTouches(done.world, ready.id, EventUnknown, env, OutcomeUnknown);
        ConcludeTouches(done.world, ready.id, EventFailed, env, Refused(Effect));
      case Returns(raw) =>
        ConcludeTouches(done.world, ready.id, EventUnknown, env, OutcomeUnknown);
        var receipt := Project(raw, cfg, env, ready.id, ready.authorityId);
        if receipt.Some? { RecordTouches(done.world, receipt.value, env); }
    }
  }

  /** The event is untouched, or refused and recorded. */
  predicate Ends(before: Events, run: Run, id: EventId) {
    Touches(before, run.world.events, id) && (StateIs(run.world, id, EventFailed) ==> run.outcome.Refused?)
  }

  lemma ConcludeEnds(w: World, id: EventId, env: Env, out: Outcome)
    requires StateIs(w, id, EventPrepared) && out.Refused?
    ensures Ends(w.events, Conclude(w, id, EventFailed, env, out), id)
  {}

  /** A run stopped in step 6 or 7. */
  lemma BurnedTouches(w: World, cfg: Config, env: Env, live: Gate, id: EventId)
    requires live.Cleared? && StateIs(w, id, EventPrepared) && Burned(w, cfg, env, live, id).Err?
    ensures Ends(w.events, Burned(w, cfg, env, live, id).error, id)
  {
    var x, out := BurnedConcludes(w, cfg, env, live, id);
    ConcludeEnds(x, id, env, out);
  }

  /** What a run under `id` does to the events. */
  ghost predicate Files(w: World, run: Run, id: EventId) {
    && Touches(w.events, run.world.events, id)
    && (StateIs(run.world, id, EventFailed) && !StateIs(w, id, EventFailed) ==> run.outcome.Refused?)
  }

  lemma StoppedFiles(w: World, cfg: Config, env: Env, live: Gate)
    requires live.Cleared? && Precommitted(w, cfg, env, live).Err?
    ensures Files(w, Precommitted(w, cfg, env, live).error, EventFor(cfg, env, live))
  {
    var id := EventFor(cfg, env, live);
    var w' := w.(events := PrepareIn(w.events, id));
    if StateIs(w', id, EventPrepared) && Burned(w', cfg, env, live, id).Err? { BurnedTouches(w', cfg, env, live, id); }
  }

  lemma AdmittedFiles(w: World, cfg: Config, env: Env, room: bool)
    requires Admit(w, cfg, env).Ok?
    ensures var r := Admit(w, cfg, env).value;
      Files(w, RunOnce(w, cfg, env, room), r.id) && !(r.id in w.events && w.events[r.id].state != EventPrepared)
  {
    AdmittedIsReady(w, cfg, env);
    var r := Admit(w, cfg, env).value;
    CarryTouches(r, cfg, env, room);
    CarryClassifies(r, cfg, env, room);
  }

  /** A run that does not pass the gates changes nothing; any other files under its own event only. */
  lemma RunFiles(w: World, cfg: Config, env: Env, room: bool)
    ensures var gate := Gated(w.auth, cfg, env);
      if gate.Ok? then Files(w, RunOnce(w, cfg, env, room), EventFor(cfg, env, gate.value))
      else RunOnce(w, cfg, env, room).world == w
  {
    var gate := Gated(w.auth, cfg, env);
    if Admit(w, cfg, env).Ok? {
      AdmittedGate(w, cfg, env);
      AdmittedFiles(w, cfg, env, room);
    } else if gate.Ok? {
      StoppedFiles(w, cfg, env, gate.value);
    }
  }

  // ---------------------------------------------------------------- one step

  /** Evidence that is no longer PREPARED stays; evidence never goes back to PREPARED or away. */
  lemma StepKeepsSettled(w: World, cfg: Config, h: Happening, id: EventId)
    requires id in w.events
    ensures var v := StepWorld(w, cfg, h);
      id in v.events && (w.events[id].state != EventPrepared ==> v.events[id] == w.events[id])
  {
    if h.Ran? { RunFiles(w, cfg, h.env, h.room); }
  }

  /** FAILED_FINAL is written only by a refused run of the same attempt. */
  lemma FailureIsRefusal(w: World, cfg: Config, h: Happening, id: EventId)
    requires RecordsFailure(w, cfg, h, id)
    ensures RefusesUnder(w, cfg, h, id) && (id in w.events ==> StateIs(w, id, EventPrepared))
  {
    if h.Ran? { RunFiles(w, cfg, h.env, h.room); }
  }

  /** An effect begins only under an absent or PREPARED event. */
  lemma BeginningIsOpen(w: World, cfg: Config, h: Happening, id: EventId)
    requires BeginsUnder(w, cfg, h, id)
    ensures id in w.events ==> StateIs(w, id, EventPrepared)
    ensures id in StepWorld(w, cfg, h).events
  {
    AdmittedGate(w, cfg, h.env);
    AdmittedIsReady(w, cfg, h.env);
    RunFiles(w, cfg, h.env, h.room);
    CarryTouches(Admit(w, cfg, h.env).value, cfg, h.env, h.room);
  }

  /** If the run that begins an effect also fails its event, the callback was unannounced. */
  lemma FailingOwnEffectMisjudges(w: World, cfg: Config, h: Happening, id: EventId)
    requires BeginsUnder(w, cfg, h, id) && RecordsFailure(w, cfg, h, id)
    ensures Misjudges(w, cfg, h, id)
  {
    FailureIsRefusal(w, cfg, h, id);
    RefusedMeansNoEffect(w, cfg, h.env, h.room);
  }

  /** A misjudged callback did begin an effect. */
  lemma MisjudgingBegins(w: World, cfg: Config, h: Happening, id: EventId)
    requires Misjudges(w, cfg, h, id)
    ensures BeginsUnder(w, cfg, h, id)
  {
    FailureIsRefusal(w, cfg, h, id);
    RefusedMeansNoEffect(w, cfg, h.env, h.room);
  }

  // ---------------------------------------------------------------- the history invariant

  lemma {:induction false} BeganIsFiled(w: World, cfg: Config, hs: seq<Happening>, id: EventId)
    requires EverBegan(w, cfg, hs, id)
    ensures id in After(w, cfg, hs).events
    ensures StateIs(After(w, cfg, hs), id, EventPrepared) ==> EverLeftOpen(w, cfg, hs, id)
    decreases |hs|
  {
    var u, h := After(w, cfg, ButLast(hs)), Last(hs);
    if BeginsUnder(u, cfg, h, id) {
      BeginningIsOpen(u, cfg, h, id);
    } else {
      BeganIsFiled(w, cfg, ButLast(hs), id);
      StepKeepsSettled(u, cfg, h, id);
    }
  }

  lemma {:induction false} LeftOpenBegan(w: World, cfg: Config, hs: seq<Happening>, id: EventId)
    requires EverLeftOpen(w, cfg, hs, id)
    ensures EverBegan(w, cfg, hs, id)
    decreases |hs|
  {
    if EverLeftOpen(w, cfg, ButLast(hs), id) { LeftOpenBegan(w, cfg, ButLast(hs), id); }
  }

  /** A failed event over an effect goes back to one of the two causes. */
  lemma {:induction false} FailedOverEffectHasCause(w: World, cfg: Config, hs: seq<Happening>, id: EventId)
    requires id !in w.events
    requires StateIs(After(w, cfg, hs), id, EventFailed) && EverBegan(w, cfg, hs, id)
    ensures EverMisjudged(w, cfg, hs, id) || RetriedIntoFailure(w, cfg, hs, id)
    decreases |hs|
  {
    var u, h := After(w, cfg, ButLast(hs)), Last(hs);
    if StateIs(u, id, EventFailed) {
      if BeginsUnder(u, cfg, h, id) { BeginningIsOpen(u, cfg, h, id); }
      FailedOverEffectHasCause(w, cfg, ButLast(hs), id);
    } else if BeginsUnder(u, cfg, h, id) {
      FailingOwnEffectMisjudges(u, cfg, h, id);
    } else {
      FailureIsRefusal(u, cfg, h, id);
      BeganIsFiled(w, cfg, ButLast(hs), id);
    }
  }

  lemma {:induction false} FailedStays(w: World, cfg: Config, hs: seq<Happening>, id: EventId)
    requires EverMisjudged(w, cfg, hs, id) || RetriedIntoFailure(w, cfg, hs, id)
    ensures StateIs(After(w, cfg, hs), id, EventFailed) && EverBegan(w, cfg, hs, id)
    decreases |hs|
  {
    var front, u, h := ButLast(hs), After(w, cfg, ButLast(hs)), Last(hs);
    if EverMisjudged(w, cfg, front, id) || RetriedIntoFailure(w, cfg, front, id) {
      FailedStays(w, cfg, front, id);
      StepKeepsSettled(u, cfg, h, id);
    } else if Misjudges(u, cfg, h, id) {
      MisjudgingBegins(u, cfg, h, id);
    } else {
      LeftOpenBegan(w, cfg, front, id);
    }
  }

  // ---------------------------------------------------------------- main results

  /**
   * Over any history, for an attempt with no evidence at its start: its event is FAILED_FINAL
   * although an effect was begun under it if and only if a callback acted unannounced and threw, or
   * an effect was left under a PREPARED event and a later run of the same attempt was refused.
   */
  lemma {:induction false} FailedFinalOverEffectExactly(w: World, cfg: Config, hs: seq<Happening>, id: EventId)
    requires id !in w.events
    ensures StateIs(After(w, cfg, hs), id, EventFailed) && EverBegan(w, cfg, hs, id)
       <==> EverMisjudged(w, cfg, hs, id) || RetriedIntoFailure(w, cfg, hs, id)
  {
    if StateIs(After(w, cfg, hs), id, EventFailed) && EverBegan(w, cfg, hs, id) {
      FailedOverEffectHasCause(w, cfg, hs, id);
    }
    if EverMisjudged(w, cfg, hs, id) || RetriedIntoFailure(w, cfg, hs, id) { FailedStays(w, cfg, hs, id); }
  }

  /** The host never runs an attempt again whose event is still PREPARED. */
  predicate NeverReuses(w: World, cfg: Config, hs: seq<Happening>, id: EventId) {
    hs != [] ==>
      && NeverReuses(w, cfg, ButLast(hs), id)
      && (RunsUnder(After(w, cfg, ButLast(hs)), cfg, Last(hs), id) ==>
            !StateIs(After(w, cfg, ButLast(hs)), id, EventPrepared))
  }

  lemma {:induction false} NoReuseNoRetry(w: World, cfg: Config, hs: seq<Happening>, id: EventId)
    requires id !in w.events && NeverReuses(w, cfg, hs, id)
    ensures !RetriedIntoFailure(w, cfg, hs, id)
    decreases |hs|
  {
    if hs == [] {
    } else {
      var front, u := ButLast(hs), After(w, cfg, ButLast(hs));
      NoReuseNoRetry(w, cfg, front, id);
      if EverLeftOpen(w, cfg, front, id) && RefusesUnder(u, cfg, Last(hs), id) {
        LeftOpenBegan(w, cfg, front, id);
        BeganIsFiled(w, cfg, front, id);
        FailureIsRefusal(u, cfg, Last(hs), id);
        assert false;
      }
    }
  }

  /** No callback of this attempt can act unannounced. */
  predicate AllAnnounced(w: World, cfg: Config, hs: seq<Happening>) {
    UsesProvider(cfg) || forall h :: h in hs && h.Ran? ==> SignalsFirst(h.env.script.moves)
  }

  lemma {:induction false} AnnouncedNeverMisjudged(w: World, cfg: Config, hs: seq<Happening>, id: EventId)
    requires AllAnnounced(w, cfg, hs)
    ensures !EverMisjudged(w, cfg, hs, id)
    decreases |hs|
  {
    if hs == [] {
    } else {
      assert hs == ButLast(hs) + [Last(hs)];
      AnnouncedNeverMisjudged(w, cfg, ButLast(hs), id);
      if Last(hs).Ran? && !UsesProvider(cfg) { SignallingCallbackIsAnnounced(cfg, Last(hs).env); }
    }
  }

  /**
   * A host that never runs a PREPARED attempt again: FAILED_FINAL is wrong only through an
   * unannounced callback, and never when callbacks signal first or the provider path is used.
   */
  lemma {:induction false} FreshAttemptsAreProof(w: World, cfg: Config, hs: seq<Happening>, id: EventId)
    requires id !in w.events && NeverReuses(w, cfg, hs, id)
    ensures StateIs(After(w, cfg, hs), id, EventFailed) && EverBegan(w, cfg, hs, id) <==> EverMisjudged(w, cfg, hs, id)
    ensures AllAnnounced(w, cfg, hs) && StateIs(After(w, cfg, hs), id, EventFailed) ==> !EverBegan(w, cfg, hs, id)
  {
    FailedFinalOverEffectExactly(w, cfg, hs, id);
    NoReuseNoRetry(w, cfg, hs, id);
    if AllAnnounced(w, cfg, hs) { AnnouncedNeverMisjudged(w, cfg, hs, id); }
  }

  /**
   * The retry is real, with signals and on the provider path too: whenever a first run left its
   * effect under a PREPARED event and a second run of the attempt reaches the fence and is refused
   * there, the event ends FAILED_FINAL over that effect.
   */
  lemma RetriedAttemptIsMisjudged(w: World, cfg: Config, first: Happening, env: Env, room: bool, id: EventId)
    requires id !in w.events && LeavesOpen(w, cfg, first, id)
    requires RunsUnder(StepWorld(w, cfg, first), cfg, Ran(env, room), id)
    requires AttemptRefOk(env.attemptRef) && env.prepare.Fine? && env.alive >= 4 && Bookkeeping(env)
    requires env.fence.Refuses?
    ensures var hs := [first, Ran(env, room)];
      StateIs(After(w, cfg, hs), id, EventFailed) && EverBegan(w, cfg, hs, id)
  {
    var hs := [first, Ran(env, room)];
    var u := StepWorld(w, cfg, first);
    assert ButLast(hs) == [first] && ButLast([first]) == [] && After(w, cfg, [first]) == u;
    assert EverBegan(w, cfg, [first], id);
    RefusedAtFence(u, cfg, env, room);
  }

  lemma RefusedAtFence(u: World, cfg: Config, env: Env, room: bool)
    requires Gated(u.auth, cfg, env).Ok?
    requires AttemptRefOk(env.attemptRef) && env.prepare.Fine? && env.alive >= 4 && Bookkeeping(env) && env.fence.Refuses?
    requires StateIs(u, EventFor(cfg, env, Gated(u.auth, cfg, env).value), EventPrepared)
    ensures StateIs(RunOnce(u, cfg, env, room).world, EventFor(cfg, env, Gated(u.auth, cfg, env).value), EventFailed)
  {
    var live := Gated(u.auth, cfg, env).value;
    var id := EventFor(cfg, env, live);
    var w' := u.(events := PrepareIn(u.events, id));
    assert Burned(w', cfg, env, live, id).Err?;
    BurnedRecords(w', cfg, env, live, id);
  }
}
