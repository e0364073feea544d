/**
 * Boundary runs that overlap: `run` awaits the effect, so any number of runs - of the same attempt,
 * too - can be in flight in one process. A run is split here into its synchronous part up to the
 * effect, the moves it makes meanwhile, and its end.
 */
module BoundaryOverlap {
  import opened Basics
  import opened PrivacyEvents
  import opened Boundary
  import opened BoundaryLaws
  import E = BoundaryEvidence
  import H = BoundaryHistory

  // ---------------------------------------------------------------- runs in flight

  /** An admitted run: what it was admitted with, and whether it has signalled and acted since. */
  datatype Flight = Flight(cfg: Config, env: Env, live: Gate, id: EventId, authorityId: Text, signalled: bool, acted: bool)

  datatype Host = Host(world: World, flights: map<nat, Flight>)

  /**
   * `Move` is a signal or an effect of a callback or of the provider call; how the effect step ends
   * is told when it ends. `Restart` is the death of the process and its next start.
   */
  datatype Event =
    | Start(k: nat, cfg: Config, env: Env)
    | Move(k: nat, move: Boundary.Move)
    | Finish(k: nat, end: Ending)
    | Restart(cfg: Config, now: int)

  function Starting(h: Host, k: nat, cfg: Config, env: Env): Host {
    var r := Admit(h.world, cfg, env);
    if r.Err? then h.(world := r.error.world)
    else
      var ready := r.value;
      Host(ready.world, h.flights[k := Flight(cfg, env, ready.live, ready.id, ready.authorityId, false, false)])
  }

  function Moving(h: Host, k: nat, move: Boundary.Move): Host
    requires k in h.flights
  {
    var f := h.flights[k];
    match move
    case Signal => h.(flights := h.flights[k := f.(signalled := true)])
    case Act => Host(h.world.(acts := h.world.acts + 1), h.flights[k := f.(acted := true)])
  }

  /** Classification and evidence of the end of an effect step. */
  function Closed(w: World, f: Flight, end: Ending): Run {
    match end
    case Dies => Run(w, Dead)
    case Throws =>
      if f.signalled then Conclude(w, f.id, EventUnknown, f.env, OutcomeUnknown)
      else Conclude(w, f.id, EventFailed, f.env, Refused(Effect))
    case Returns(raw) =>
      var receipt := Project(raw, f.cfg, f.env, f.id, f.authorityId);
      if receipt.None? then Conclude(w, f.id, EventUnknown, f.env, OutcomeUnknown)
      else RecordSuccess(w, receipt.value, f.env)
  }

  function Step(h: Host, e: Event): Host {
    match e
    case Start(k, cfg, env) => if k in h.flights then h else Starting(h, k, cfg, env)
    case Move(k, move) => if k !in h.flights then h else Moving(h, k, move)
    case Finish(k, end) =>
      if k !in h.flights then h else Host(Closed(h.world, h.flights[k], end).world, h.flights - {k})
    case Restart(cfg, now) => Host(H.StepWorld(h.world, cfg, H.Restarted(now)), map[])
  }

  function After(w: World, es: seq<Event>): Host {
    if es == [] then Host(w, map[]) else Step(After(w, ButLast(es)), Last(es))
  }

  // ---------------------------------------------------------------- one event, seen from one attempt

  predicate FliesUnder(h: Host, k: nat, id: EventId) { k in h.flights && h.flights[k].id == id }

  /** A run of this attempt makes an effect. */
  predicate ActsUnder(h: Host, e: Event, id: EventId) { e.Move? && e.move.Act? && FliesUnder(h, e.k, id) }

  predicate RecordsFailure(h: Host, e: Event, id: EventId) {
    !StateIs(h.world, id, EventFailed) && StateIs(Step(h, e).world, id, EventFailed)
  }

  /** A run of this attempt that has acted records the failure of its own event. */
  predicate Misjudges(h: Host, e: Event, id: EventId) {
    RecordsFailure(h, e, id) && e.Finish? && FliesUnder(h, e.k, id) && h.flights[e.k].acted
  }

  /** A run of this attempt that has not acted records the failure: it was refused, or threw. */
  predicate FailsOwn(h: Host, e: Event, id: EventId) { RecordsFailure(h, e, id) && !Misjudges(h, e, id) }

  predicate EverActed(w: World, es: seq<Event>, id: EventId) {
    es != [] && (EverActed(w, ButLast(es), id) || ActsUnder(After(w, ButLast(es)), Last(es), id))
  }

  predicate EverMisjudged(w: World, es: seq<Event>, id: EventId) {
    es != [] && (EverMisjudged(w, ButLast(es), id) || Misjudges(After(w, ButLast(es)), Last(es), id))
  }

  predicate EverFailedOwn(w: World, es: seq<Event>, id: EventId) {
    es != [] && (EverFailedOwn(w, ButLast(es), id) || FailsOwn(After(w, ButLast(es)), Last(es), id))
  }

  /**
   * A run that has not acted records the failure although another run of the attempt has acted
   * before, or, still in flight, acts afterwards.
   */
  predicate Crossed(w: World, es: seq<Event>, id: EventId) {
    es != [] &&
    (var front, h, e := ButLast(es), After(w, ButLast(es)), Last(es);
     || Crossed(w, front, id)
     || (EverActed(w, front, id) && FailsOwn(h, e, id))
     || (EverFailedOwn(w, front, id) && ActsUnder(h, e, id)))
  }

  // ---------------------------------------------------------------- what an event does to the evidence

  /** What one run may do to the events: nothing but to its own, and never to final evidence. */
  predicate Respects(before: Events, after: Events, id: EventId) {
    && (forall e :: e in before ==> e in after && (e != id || Final(before[e]) ==> after[e] == before[e]))
    && (forall e :: e in after && e != id ==> e in before)
  }

  lemma PrepareRespects(before: Events, id: EventId)
    ensures Respects(before, PrepareIn(before, id), id)
  {}

  lemma FilesRespects(w: World, run: Run, id: EventId)
    requires E.Files(w, run, id)
    ensures Respects(w.events, run.world.events, id)
  {}

  /** The world a start leaves. */
  function Started(w: World, cfg: Config, env: Env): World {
    var r := Admit(w, cfg, env);
    if r.Ok? then r.value.world else r.error.world
  }

  lemma StartFiles(w: World, cfg: Config, env: Env)
    ensures var gate, r := Gated(w.auth, cfg, env), Admit(w, cfg, env);
      && (if gate.Ok? then Respects(w.events, Started(w, cfg, env).events, EventFor(cfg, env, gate.value))
          else Started(w, cfg, env) == w)
      && (r.Ok? ==>
            && gate.Ok? && r.value.id == EventFor(cfg, env, gate.value)
            && StateIs(r.value.world, r.value.id, EventPrepared))
  {
    var gate := Gated(w.auth, cfg, env);
    if Admit(w, cfg, env).Ok? {
      AdmittedIsReady(w, cfg, env);
      AdmittedGate(w, cfg, env);
      PrepareRespects(w.events, EventFor(cfg, env, gate.value));
    } else if gate.Ok? {
      E.StoppedFiles(w, cfg, env, gate.value);
      FilesRespects(w, Admit(w, cfg, env).error, EventFor(cfg, env, gate.value));
    }
  }

  lemma ConcludeRespects(w: World, id: EventId, to: EventState, env: Env, out: Outcome)
    ensures var v := Conclude(w, id, to, env, out).world;
      Respects(w.events, v.events, id) && (StateIs(v, id, EventFailed) ==> to == EventFailed || StateIs(w, id, EventFailed))
  {}

  lemma RecordRespects(w: World, receipt: Receipt, env: Env)
    ensures var v := RecordSuccess(w, receipt, env).world;
      && Respects(w.events, v.events, receipt.event)
      && (StateIs(v, receipt.event, EventFailed) ==> StateIs(w, receipt.event, EventFailed))
  {}

  /** The end of an effect step writes FAILED_FINAL only if it throws without a signal. */
  lemma ClosedRespects(w: World, f: Flight, end: Ending)
    ensures var v := Closed(w, f, end).world;
      && Respects(w.events, v.events, f.id)
      && (StateIs(v, f.id, EventFailed) && !StateIs(w, f.id, EventFailed) ==> end.Throws? && !f.signalled)
  {
    ConcludeRespects(w, f.id, EventUnknown, f.env, OutcomeUnknown);
    ConcludeRespects(w, f.id, EventFailed, f.env, Refused(Effect));
    if end.Returns? {
      var receipt := Project(end.raw, f.cfg, f.env, f.id, f.authorityId);
      if receipt.Some? { RecordRespects(w, receipt.value, f.env); }
    }
  }

  /** The attempt whose event an event of the host may write. */
  predicate Concerns(h: Host, e: Event, id: EventId) {
    || (e.Start? && e.k !in h.flights && Gated(h.world.auth, e.cfg, e.env).Ok?
        && EventFor(e.cfg, e.env, Gated(h.world.auth, e.cfg, e.env).value) == id)
    || (e.Finish? && FliesUnder(h, e.k, id))
  }

  lemma StartRespects(h: Host, e: Event, id: EventId)
    requires e.Start? && id in h.world.events
    ensures var v := Step(h, e).world;
      && id in v.events && (Final(h.world.events[id]) || !Concerns(h, e, id) ==> v.events[id] == h.world.events[id])
  {
    StartFiles(h.world, e.cfg, e.env);
  }

  lemma StartAdds(h: Host, e: Event, id: EventId)
    requires e.Start? && id !in h.world.events && !Concerns(h, e, id)
    ensures id !in Step(h, e).world.events
  {
    StartFiles(h.world, e.cfg, e.env);
  }

  lemma FinishRespects(h: Host, e: Event, id: EventId)
    requires e.Finish?
    ensures var v := Step(h, e).world;
      && (id in h.world.events ==>
            id in v.events && (Final(h.world.events[id]) || !Concerns(h, e, id) ==> v.events[id] == h.world.events[id]))
      && (id !in h.world.events && !Concerns(h, e, id) ==> id !in v.events)
  {
    if e.k in h.flights { ClosedRespects(h.world, h.flights[e.k], e.end); }
  }

  /** Final evidence stays, and an event of the host writes at most the evidence it concerns. */
  lemma StepRespects(h: Host, e: Event, id: EventId)
    ensures var v := Step(h, e).world;
      && (id in h.world.events ==>
            id in v.events && (Final(h.world.events[id]) || !Concerns(h, e, id) ==> v.events[id] == h.world.events[id]))
      && (id !in h.world.events && !Concerns(h, e, id) ==> id !in v.events)
  {
    match e
    case Start(_, _, _) =>
      if id in h.world.events {
        StartRespects(h, e, id);
      } else if !Concerns(h, e, id) {
        StartAdds(h, e, id);
      }
    case Finish(_, _) => FinishRespects(h, e, id);
    case _ =>
  }

  /** What a run that has acted and fails its own event looks like. */
  lemma MisjudgesIs(h: Host, e: Event, id: EventId)
    requires Misjudges(h, e, id)
    ensures e.end.Throws? && h.flights[e.k].acted && !h.flights[e.k].signalled
  {
    ClosedRespects(h.world, h.flights[e.k], e.end);
  }

  lemma FailureConcerns(h: Host, e: Event, id: EventId)
    requires RecordsFailure(h, e, id)
    ensures Concerns(h, e, id)
  {
    StepRespects(h, e, id);
  }

  /** Once FAILED_FINAL, an attempt admits no further run. */
  lemma FailedAdmitsNone(h: Host, e: Event, id: EventId, k: nat)
    requires StateIs(h.world, id, EventFailed) && FliesUnder(Step(h, e), k, id)
    ensures FliesUnder(h, k, id)
  {
    if e.Start? { StartFiles(h.world, e.cfg, e.env); }
  }

  // ---------------------------------------------------------------- histories

  /** A run in flight that has acted is on record as such. */
  lemma {:induction false} ActedIsEver(w: World, es: seq<Event>, k: nat)
    requires k in After(w, es).flights && After(w, es).flights[k].acted
    ensures EverActed(w, es, After(w, es).flights[k].id)
    decreases |es|
  {
    if es == [] {
    } else {
      var h, e := After(w, ButLast(es)), Last(es);
      if k in h.flights && h.flights[k].acted { ActedIsEver(w, ButLast(es), k); }
      ActedBy(h, e, k);
    }
  }

  lemma ActedBy(h: Host, e: Event, k: nat)
    requires k in Step(h, e).flights && Step(h, e).flights[k].acted
    ensures k in h.flights && h.flights[k].id == Step(h, e).flights[k].id
    ensures h.flights[k].acted || ActsUnder(h, e, h.flights[k].id)
  {}

  /** FAILED_FINAL goes back to a recorded failure of one of the two kinds, and stays. */
  lemma {:induction false} FailedHasCause(w: World, es: seq<Event>, id: EventId)
    requires id !in w.events
    ensures StateIs(After(w, es).world, id, EventFailed) <==> EverMisjudged(w, es, id) || EverFailedOwn(w, es, id)
    decreases |es|
  {
    if es == [] {
    } else {
      FailedHasCause(w, ButLast(es), id);
      StepRespects(After(w, ButLast(es)), Last(es), id);
    }
  }

  lemma {:induction false} MisjudgedActed(w: World, es: seq<Event>, id: EventId)
    requires EverMisjudged(w, es, id)
    ensures EverActed(w, es, id)
    decreases |es|
  {
    if EverMisjudged(w, ButLast(es), id) {
      MisjudgedActed(w, ButLast(es), id);
    } else {
      ActedIsEver(w, ButLast(es), Last(es).k);
    }
  }

  lemma {:induction false} CrossedIs(w: World, es: seq<Event>, id: EventId)
    ensures Crossed(w, es, id) <==> EverActed(w, es, id) && EverFailedOwn(w, es, id)
    decreases |es|
  {
    if es == [] {
    } else {
      CrossedIs(w, ButLast(es), id);
    }
  }

  /**
   * For any number of overlapping runs, for an attempt without evidence at the start: its event is
   * FAILED_FINAL although an effect was made under it if and only if a run that had acted recorded
   * its own failure - it never signalled and threw - or a run that had not acted recorded a failure
   * while another run of the attempt had acted or acted afterwards.
   */
  lemma {:induction false} FailedOverEffectExactly(w: World, es: seq<Event>, id: EventId)
    requires id !in w.events
    ensures StateIs(After(w, es).world, id, EventFailed) && EverActed(w, es, id)
       <==> EverMisjudged(w, es, id) || Crossed(w, es, id)
  {
    FailedHasCause(w, es, id);
    CrossedIs(w, es, id);
    if EverMisjudged(w, es, id) { MisjudgedActed(w, es, id); }
  }

  // ---------------------------------------------------------------- hosts that never run an attempt twice

  /** No run of this attempt starts once there is evidence of it. */
  predicate NeverReuses(w: World, es: seq<Event>, id: EventId) {
    es != [] ==>
      && NeverReuses(w, ButLast(es), id)
      && (Last(es).Start? && Concerns(After(w, ButLast(es)), Last(es), id) ==> id !in After(w, ButLast(es)).world.events)
  }

  /** At most one run of the attempt is ever admitted, and every act under it is its own. */
  ghost predicate Single(h: Host, id: EventId, acted: bool, failedOwn: bool) {
    && (id !in h.world.events ==> !acted && !failedOwn && forall k :: k in h.flights ==> h.flights[k].id != id)
    && (forall k, j :: FliesUnder(h, k, id) && FliesUnder(h, j, id) ==> k == j)
    && (forall k :: FliesUnder(h, k, id) ==> !failedOwn && (acted ==> h.flights[k].acted))
    && !(acted && failedOwn)
  }

  /** An event that neither adds runs to the attempt nor writes its evidence. */
  lemma UnconcernedSingle(h: Host, v: Host, id: EventId, acted: bool, failedOwn: bool)
    requires Single(h, id, acted, failedOwn)
    requires id in v.world.events <==> id in h.world.events
    requires forall k :: FliesUnder(v, k, id) ==> FliesUnder(h, k, id) && v.flights[k].acted == h.flights[k].acted
    ensures Single(v, id, acted, failedOwn)
  {
    forall k | k in v.flights && id !in v.world.events ensures v.flights[k].id != id {
      assert FliesUnder(v, k, id) ==> FliesUnder(h, k, id);
    }
  }

  /** An attempt without evidence has no run, and nothing was done under it. */
  lemma FirstSingle(h: Host, v: Host, k: nat, id: EventId, acted: bool, failedOwn: bool, fails: bool)
    requires Single(h, id, acted, failedOwn) && id !in h.world.events
    requires forall j :: FliesUnder(v, j, id) ==> FliesUnder(h, j, id) || (j == k && !fails)
    requires id in v.world.events || (!fails && forall j :: j in v.flights ==> v.flights[j].id != id)
    ensures Single(v, id, acted, failedOwn || fails)
  {
    forall j | FliesUnder(v, j, id) ensures j == k && !fails { assert !FliesUnder(h, j, id); }
  }

  lemma StartFlights(h: Host, e: Event, id: EventId)
    requires e.Start?
    ensures forall k :: FliesUnder(Step(h, e), k, id) ==>
      || (FliesUnder(h, k, id) && Step(h, e).flights[k].acted == h.flights[k].acted)
      || (k == e.k && Concerns(h, e, id) && id in Step(h, e).world.events && !StateIs(Step(h, e).world, id, EventFailed))
  {
    StartFiles(h.world, e.cfg, e.env);
  }

  lemma StartSingle(h: Host, e: Event, id: EventId, acted: bool, failedOwn: bool)
    requires e.Start? && Single(h, id, acted, failedOwn) && (Concerns(h, e, id) ==> id !in h.world.events)
    ensures Single(Step(h, e), id, acted, failedOwn || FailsOwn(h, e, id))
  {
    var v := Step(h, e);
    StepRespects(h, e, id);
    StartFlights(h, e, id);
    if Concerns(h, e, id) {
      if id in v.world.events {
        FirstSingle(h, v, e.k, id, acted, failedOwn, FailsOwn(h, e, id));
      } else {
        UnconcernedSingle(h, v, id, acted, failedOwn);
      }
    } else {
      UnconcernedSingle(h, v, id, acted, failedOwn);
    }
  }

  /** The only run of an attempt ends. */
  lemma LastSingle(h: Host, v: Host, k: nat, id: EventId, acted: bool, failedOwn: bool, fails: bool)
    requires Single(h, id, acted, failedOwn) && FliesUnder(h, k, id) && (fails ==> !h.flights[k].acted)
    requires v.flights == h.flights - {k} && id in v.world.events
    ensures Single(v, id, acted, failedOwn || fails)
  {
    forall j ensures !FliesUnder(v, j, id) {
      assert FliesUnder(v, j, id) ==> FliesUnder(h, j, id) && j != k;
    }
  }

  lemma FinishSingle(h: Host, e: Event, id: EventId, acted: bool, failedOwn: bool)
    requires e.Finish? && Single(h, id, acted, failedOwn)
    ensures Single(Step(h, e), id, acted, failedOwn || FailsOwn(h, e, id))
  {
    StepRespects(h, e, id);
    if FliesUnder(h, e.k, id) {
      LastSingle(h, Step(h, e), e.k, id, acted, failedOwn, FailsOwn(h, e, id));
    } else {
      UnconcernedSingle(h, Step(h, e), id, acted, failedOwn);
    }
  }

  /** A run of the attempt acts. */
  lemma ActSingle(h: Host, v: Host, k: nat, id: EventId, acted: bool, failedOwn: bool)
    requires Single(h, id, acted, failedOwn) && FliesUnder(h, k, id)
    requires v.world.events == h.world.events && v.flights == h.flights[k := h.flights[k].(acted := true)]
    ensures Single(v, id, true, failedOwn)
  {
    forall j | FliesUnder(v, j, id) ensures j == k { assert FliesUnder(h, j, id); }
  }

  lemma OtherSingle(h: Host, e: Event, id: EventId, acted: bool, failedOwn: bool)
    requires (e.Move? || e.Restart?) && Single(h, id, acted, failedOwn)
    ensures Single(Step(h, e), id, acted || ActsUnder(h, e, id), failedOwn || FailsOwn(h, e, id))
  {
    if ActsUnder(h, e, id) {
      ActSingle(h, Step(h, e), e.k, id, acted, failedOwn);
    } else {
      UnconcernedSingle(h, Step(h, e), id, acted, failedOwn);
    }
  }

  lemma {:induction false} NeverReusedIsSingle(w: World, es: seq<Event>, id: EventId)
    requires id !in w.events && NeverReuses(w, es, id)
    ensures Single(After(w, es), id, EverActed(w, es, id), EverFailedOwn(w, es, id))
    decreases |es|
  {
    if es == [] {
    } else {
      var h, e := After(w, ButLast(es)), Last(es);
      var acted, failedOwn := EverActed(w, ButLast(es), id), EverFailedOwn(w, ButLast(es), id);
      NeverReusedIsSingle(w, ButLast(es), id);
      match e
      case Start(_, _, _) => StartSingle(h, e, id, acted, failedOwn);
      case Finish(_, _) => FinishSingle(h, e, id, acted, failedOwn);
      case _ => OtherSingle(h, e, id, acted, failedOwn);
    }
  }

  /** Every effect comes after a signal of its run, as on the provider path. */
  predicate Announced(w: World, es: seq<Event>) {
    es != [] ==>
      && Announced(w, ButLast(es))
      && (var h, e := After(w, ButLast(es)), Last(es); e.Move? && e.move.Act? && e.k in h.flights ==> h.flights[e.k].signalled)
  }

  lemma SignalledStays(h: Host, e: Event, k: nat)
    requires k in h.flights && h.flights[k].acted ==> h.flights[k].signalled
    requires e.Move? && e.move.Act? && e.k in h.flights ==> h.flights[e.k].signalled
    ensures k in Step(h, e).flights && Step(h, e).flights[k].acted ==> Step(h, e).flights[k].signalled
  {}

  lemma {:induction false} AnnouncedSignals(w: World, es: seq<Event>, k: nat)
    requires Announced(w, es)
    ensures k in After(w, es).flights && After(w, es).flights[k].acted ==> After(w, es).flights[k].signalled
    decreases |es|
  {
    if es == [] {
    } else {
      AnnouncedSignals(w, ButLast(es), k);
      SignalledStays(After(w, ButLast(es)), Last(es), k);
    }
  }

  lemma {:induction false} AnnouncedNeverMisjudged(w: World, es: seq<Event>, id: EventId)
    requires Announced(w, es)
    ensures !EverMisjudged(w, es, id)
    decreases |es|
  {
    if es == [] {
    } else {
      var h, e := After(w, ButLast(es)), Last(es);
      AnnouncedNeverMisjudged(w, ButLast(es), id);
      if Misjudges(h, e, id) {
        AnnouncedSignals(w, ButLast(es), e.k);
        MisjudgesIs(h, e, id);
        assert false;
      }
    }
  }

  /**
   * However runs of different attempts overlap: for a host that never starts an attempt twice,
   * FAILED_FINAL is wrong only through an unannounced effect, and never when effects are announced.
   */
  lemma {:induction false} FreshAttemptsAreProof(w: World, es: seq<Event>, id: EventId)
    requires id !in w.events && NeverReuses(w, es, id)
    ensures StateIs(After(w, es).world, id, EventFailed) && EverActed(w, es, id) <==> EverMisjudged(w, es, id)
    ensures Announced(w, es) && StateIs(After(w, es).world, id, EventFailed) ==> !EverActed(w, es, id)
  {
    FailedOverEffectExactly(w, es, id);
    NeverReusedIsSingle(w, es, id);
    CrossedIs(w, es, id);
    if Announced(w, es) { AnnouncedNeverMisjudged(w, es, id); }
  }

  // ---------------------------------------------------------------- runs that do not overlap

  lemma AfterSnoc(w: World, es: seq<Event>, e: Event)
    ensures After(w, es + [e]) == Step(After(w, es), e)
  {
    assert ButLast(es + [e]) == es && Last(es + [e]) == e;
  }

  function Moves(k: nat, moves: seq<Boundary.Move>): seq<Event> {
    seq(|moves|, i requires 0 <= i < |moves| => Move(k, moves[i]))
  }

  /** A callback's run that nobody interrupts. */
  function Alone(cfg: Config, env: Env): seq<Event> {
    [Start(0, cfg, env)] + Moves(0, env.script.moves) + [Finish(0, env.script.end)]
  }

  /** One run in flight that has made these moves. */
  function Moved(x: World, f: Flight, moves: seq<Boundary.Move>): Host {
    Host(x.(acts := x.acts + Acts(moves)),
         map[0 := f.(signalled := f.signalled || Signal in moves, acted := f.acted || Act in moves)])
  }

  lemma MovesOnce(x: World, f: Flight, moves: seq<Boundary.Move>)
    requires moves != []
    ensures Step(Moved(x, f, ButLast(moves)), Move(0, Last(moves))) == Moved(x, f, moves)
  {
    assert moves == ButLast(moves) + [Last(moves)];
  }

  lemma {:induction false} MovesAlone(w: World, es: seq<Event>, x: World, f: Flight, moves: seq<Boundary.Move>)
    requires After(w, es) == Host(x, map[0 := f])
    ensures After(w, es + Moves(0, moves)) == Moved(x, f, moves)
    decreases |moves|
  {
    if moves == [] {
      assert es + Moves(0, moves) == es;
    } else {
      var front := es + Moves(0, ButLast(moves));
      MovesAlone(w, es, x, f, ButLast(moves));
      assert es + Moves(0, moves) == front + [Move(0, Last(moves))];
      AfterSnoc(w, front, Move(0, Last(moves)));
      MovesOnce(x, f, moves);
    }
  }

  function FlightOf(ready: Ready, cfg: Config, env: Env): Flight {
    Flight(cfg, env, ready.live, ready.id, ready.authorityId, false, false)
  }

  /** The end of a flight is the end of the effect step. */
  lemma CarryEnds(ready: Ready, cfg: Config, env: Env, room: bool, x: World, f: Flight)
    requires env.alive >= 3 && Perform(ready.world, cfg, env, room) == Performed(x, f.signalled, env.script.end)
    requires f.cfg == cfg && f.env == env && f.id == ready.id && f.authorityId == ready.authorityId
    ensures Closed(x, f, env.script.end).world == Carry(ready, cfg, env, room).world
  {}

  lemma CarryIsClosed(ready: Ready, cfg: Config, env: Env, room: bool)
    requires !UsesProvider(cfg) && cfg.hasCallback && env.alive >= 3
    ensures var h := Moved(ready.world, FlightOf(ready, cfg, env), env.script.moves);
      Closed(h.world, h.flights[0], env.script.end).world == Carry(ready, cfg, env, room).world
  {
    var h := Moved(ready.world, FlightOf(ready, cfg, env), env.script.moves);
    PerformedIs(ready.world, cfg, env, room);
    CarryEnds(ready, cfg, env, room, h.world, h.flights[0]);
  }

  lemma PerformedIs(w: World, cfg: Config, env: Env, room: bool)
    requires !UsesProvider(cfg) && cfg.hasCallback
    ensures Perform(w, cfg, env, room)
      == Performed(w.(acts := w.acts + Acts(env.script.moves)), Signal in env.script.moves, env.script.end)
  {}

  lemma StartAlone(w: World, cfg: Config, env: Env)
    requires Admit(w, cfg, env).Ok?
    ensures var ready := Admit(w, cfg, env).value;
      After(w, [Start(0, cfg, env)]) == Host(ready.world, map[0 := FlightOf(ready, cfg, env)])
  {
    AfterSnoc(w, [], Start(0, cfg, env));
    assert [] + [Start(0, cfg, env)] == [Start(0, cfg, env)];
  }

  lemma FinishAlone(w: World, es: seq<Event>, x: World, f: Flight, end: Ending)
    requires After(w, es) == Host(x, map[0 := f])
    ensures After(w, es + [Finish(0, end)]) == Host(Closed(x, f, end).world, map[])
  {
    AfterSnoc(w, es, Finish(0, end));
    assert map[0 := f] - {0} == map[];
  }

  /** Without overlap this is the run as one step. */
  lemma AloneIsRunOnce(w: World, cfg: Config, env: Env, room: bool)
    requires !UsesProvider(cfg) && cfg.hasCallback && Admit(w, cfg, env).Ok? && env.alive >= 3
    ensures After(w, Alone(cfg, env)) == Host(RunOnce(w, cfg, env, room).world, map[])
  {
    var ready := Admit(w, cfg, env).value;
    var f, moves := FlightOf(ready, cfg, env), env.script.moves;
    var h := Moved(ready.world, f, moves);
    StartAlone(w, cfg, env);
    MovesAlone(w, [Start(0, cfg, env)], ready.world, f, moves);
    FinishAlone(w, [Start(0, cfg, env)] + Moves(0, moves), h.world, h.flights[0], env.script.end);
    CarryIsClosed(ready, cfg, env, room);
  }

  // ---------------------------------------------------------------- the second cause is real

  /** A run that has signalled and acted, and is still awaiting its effect. */
  function Acting(cfg: Config, env: Env): seq<Event> { [Start(0, cfg, env)] + Moves(0, [Signal, Act]) }

  lemma ActingRun(w: World, cfg: Config, env: Env)
    requires Admit(w, cfg, env).Ok?
    ensures var es, ready := Acting(cfg, env), Admit(w, cfg, env).value;
      && After(w, es).world == ready.world.(acts := ready.world.acts + 1)
      && After(w, es).flights.Keys == {0} && EverActed(w, es, ready.id)
  {
    var ready := Admit(w, cfg, env).value;
    var moves := [Signal, Act];
    StartAlone(w, cfg, env);
    MovesAlone(w, [Start(0, cfg, env)], ready.world, FlightOf(ready, cfg, env), moves);
    assert ButLast(moves) == [Signal] && Last(moves) == Act && ButLast([Signal]) == [] && Last([Signal]) == Signal;
    assert Acts(moves) == 1 && moves[1] == Act;
    ActedIsEver(w, Acting(cfg, env), 0);
  }

  /**
   * While such a run is awaiting its effect, a second run of the same attempt gets to the fence and
   * is refused: the event is FAILED_FINAL over the first run's effect.
   */
  lemma RefusedRetryCrosses(w: World, cfg: Config, first: Env, second: Env)
    requires Admit(w, cfg, first).Ok?
    requires var ready := Admit(w, cfg, first).value;
      Gated(ready.world.auth, cfg, second).Ok? && EventFor(cfg, second, Gated(ready.world.auth, cfg, second).value) == ready.id
    requires AttemptRefOk(second.attemptRef) && second.prepare.Fine? && second.alive >= 4 && Bookkeeping(second)
    requires second.fence.Refuses?
    ensures var es, id := Acting(cfg, first) + [Start(1, cfg, second)], Admit(w, cfg, first).value.id;
      StateIs(After(w, es).world, id, EventFailed) && EverActed(w, es, id)
  {
    var es := Acting(cfg, first);
    AdmittedIsReady(w, cfg, first);
    ActingRun(w, cfg, first);
    var u := After(w, es).world;
    AfterSnoc(w, es, Start(1, cfg, second));
    assert ButLast(es + [Start(1, cfg, second)]) == es;
    E.RefusedAtFence(u, cfg, second, true);
    FenceStops(u, cfg, second);
  }

  lemma FenceStops(u: World, cfg: Config, env: Env)
    requires env.fence.Refuses?
    ensures Admit(u, cfg, env).Err?
  {}
}
