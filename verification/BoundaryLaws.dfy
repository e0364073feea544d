/** What the effect boundary guarantees: ordering, classification of failures, and use limits. */
module BoundaryLaws {
  import opened Basics
  import opened Canonical
  import opened CanonicalLaws
  import opened PrivacyEvents
  import opened Boundary
  import A = AuthorityState
  import L = AuthorityLaws
  import S = AuthorityStore
  import J = Journal
  import P = Providers
  import R = JournalRuns

  /** The run submitted to the provider or made a callback effect. */
  predicate Began(before: World, after: World) {
    after.cell.submits > before.cell.submits || after.cell.effects > before.cell.effects || after.acts > before.acts
  }

  predicate Untouched(before: World, after: World) { after.cell == before.cell && after.acts == before.acts }

  predicate StateIs(w: World, id: EventId, state: EventState) { id in w.events && w.events[id].state == state }

  // ---------------------------------------------------------------- before the effect

  /** What passing the first four gates means. */
  ghost predicate GatesHeld(auth: A.State, cfg: Config, env: Env, live: Gate) {
    && cfg.operation.context.Some? && cfg.operation.context == DeclaredContext(cfg)
    && Allowed(auth, cfg, env.times.preview) && Allowed(auth, cfg, env.times.recheck)
    && ContextMatches(cfg)
    && live.Cleared? && env.preflight == Permits(live.basis) && env.recheck == Permits(live.basis)
    && RedemptionMatches(cfg)
  }

  lemma GatedMeans(auth: A.State, cfg: Config, env: Env)
    ensures Gated(auth, cfg, env).Ok? ==> GatesHeld(auth, cfg, env, Gated(auth, cfg, env).value)
  {
    if TermsBound(cfg) { PrintInjective(VObj(cfg.operation.context.value), VObj(DeclaredContext(cfg).value)); }
  }

  /** The dry run approves exactly what gets past the gates of a run. */
  lemma CheckAgreesWithRun(auth: A.State, cfg: Config, env: Env)
    ensures Check(auth, cfg, env).DryAllow? <==> Gated(auth, cfg, env).Ok?
    ensures Check(auth, cfg, env).DryAllow? ==> Check(auth, cfg, env).termsDigest == LiveDigest(cfg)
  {}

  lemma ConcludeIs(w: World, id: EventId, to: EventState, env: Env, out: Outcome)
    ensures var r := Conclude(w, id, to, env, out);
      && r.world.auth == w.auth && r.world.file == w.file && Untouched(w, r.world)
      && (r.outcome == Dead || r.outcome == out)
      && (forall e :: e != id && e in w.events ==> e in r.world.events && r.world.events[e] == w.events[e])
      && (forall e :: e in r.world.events ==> e in w.events)
      && (StateIs(w, id, EventPrepared) ==> StateIs(r.world, id, EventPrepared) || StateIs(r.world, id, to))
      && (StateIs(w, id, EventPrepared) && Bookkeeping(env) && r.outcome != Dead ==> StateIs(r.world, id, to))
  {}

  /** The state of the world when the effect may begin. */
  ghost predicate EffectReady(w: World, cfg: Config, env: Env, r: Ready) {
    && GatesHeld(w.auth, cfg, env, r.live)
    && r.id == EventFor(cfg, env, r.live)
    && StateIs(r.world, r.id, EventPrepared)
    && r.world.events == PrepareIn(w.events, r.id)
    && r.world.file == Some(A.TakeSnapshot(r.world.auth)) && r.world.auth.lineage
    && A.Uses(r.world.auth, r.authorityId) == A.Uses(w.auth, r.authorityId) + 1
    && FencePasses(cfg, env, r.live)
    && Untouched(w, r.world)
  }

  lemma BurnedReady(w: World, cfg: Config, env: Env, live: Gate, id: EventId)
    requires live.Cleared? && Burned(w, cfg, env, live, id).Ok?
    ensures var r := Burned(w, cfg, env, live, id).value;
      && r.live == live && r.id == id && r.world.events == w.events && Untouched(w, r.world)
      && r.world.file == Some(A.TakeSnapshot(r.world.auth)) && r.world.auth.lineage
      && A.Uses(r.world.auth, r.authorityId) == A.Uses(w.auth, r.authorityId) + 1
      && FencePasses(cfg, env, live)
  {
    var q := RequestAt(cfg, env.times.consume);
    L.ConsumeChargesCited(w.auth, q, A.Evaluate(w.auth, q).value.authorityId);
  }

  /** An effect can only begin in a world where every earlier step is done and durable. */
  lemma AdmittedIsReady(w: World, cfg: Config, env: Env)
    requires Admit(w, cfg, env).Ok?
    ensures EffectReady(w, cfg, env, Admit(w, cfg, env).value)
  {
    GatedMeans(w.auth, cfg, env);
    var live := Gated(w.auth, cfg, env).value;
    var id := EventFor(cfg, env, live);
    BurnedReady(w.(events := PrepareIn(w.events, id)), cfg, env, live, id);
  }

  /** A run stopped before the effect touched neither the journal nor the outside world. */
  predicate Stopped(w: World, run: Run) {
    Untouched(w, run.world) && (run.outcome.Refused? || run.outcome.Dead?)
  }

  lemma BurnedStops(w: World, cfg: Config, env: Env, live: Gate, id: EventId)
    requires live.Cleared? && Burned(w, cfg, env, live, id).Err?
    ensures Stopped(w, Burned(w, cfg, env, live, id).error)
  {}

  lemma PrecommittedStops(w: World, cfg: Config, env: Env, live: Gate)
    requires live.Cleared? && Precommitted(w, cfg, env, live).Err?
    ensures Stopped(w, Precommitted(w, cfg, env, live).error)
  {
    var id := EventFor(cfg, env, live);
    var w' := w.(events := PrepareIn(w.events, id));
    if Burned(w', cfg, env, live, id).Err? { BurnedStops(w', cfg, env, live, id); }
  }

  lemma NotAdmittedStops(w: World, cfg: Config, env: Env)
    requires Admit(w, cfg, env).Err?
    ensures Stopped(w, Admit(w, cfg, env).error)
  {
    var gate := Gated(w.auth, cfg, env);
    if gate.Ok? { PrecommittedStops(w, cfg, env, gate.value); }
  }

  /**
   * Ordering, for every fault at every step: if anything was submitted or acted, then the event was
   * PREPARED, one more use of the cited authority was durably stored, the terms were the declared
   * ones and the fence had passed - all before the effect.
   */
  lemma EffectNeedsEveryStep(w: World, cfg: Config, env: Env, room: bool)
    ensures Began(w, RunOnce(w, cfg, env, room).world) ==>
      Admit(w, cfg, env).Ok? && EffectReady(w, cfg, env, Admit(w, cfg, env).value)
  {
    if Admit(w, cfg, env).Ok? { AdmittedIsReady(w, cfg, env); } else { NotAdmittedStops(w, cfg, env); }
  }

  // ---------------------------------------------------------------- the provider's signal

  /** Nothing is submitted before the start of the effect is signalled, and an effect needs a submission. */
  predicate Signalled(c: P.Cell, run: P.Run) {
    && run.cell.submits >= c.submits && run.cell.effects >= c.effects
    && (run.cell.effects > c.effects ==> run.cell.submits > c.submits)
    && (run.cell.submits > c.submits ==> run.started)
  }

  lemma SubmitSignals(c: P.Cell, call: P.Call, n: nat, started: bool)
    requires c.rec.Some?
    ensures Signalled(c, P.SubmitRun(c, call, n, started))
  {}

  lemma SettleSignals(c: P.Cell, call: P.Call, n: nat)
    requires c.rec.Some?
    ensures Signalled(c, P.SettleRun(c, call, n))
  {
    if n > 0 { SubmitSignals(c, call, n - 1, true); }
  }

  lemma ResumeSignals(c: P.Cell, call: P.Call, n: nat)
    requires c.rec.Some?
    ensures Signalled(c, P.ResumeRun(c, call, n))
  {
    SubmitSignals(c, call, n, false);
    SettleSignals(c, call, n);
    if n > 0 {
      SubmitSignals(P.Shift(c, J.AUTHORIZED, J.NOTHING, call.now), call, n - 1, false);
      SettleSignals(P.Shift(c, J.SUBMITTED_UNKNOWN, P.RESUMED, call.now), call, n - 1);
    }
  }

  lemma JournalSignals(c: P.Cell, call: P.Call, room: bool)
    ensures Signalled(c, P.Execute(c, call, room))
  {
    if c.rec.Some? {
      ResumeSignals(c, call, call.stop.steps);
    } else if call.stop.steps > 0 {
      ResumeSignals(c.(rec := Some(J.Prepared(P.NewFor(call), call.now))), call, call.stop.steps - 1);
    }
  }

  // ---------------------------------------------------------------- callbacks that signal before acting

  /** Every effect of the script comes after a signal. */
  predicate SignalsFirst(moves: seq<Move>) {
    forall i :: 0 <= i < |moves| && moves[i].Act? ==> exists k :: 0 <= k < i && moves[k].Signal?
  }

  lemma {:induction false} ActsMeansAct(moves: seq<Move>)
    ensures Acts(moves) > 0 <==> Act in moves
    decreases |moves|
  {
    if moves == [] {
    } else {
      ActsMeansAct(ButLast(moves));
      assert moves == ButLast(moves) + [Last(moves)];
    }
  }

  /** The only callbacks whose failure could be misjudged: they act, never signal, and throw. */
  predicate ActsUnannounced(cfg: Config, env: Env) {
    && !UsesProvider(cfg) && cfg.hasCallback
    && env.script.end.Throws? && Act in env.script.moves && Signal !in env.script.moves
  }

  lemma SignallingCallbackIsAnnounced(cfg: Config, env: Env)
    requires SignalsFirst(env.script.moves)
    ensures !ActsUnannounced(cfg, env)
  {
    if Act in env.script.moves {
      var i :| 0 <= i < |env.script.moves| && env.script.moves[i] == Act;
      assert env.script.moves[i].Act?;
    }
  }

  /** How an effect step went, as step 9 sees it. */
  lemma PerformIs(w: World, cfg: Config, env: Env, room: bool)
    ensures var done := Perform(w, cfg, env, room);
      && done.world.auth == w.auth && done.world.file == w.file && done.world.events == w.events
      && done.world.cell.submits >= w.cell.submits && done.world.cell.effects >= w.cell.effects && done.world.acts >= w.acts
      && (done.end.Throws? && !done.started ==> (Began(w, done.world) <==> ActsUnannounced(cfg, env)))
  {
    if UsesProvider(cfg) {
      JournalSignals(w.cell, CallFor(cfg, env), room);
    } else if cfg.hasCallback {
      ActsMeansAct(env.script.moves);
    }
  }

  // ---------------------------------------------------------------- what outcomes and evidence mean

  predicate Backed(w: World, receipt: Receipt) {
    && StateIs(w, receipt.event, EventSucceeded)
    && w.events[receipt.event].evidenceRef == Some(EvidenceRef(receipt.receiptId))
    && w.events[receipt.event].finalizedAt == Some(receipt.at)
  }

  /** Final evidence can be written. */
  predicate Bookkeeping(env: Env) { env.finalize.Fine? && env.times.finalize >= 0 }

  /** How the world after the effect step relates to the one before it, by outcome. */
  predicate Classified(ready: Ready, cfg: Config, env: Env, run: Run) {
    var id := ready.id;
    && run.world.auth == ready.world.auth && run.world.file == ready.world.file
    && (run.outcome.Receipted? ==> run.outcome.receipt.event == id && Backed(run.world, run.outcome.receipt))
    && (run.outcome.Refused? ==> (Began(ready.world, run.world) <==> ActsUnannounced(cfg, env)))
    && (StateIs(run.world, id, EventFailed) ==> run.outcome.Refused?)
    && (run.outcome.OutcomeUnknown? ==>
          || StateIs(run.world, id, EventPrepared) || StateIs(run.world, id, EventUnknown)
          || (env.finalize.FailsAfter? && StateIs(run.world, id, EventSucceeded)))
    && (run.outcome.Refused? && Bookkeeping(env) ==> StateIs(run.world, id, EventFailed))
    && (forall e :: e != id && e in ready.world.events ==>
          e in run.world.events && run.world.events[e] == ready.world.events[e])
  }

  lemma RecordedIs(w: World, receipt: Receipt, env: Env)
    requires StateIs(w, receipt.event, EventPrepared)
    ensures var run := RecordSuccess(w, receipt, env);
      && run.world.auth == w.auth && run.world.file == w.file && Untouched(w, run.world)
      && (run.outcome == Dead || run.outcome == OutcomeUnknown || run.outcome == Receipted(receipt))
      && (run.outcome.Receipted? ==> Backed(run.world, receipt))
      && (run.outcome.OutcomeUnknown? ==>
            || StateIs(run.world, receipt.event, EventPrepared)
            || (env.finalize.FailsAfter? && StateIs(run.world, receipt.event, EventSucceeded)))
      && !StateIs(run.world, receipt.event, EventFailed)
      && (forall e :: e != receipt.event && e in w.events ==> e in run.world.events && run.world.events[e] == w.events[e])
  {}

  /** The effect step leaves authority, file and events alone. */
  predicate OnlyEffect(w: World, v: World) { v.auth == w.auth && v.file == w.file && v.events == w.events }

  lemma UnknownClassifies(ready: Ready, cfg: Config, env: Env, v: World)
    requires StateIs(ready.world, ready.id, EventPrepared) && OnlyEffect(ready.world, v)
    ensures Classified(ready, cfg, env, Conclude(v, ready.id, EventUnknown, env, OutcomeUnknown))
  {
    ConcludeIs(v, ready.id, EventUnknown, env, OutcomeUnknown);
  }

  lemma FailedClassifies(ready: Ready, cfg: Config, env: Env, v: World)
    requires StateIs(ready.world, ready.id, EventPrepared) && OnlyEffect(ready.world, v)
    requires Began(ready.world, v) <==> ActsUnannounced(cfg, env)
    ensures Classified(ready, cfg, env, Conclude(v, ready.id, EventFailed, env, Refused(Effect)))
  {
    ConcludeIs(v, ready.id, EventFailed, env, Refused(Effect));
  }

  lemma RecordedClassifies(ready: Ready, cfg: Config, env: Env, v: World, receipt: Receipt)
    requires StateIs(ready.world, ready.id, EventPrepared) && OnlyEffect(ready.world, v) && receipt.event == ready.id
    ensures Classified(ready, cfg, env, RecordSuccess(v, receipt, env))
  {
    RecordedIs(v, receipt, env);
  }

  lemma CarryClassifies(ready: Ready, cfg: Config, env: Env, room: bool)
    requires StateIs(ready.world, ready.id, EventPrepared)
    ensures Classified(ready, cfg, env, Carry(ready, cfg, env, room))
  {
    if env.alive >= 3 {
      PerformIs(ready.world, cfg, env, room);
      var done := Perform(ready.world, cfg, env, room);
      match done.end
      case Dies =>
      case Throws =>
        if done.started {
          UnknownClassifies(ready, cfg, env, done.world);
        } else {
          FailedClassifies(ready, cfg, env, done.world);
        }
      case Returns(raw) =>
        var receipt := Project(raw, cfg, env, ready.id, ready.authorityId);
        if receipt.Some? {
          RecordedClassifies(ready, cfg, env, done.world, receipt.value);
        } else {
          UnknownClassifies(ready, cfg, env, done.world);
        }
    }
  }

  /** A returned receipt is backed by a SUCCEEDED event that carries the receipt's reference. */
  lemma ReceiptMeansSucceeded(w: World, cfg: Config, env: Env, room: bool)
    ensures var run := RunOnce(w, cfg, env, room);
      run.outcome.Receipted? ==> Backed(run.world, run.outcome.receipt)
  {
    if Admit(w, cfg, env).Ok? {
      AdmittedIsReady(w, cfg, env);
      CarryClassifies(Admit(w, cfg, env).value, cfg, env, room);
    } else {
      NotAdmittedStops(w, cfg, env);
    }
  }

  /**
   * A failure reported as preceding the effect did precede it - except exactly when a callback
   * acted without ever signalling and then threw at the effect step.
   */
  lemma RefusedMeansNoEffect(w: World, cfg: Config, env: Env, room: bool)
    ensures RunOnce(w, cfg, env, room).outcome.Refused? ==>
      (Began(w, RunOnce(w, cfg, env, room).world) <==> Admit(w, cfg, env).Ok? && ActsUnannounced(cfg, env))
  {
    if Admit(w, cfg, env).Ok? {
      AdmittedIsReady(w, cfg, env);
      CarryClassifies(Admit(w, cfg, env).value, cfg, env, room);
    } else {
      NotAdmittedStops(w, cfg, env);
    }
  }

  /**
   * With a fresh attempt, a FAILED_FINAL event means that this run began no effect, whatever failed
   * and wherever - on the provider path always, on the callback path exactly unless the callback
   * acted unannounced.
   */
  lemma FailedFinalMeansNoEffect(w: World, cfg: Config, env: Env, room: bool, id: EventId)
    requires id !in w.events
    ensures StateIs(RunOnce(w, cfg, env, room).world, id, EventFailed) ==>
      (Began(w, RunOnce(w, cfg, env, room).world) <==> Admit(w, cfg, env).Ok? && ActsUnannounced(cfg, env))
  {
    if Admit(w, cfg, env).Ok? {
      AdmittedIsReady(w, cfg, env);
      CarryClassifies(Admit(w, cfg, env).value, cfg, env, room);
      CarryAddsNoEvent(Admit(w, cfg, env).value, cfg, env, room);
    } else {
      NotAdmittedStops(w, cfg, env);
    }
  }

  lemma CarryAddsNoEvent(ready: Ready, cfg: Config, env: Env, room: bool)
    requires ready.id in ready.world.events
    ensures forall e :: e in Carry(ready, cfg, env, room).world.events ==> e in ready.world.events
  {
    PerformIs(ready.world, cfg, env, room);
  }

  /** Steps 6 and 7 stop by dying or by a refusal, with the events as they were. */
  lemma BurnedConcludes(w: World, cfg: Config, env: Env, live: Gate, id: EventId) returns (x: World, out: Outcome)
    requires live.Cleared? && Burned(w, cfg, env, live, id).Err?
    ensures x.events == w.events && out.Refused?
    ensures var run := Burned(w, cfg, env, live, id).error;
      run == Run(x, Dead) || run == Conclude(x, id, EventFailed, env, out)
  {
    var q := RequestAt(cfg, env.times.consume);
    var d := A.Evaluate(w.auth, q);
    if d.None? || !d.value.Allow? { return w, Refused(Consume); }
    var burned := A.AfterEvaluate(w.auth, q, true);
    var next := S.Saved(w.file, burned);
    if env.alive < 2 || next.None? { return w.(auth := burned), Refused(Persist); }
    x := w.(auth := next.value, file := if env.write.Lost? then w.file else Some(A.TakeSnapshot(next.value)));
    out := Refused(if env.write.Written? then Fence else Persist);
  }

  lemma BurnedRecords(w: World, cfg: Config, env: Env, live: Gate, id: EventId)
    requires live.Cleared? && StateIs(w, id, EventPrepared) && Bookkeeping(env) && Burned(w, cfg, env, live, id).Err?
    ensures FailsIfRefused(Burned(w, cfg, env, live, id).error, id)
  {
    var x, out := BurnedConcludes(w, cfg, env, live, id);
    ConcludeFails(x, id, env, out);
  }

  /** A refusal has been recorded. */
  predicate FailsIfRefused(run: Run, id: EventId) { run.outcome.Refused? ==> StateIs(run.world, id, EventFailed) }

  lemma ConcludeFails(w: World, id: EventId, env: Env, out: Outcome)
    requires StateIs(w, id, EventPrepared) && Bookkeeping(env)
    ensures FailsIfRefused(Conclude(w, id, EventFailed, env, out), id)
  {}

  predicate AfterPrecommit(out: Outcome) { out.Refused? && out.stage in {Consume, Persist, Fence, Effect} }

  /** The event of this run is FAILED_FINAL. */
  predicate Recorded(w: World, cfg: Config, env: Env, after: World) {
    Gated(w.auth, cfg, env).Ok? && StateIs(after, EventFor(cfg, env, Gated(w.auth, cfg, env).value), EventFailed)
  }

  lemma NotAdmittedRecords(w: World, cfg: Config, env: Env)
    requires Bookkeeping(env) && Admit(w, cfg, env).Err? && AfterPrecommit(Admit(w, cfg, env).error.outcome)
    ensures Recorded(w, cfg, env, Admit(w, cfg, env).error.world)
  {
    var gate := Gated(w.auth, cfg, env);
    var id := EventFor(cfg, env, gate.value);
    BurnedRecords(w.(events := PrepareIn(w.events, id)), cfg, env, gate.value, id);
  }

  /** Once the event is prepared, every refusal is recorded as FAILED_FINAL unless bookkeeping itself fails. */
  lemma RefusalIsRecorded(w: World, cfg: Config, env: Env, room: bool)
    requires Bookkeeping(env)
    ensures var run := RunOnce(w, cfg, env, room);
      AfterPrecommit(run.outcome) ==> Recorded(w, cfg, env, run.world)
  {
    if Admit(w, cfg, env).Ok? {
      AdmittedIsReady(w, cfg, env);
      CarryClassifies(Admit(w, cfg, env).value, cfg, env, room);
      AdmittedGate(w, cfg, env);
    } else if AfterPrecommit(Admit(w, cfg, env).error.outcome) {
      NotAdmittedRecords(w, cfg, env);
    }
  }

  lemma AdmittedGate(w: World, cfg: Config, env: Env)
    requires Admit(w, cfg, env).Ok?
    ensures Gated(w.auth, cfg, env).Ok? && Admit(w, cfg, env).value.id == EventFor(cfg, env, Gated(w.auth, cfg, env).value)
  {
    var live := Gated(w.auth, cfg, env).value;
    var id := EventFor(cfg, env, live);
    BurnedReady(w.(events := PrepareIn(w.events, id)), cfg, env, live, id);
  }

  /** The receipt's fields are the durable record's, field by field. */
  predicate FromRecord(receipt: Receipt, c: P.Cell) {
    && c.rec.Some? && c.rec.value.state == J.SUCCEEDED
    && c.rec.value.receiptId == Some(receipt.receiptId) && c.rec.value.externalRef == receipt.transaction
    && c.rec.value.receiptAt == Some(receipt.at)
    && c.rec.value.terms.termsDigest == receipt.termsDigest
    && c.rec.value.terms.resource == receipt.resource && c.rec.value.terms.purpose == receipt.purpose
  }

  /** On the provider path a returned receipt is the journal's, under the authority that was charged. */
  lemma ReceiptIsTheJournals(w: World, cfg: Config, env: Env, room: bool)
    requires UsesProvider(cfg)
    ensures var run := RunOnce(w, cfg, env, room);
      run.outcome.Receipted? ==>
        && FromRecord(run.outcome.receipt, run.world.cell)
        && Admit(w, cfg, env).Ok? && run.outcome.receipt.authorityId == Admit(w, cfg, env).value.authorityId
  {
    if Admit(w, cfg, env).Ok? {
      AdmittedIsReady(w, cfg, env);
      CarriedReceipt(Admit(w, cfg, env).value, cfg, env, room);
    } else {
      NotAdmittedStops(w, cfg, env);
    }
  }

  lemma CarriedReceipt(ready: Ready, cfg: Config, env: Env, room: bool)
    requires UsesProvider(cfg) && StateIs(ready.world, ready.id, EventPrepared)
    ensures var run := Carry(ready, cfg, env, room);
      run.outcome.Receipted? ==>
        FromRecord(run.outcome.receipt, run.world.cell) && run.outcome.receipt.authorityId == ready.authorityId
  {
    CarryKeepsCell(ready, cfg, env, room);
    R.ReturnedIsDurable(ready.world.cell, CallFor(cfg, env), room);
  }

  /** Existing evidence that is not PREPARED stops the attempt and is left as it is. */
  lemma SettledEvidenceStopsTheRun(w: World, cfg: Config, env: Env, room: bool)
    requires Gated(w.auth, cfg, env).Ok?
    requires var id := EventFor(cfg, env, Gated(w.auth, cfg, env).value);
      id in w.events && w.events[id].state != EventPrepared
    ensures var run := RunOnce(w, cfg, env, room);
      run.world == w && (run.outcome == Refused(Conflict) || run.outcome == Refused(Precommit) || run.outcome == Dead)
  {}

  // ---------------------------------------------------------------- the provider path executes the authorized terms

  /** What the provider is asked to do is the authorized operation, term by term. */
  lemma ProviderRunsAuthorizedTerms(w: World, cfg: Config, env: Env, room: bool)
    requires UsesProvider(cfg) && ConfigOk(cfg)
    ensures RunOnce(w, cfg, env, room).world.cell.submits > w.cell.submits ==> Authorized(cfg, CallFor(cfg, env))
  {
    if RunOnce(w, cfg, env, room).world.cell.submits > w.cell.submits { SubmittedIsAuthorized(w, cfg, env, room); }
  }

  predicate Authorized(cfg: Config, call: P.Call) {
    var t := call.req.terms;
    && P.Admitted(call)
    && Some(t.context) == cfg.operation.context && Some(t.context) == DeclaredContext(cfg)
    && cfg.redemption.Some? && t.context == cfg.redemption.value.operation.args
    && t.action == cfg.operation.action.name && t.resource == cfg.operation.resource.id
    && Some(t.purpose) == cfg.operation.purpose
    && t.termsDigest == LiveDigest(cfg)
  }

  lemma SubmittedIsAuthorized(w: World, cfg: Config, env: Env, room: bool)
    requires UsesProvider(cfg) && ConfigOk(cfg) && RunOnce(w, cfg, env, room).world.cell.submits > w.cell.submits
    ensures Authorized(cfg, CallFor(cfg, env))
  {
    EffectNeedsEveryStep(w, cfg, env, room);
    PrintInjective(VObj(cfg.redemption.value.operation.args), VObj(DeclaredContext(cfg).value));
    var ready := Admit(w, cfg, env).value;
    PerformIs(ready.world, cfg, env, room);
    CarryKeepsCell(ready, cfg, env, room);
  }

  lemma CarryKeepsCell(ready: Ready, cfg: Config, env: Env, room: bool)
    ensures var run := Carry(ready, cfg, env, room);
      if env.alive < 3 then run.world == ready.world
      else Untouched(Perform(ready.world, cfg, env, room).world, run.world)
  {}

  /** Both directions of the exception: such a callback leaves FAILED_FINAL evidence of a real effect. */
  lemma UnannouncedActIsMisjudged(w: World, cfg: Config, env: Env, room: bool)
    requires Admit(w, cfg, env).Ok? && ActsUnannounced(cfg, env)
    requires env.alive >= 4 && env.finalize.Fine? && env.times.finalize >= 0
    ensures var run := RunOnce(w, cfg, env, room);
      && run.outcome == Refused(Effect) && Began(w, run.world)
      && StateIs(run.world, Admit(w, cfg, env).value.id, EventFailed)
  {
    AdmittedIsReady(w, cfg, env);
    CarryMisjudges(Admit(w, cfg, env).value, cfg, env, room);
  }

  lemma CarryMisjudges(ready: Ready, cfg: Config, env: Env, room: bool)
    requires StateIs(ready.world, ready.id, EventPrepared) && ActsUnannounced(cfg, env)
    requires env.alive >= 4 && env.finalize.Fine? && env.times.finalize >= 0
    ensures var run := Carry(ready, cfg, env, room);
      run.outcome == Refused(Effect) && Began(ready.world, run.world) && StateIs(run.world, ready.id, EventFailed)
  {
    ActsMeansAct(env.script.moves);
  }

  /** On the provider path, and with a callback that signals before acting, FAILED_FINAL is proof. */
  lemma FailedFinalIsProof(w: World, cfg: Config, env: Env, room: bool, id: EventId)
    requires UsesProvider(cfg) || SignalsFirst(env.script.moves)
    requires id !in w.events
    ensures StateIs(RunOnce(w, cfg, env, room).world, id, EventFailed) ==> !Began(w, RunOnce(w, cfg, env, room).world)
  {
    FailedFinalMeansNoEffect(w, cfg, env, room, id);
    if !UsesProvider(cfg) { SignallingCallbackIsAnnounced(cfg, env); }
  }
}
