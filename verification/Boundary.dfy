/**
 * The host effect boundary (src/hostkit/boundary.ts, with the privacy runtime's gate and event
 * calls): nine steps from terms binding to evidence. This module says what one run does to the
 * world; BoundaryRun carries it out on objects, BoundaryLaws proves what it guarantees.
 */
module Boundary {
  import opened Basics
  import opened Canonical
  import opened PrivacyEvents
  import T = AuthorityTerms
  import A = AuthorityState
  import S = AuthorityStore
  import J = Journal
  import P = Providers

  // ---------------------------------------------------------------- configuration

  /** `provider` is the provider's scope; `hasCallback` says that a host effect path is supplied. */
  datatype Config = Config(
    operation: T.Operation, ingress: T.Ingress, processing: Processing, authorizedContext: Option<T.Bag>,
    redemption: Option<P.Redemption>, provider: Option<Text>, hasCallback: bool)

  function DeclaredContext(cfg: Config): Option<T.Bag> {
    if cfg.authorizedContext.Some? then cfg.authorizedContext
    else if cfg.redemption.Some? then Some(cfg.redemption.value.operation.args)
    else None
  }

  /** What createEffectBoundary accepts. */
  predicate ConfigOk(cfg: Config) {
    && (cfg.provider.Some? ==> cfg.redemption.Some?)
    && (cfg.provider.Some? || cfg.hasCallback || cfg.redemption.Some?)
    && DeclaredContext(cfg).Some?
    && (cfg.redemption.Some? ==>
          T.CanonicalEqual(VObj(cfg.redemption.value.operation.args), VObj(DeclaredContext(cfg).value)))
  }

  // ---------------------------------------------------------------- what the outside contributes

  datatype PrivacyAnswer = Permits(basis: Basis) | Refuses | Unreadable

  datatype Move = Signal | Act

  /** What a callback may return; absent fields are filled in by the boundary. */
  datatype Raw = Raw(
    receiptId: Option<Text>, transaction: Option<Text>, resource: Option<Text>, purpose: Option<Text>,
    termsDigest: Option<Text>, at: Option<int>)

  datatype Ending = Returns(raw: Raw) | Throws | Dies

  /** A host callback: signals and external effects in the order it makes them, then how it ends. */
  datatype Script = Script(moves: seq<Move>, end: Ending)

  datatype Times = Times(preview: int, preflight: int, recheck: int, consume: int, effect: int, finalize: int)

  /**
   * One run's surroundings: clock readings, the three privacy answers, the faults of each durable
   * step, the effect's behaviour, and how many of the four durable stages - event, authority,
   * effect, final evidence - the process lives to begin.
   */
  datatype Env = Env(
    times: Times, attemptRef: Text, hostId: P.Nonce,
    preflight: PrivacyAnswer, recheck: PrivacyAnswer, fence: PrivacyAnswer,
    prepare: Fault, write: S.Write, finalize: Fault,
    script: Script, submit: P.SubmitAnswer, stop: P.Stop, newId: Text, nonce: P.Nonce,
    alive: nat)

  /** The durable and in-memory state a run touches. `acts` counts effects made by callbacks. */
  datatype World = World(auth: A.State, file: Option<A.Snapshot>, events: Events, cell: P.Cell, acts: nat)

  datatype Stage = TermsBinding | Preview | Preflight | Recheck | RedemptionTerms | Precommit | Conflict
                 | Consume | Persist | Fence | Effect

  datatype Receipt = Receipt(
    receiptId: Text, action: Text, resource: Text, purpose: Text, termsDigest: Text, at: int,
    authorityId: Text, capabilityId: Option<Text>, transaction: Option<Text>, event: EventId)

  /** Refused is a failure reported as proven to precede the effect. */
  datatype Outcome = Receipted(receipt: Receipt) | Refused(stage: Stage) | OutcomeUnknown | Dead

  datatype Run = Run(world: World, outcome: Outcome)

  // ---------------------------------------------------------------- steps 1 to 4: the gates

  function RequestAt(cfg: Config, now: int): A.Request { A.Request(cfg.operation, cfg.ingress, None, now) }

  predicate TermsBound(cfg: Config) {
    && cfg.operation.context.Some? && DeclaredContext(cfg).Some?
    && T.CanonicalEqual(VObj(cfg.operation.context.value), VObj(DeclaredContext(cfg).value))
  }

  predicate Allowed(auth: A.State, cfg: Config, now: int) {
    var d := A.Evaluate(auth, RequestAt(cfg, now));
    d.Some? && d.value.Allow?
  }

  predicate ContextMatches(cfg: Config) {
    var p := cfg.processing;
    && p.authorityPrincipal == cfg.ingress.principal && p.actor == cfg.ingress.id
    && p.action == cfg.operation.action.name
    && p.resourceKind == cfg.operation.resource.kind && p.resourceId == cfg.operation.resource.id
    && p.purpose == OrElse(cfg.operation.purpose, [])
  }

  function LiveDigest(cfg: Config): Text { T.DigestFor(T.BindIngress(cfg.operation, cfg.ingress), None) }

  datatype Gate = Cleared(basis: Basis, citations: seq<Text>) | NoAuthority | NoPrivacy | GateThrows

  function PreflightGate(auth: A.State, cfg: Config, now: int, answer: PrivacyAnswer): Gate {
    var d := A.Evaluate(auth, RequestAt(cfg, now));
    if d.None? then GateThrows
    else if !d.value.Allow? then NoAuthority
    else if !ContextMatches(cfg) then NoPrivacy
    else
      match answer
      case Permits(basis) => Cleared(basis, [d.value.authorityId])
      case Refuses => NoPrivacy
      case Unreadable => GateThrows
  }

  /** The redemption was minted for this very operation. */
  predicate RedemptionMatches(cfg: Config) {
    cfg.redemption.Some? ==>
      var op := cfg.redemption.value.operation;
      && op.termsDigest == LiveDigest(cfg)
      && op.cmd == cfg.operation.action.name
      && op.resource == Some(cfg.operation.resource.id)
      && op.purpose == cfg.operation.purpose
  }

  /** Steps 1 to 4: the live gate result, or the stage that refuses. */
  function Gated(auth: A.State, cfg: Config, env: Env): Result<Gate, Stage>
    ensures Gated(auth, cfg, env).Ok? ==> Gated(auth, cfg, env).value.Cleared?
  {
    if !TermsBound(cfg) then Err(TermsBinding)
    else if !Allowed(auth, cfg, env.times.preview) then Err(Preview)
    else
      var first := PreflightGate(auth, cfg, env.times.preflight, env.preflight);
      if !first.Cleared? then Err(Preflight)
      else
        var live := PreflightGate(auth, cfg, env.times.recheck, env.recheck);
        if !live.Cleared? || live.basis != first.basis then Err(Recheck)
        else if !RedemptionMatches(cfg) then Err(RedemptionTerms)
        else Ok(live)
  }

  // ---------------------------------------------------------------- step 9: evidence

  /** Evidence of a failure: a bookkeeping fault is swallowed, a dead process writes nothing. */
  function Conclude(w: World, id: EventId, to: EventState, env: Env, out: Outcome): Run {
    if env.alive < 4 then Run(w, Dead)
    else
      var next := TransitionIn(w.events, id, to, env.times.finalize, None);
      Run(if next.None? || env.finalize.FailsBefore? then w else w.(events := next.value), out)
  }

  function EvidenceRef(receiptId: Text): Text { Lit("execution-receipt:") + receiptId }

  function RecordSuccess(w: World, receipt: Receipt, env: Env): Run {
    if env.alive < 4 then Run(w, Dead)
    else
      var next := TransitionIn(w.events, receipt.event, EventSucceeded, receipt.at, Some(EvidenceRef(receipt.receiptId)));
      var w' := if next.None? || env.finalize.FailsBefore? then w else w.(events := next.value);
      Run(w', if next.Some? && env.finalize.Fine? then Receipted(receipt) else OutcomeUnknown)
  }

  // ---------------------------------------------------------------- steps 5 to 7: up to the effect

  /** The world in which the effect may begin. */
  datatype Ready = Ready(world: World, live: Gate, id: EventId, authorityId: Text)

  function EventFor(cfg: Config, env: Env, live: Gate): EventId
    requires live.Cleared?
  {
    EventId(env.attemptRef, live.basis, cfg.processing, LiveDigest(cfg), live.citations)
  }

  predicate FencePasses(cfg: Config, env: Env, live: Gate)
    requires live.Cleared?
  {
    ContextMatches(cfg) && env.fence == Permits(live.basis)
  }

  function Fenced(w: World, cfg: Config, env: Env, live: Gate, id: EventId, authorityId: Text): Result<Ready, Run>
    requires live.Cleared?
  {
    if !FencePasses(cfg, env, live) then Err(Conclude(w, id, EventFailed, env, Refused(Fence)))
    else Ok(Ready(w, live, id, authorityId))
  }

  /** Burn one use and make it durable before anything else happens. */
  function Burned(w: World, cfg: Config, env: Env, live: Gate, id: EventId): Result<Ready, Run>
    requires live.Cleared?
  {
    var q := RequestAt(cfg, env.times.consume);
    var d := A.Evaluate(w.auth, q);
    if d.None? || !d.value.Allow? then Err(Conclude(w, id, EventFailed, env, Refused(Consume)))
    else
      var burned := A.AfterEvaluate(w.auth, q, true);
      var next := S.Saved(w.file, burned);
      if env.alive < 2 then Err(Run(w.(auth := burned), Dead))
      else if next.None? then Err(Conclude(w.(auth := burned), id, EventFailed, env, Refused(Persist)))
      else
        var stored := w.(auth := next.value, file := if env.write.Lost? then w.file else Some(A.TakeSnapshot(next.value)));
        if !env.write.Written? then Err(Conclude(stored, id, EventFailed, env, Refused(Persist)))
        else Fenced(stored, cfg, env, live, id, d.value.authorityId)
  }

  function Precommitted(w: World, cfg: Config, env: Env, live: Gate): Result<Ready, Run>
    requires live.Cleared?
  {
    var id := EventFor(cfg, env, live);
    if !AttemptRefOk(env.attemptRef) then Err(Run(w, Refused(Precommit)))
    else if env.alive < 1 then Err(Run(w, Dead))
    else if env.prepare.FailsBefore? then Err(Run(w, Refused(Precommit)))
    else
      var w' := w.(events := PrepareIn(w.events, id));
      if env.prepare.FailsAfter? then Err(Run(w', Refused(Precommit)))
      else if w'.events[id].state != EventPrepared then Err(Run(w', Refused(Conflict)))
      else Burned(w', cfg, env, live, id)
  }

  /** Steps 1 to 7. */
  function Admit(w: World, cfg: Config, env: Env): Result<Ready, Run> {
    var gate := Gated(w.auth, cfg, env);
    if gate.Err? then Err(Run(w, Refused(gate.error))) else Precommitted(w, cfg, env, gate.value)
  }

  // ---------------------------------------------------------------- step 8: the effect

  /** The journaled call for this configuration: no query, the default attempt budget. */
  function CallFor(cfg: Config, env: Env): P.Call
    requires cfg.redemption.Some? && cfg.provider.Some?
  {
    var r := cfg.redemption.value;
    var op := r.operation;
    P.Call(
      P.Request(r.chainId, J.Terms(op.termsDigest, op.cmd, op.recipient, OrElse(op.resource, []), OrElse(op.purpose, []),
                                   OrElse(cfg.operation.context, map[]))),
      r, cfg.provider.value, None, env.times.effect, env.times.effect, env.newId, env.nonce,
      P.NoQuery, env.submit, env.stop)
  }

  predicate UsesProvider(cfg: Config) { cfg.provider.Some? && cfg.redemption.Some? }

  function Acts(moves: seq<Move>): nat {
    if moves == [] then 0 else Acts(ButLast(moves)) + if Last(moves).Act? then 1 else 0
  }

  datatype Performed = Performed(world: World, started: bool, end: Ending)

  function FromProvider(out: P.Outcome): Ending {
    match out
    case Returned(r) =>
      Returns(Raw(Some(r.receiptId), Some(r.transaction), Some(r.resource), Some(r.purpose), Some(r.termsDigest), Some(r.at)))
    case Crashed => Dies
    case _ => Throws
  }

  function Perform(w: World, cfg: Config, env: Env, room: bool): Performed {
    if UsesProvider(cfg) then
      var op := cfg.redemption.value.operation;
      if op.resource.None? || op.purpose.None? then Performed(w, false, Throws)
      else
        var run := P.Execute(w.cell, CallFor(cfg, env), room);
        Performed(w.(cell := run.cell), run.started, FromProvider(run.outcome))
    else if !cfg.hasCallback then Performed(w, false, Throws)
    else
      var script := env.script;
      Performed(w.(acts := w.acts + Acts(script.moves)), Signal in script.moves, script.end)
  }

  predicate RefBounded(t: Text) { 1 <= |t| <= 256 }

  /** None is a malformed id or transaction reference. */
  function Project(raw: Raw, cfg: Config, env: Env, id: EventId, authorityId: Text): Option<Receipt> {
    var receiptId := OrElse(raw.receiptId, Lit("host-") + env.hostId);
    if !RefBounded(receiptId) || (raw.transaction.Some? && !RefBounded(raw.transaction.value)) then None
    else
      Some(Receipt(
        receiptId, cfg.operation.action.name, OrElse(raw.resource, cfg.operation.resource.id),
        OrElse(raw.purpose, OrElse(cfg.operation.purpose, [])), OrElse(raw.termsDigest, LiveDigest(cfg)),
        OrElse(raw.at, env.times.finalize), authorityId,
        if cfg.redemption.Some? then Some(cfg.redemption.value.chainId) else None,
        raw.transaction, id))
  }

  /** Steps 8 and 9. */
  function Carry(ready: Ready, cfg: Config, env: Env, room: bool): Run {
    if env.alive < 3 then Run(ready.world, Dead)
    else
      var done := Perform(ready.world, cfg, env, room);
      match done.end
      case Dies => Run(done.world, Dead)
      case Throws =>
        if done.started then Conclude(done.world, ready.id, EventUnknown, env, OutcomeUnknown)
        else Conclude(done.world, ready.id, EventFailed, env, Refused(Effect))
      case Returns(raw) =>
        var receipt := Project(raw, cfg, env, ready.id, ready.authorityId);
        if receipt.None? then Conclude(done.world, ready.id, EventUnknown, env, OutcomeUnknown)
        else RecordSuccess(done.world, receipt.value, env)
  }

  /** One run of the boundary; `room` says that the journal can take one more record. */
  function RunOnce(w: World, cfg: Config, env: Env, room: bool): Run {
    var admitted := Admit(w, cfg, env);
    if admitted.Err? then admitted.error else Carry(admitted.value, cfg, env, room)
  }

  // ---------------------------------------------------------------- the dry run

  datatype Dry = DryAllow(termsDigest: Text) | DryDeny(reason: Stage) | DryThrows

  /** Stages stand for the public reasons: TermsBinding, Preview (authority), Preflight (privacy). */
  function Check(auth: A.State, cfg: Config, env: Env): Dry {
    if !TermsBound(cfg) then DryDeny(TermsBinding)
    else
      var d := A.Evaluate(auth, RequestAt(cfg, env.times.preview));
      if d.None? then DryThrows
      else if !d.value.Allow? then DryDeny(Preview)
      else
        match PreflightGate(auth, cfg, env.times.preflight, env.preflight)
        case NoAuthority => DryDeny(Preview)
        case NoPrivacy => DryDeny(Preflight)
        case GateThrows => DryThrows
        case Cleared(basis, _) =>
          var live := PreflightGate(auth, cfg, env.times.recheck, env.recheck);
          if !live.Cleared? || live.basis != basis then DryDeny(Preflight)
          else if !RedemptionMatches(cfg) then DryDeny(TermsBinding)
          else DryAllow(LiveDigest(cfg))
  }
}
