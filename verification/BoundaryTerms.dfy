/**
 * What the gates of the effect boundary demand, written out on the configuration and the request
 * (src/hostkit/boundary.ts, src/privacy/runtime.ts), for every configuration: callback or provider,
 * with a redemption or without.
 */
module BoundaryTerms {
  import opened Basics
  import opened Canonical
  import opened CanonicalLaws
  import opened PrivacyEvents
  import opened Boundary
  import opened BoundaryLaws
  import T = AuthorityTerms
  import A = AuthorityState
  import M = AuthorityMeaning

  // ---------------------------------------------------------------- the conditions

  /** The request a run puts to the authority at this time. */
  function Asked(cfg: Config, now: int): A.Request { A.Request(cfg.operation, cfg.ingress, None, now) }

  /** The operation carries exactly the declared context: the authorized one, or else the redemption's. */
  predicate ContextDeclared(cfg: Config) {
    && cfg.operation.context.Some?
    && (cfg.authorizedContext.Some? ==> cfg.operation.context.value == cfg.authorizedContext.value)
    && (cfg.authorizedContext.None? ==>
          cfg.redemption.Some? && cfg.operation.context.value == cfg.redemption.value.operation.args)
  }

  /** The digest of the operation, bound to the ingress that brought it. */
  function OperationDigest(cfg: Config): Text {
    Sha256(Print(T.Normalize(
      T.BoundOperation(cfg.ingress.principal, cfg.ingress.id, cfg.ingress.chain, cfg.operation.action,
                       cfg.operation.resource, cfg.operation.context, cfg.operation.purpose),
      None)))
  }

  /** A redemption, on whatever path, was made for this very operation. */
  predicate RedemptionIsFor(cfg: Config) {
    cfg.redemption.Some? ==>
      var op := cfg.redemption.value.operation;
      && op.termsDigest == OperationDigest(cfg)
      && op.cmd == cfg.operation.action.name
      && op.resource == Some(cfg.operation.resource.id)
      && op.purpose == cfg.operation.purpose
  }

  /** The processing context is about this request. */
  predicate ProcessingIsFor(cfg: Config) {
    var p := cfg.processing;
    && p.authorityPrincipal == cfg.ingress.principal && p.actor == cfg.ingress.id
    && p.action == cfg.operation.action.name
    && p.resourceKind == cfg.operation.resource.kind && p.resourceId == cfg.operation.resource.id
    && (if cfg.operation.purpose.Some? then p.purpose == cfg.operation.purpose.value else p.purpose == [])
  }

  ghost predicate AllowedAt(auth: A.State, cfg: Config, now: int) { M.Allows(auth, Asked(cfg, now)) }

  function IdAt(auth: A.State, cfg: Config, now: int): Text
    requires A.Evaluate(auth, Asked(cfg, now)).Some? && A.Evaluate(auth, Asked(cfg, now)).value.Allow?
  {
    A.Evaluate(auth, Asked(cfg, now)).value.authorityId
  }

  /** Everything the first four steps ask for. */
  ghost predicate Cleared(auth: A.State, cfg: Config, env: Env, basis: Basis) {
    && ContextDeclared(cfg) && RedemptionIsFor(cfg) && ProcessingIsFor(cfg)
    && AllowedAt(auth, cfg, env.times.preview) && AllowedAt(auth, cfg, env.times.preflight)
    && AllowedAt(auth, cfg, env.times.recheck)
    && env.preflight == Permits(basis) && env.recheck == Permits(basis)
  }

  // ---------------------------------------------------------------- they are what is tested

  lemma DeclaredMeans(cfg: Config)
    ensures TermsBound(cfg) <==> ContextDeclared(cfg)
  {
    if cfg.operation.context.Some? && DeclaredContext(cfg).Some? {
      M.SameText(VObj(cfg.operation.context.value), VObj(DeclaredContext(cfg).value));
    }
  }

  lemma RedemptionMeans(cfg: Config)
    ensures RedemptionMatches(cfg) <==> RedemptionIsFor(cfg)
    ensures ContextMatches(cfg) <==> ProcessingIsFor(cfg)
    ensures LiveDigest(cfg) == OperationDigest(cfg)
  {}

  lemma PreflightMeans(auth: A.State, cfg: Config, now: int, answer: PrivacyAnswer, basis: Basis)
    ensures var g := PreflightGate(auth, cfg, now, answer);
      (g.Cleared? && g.basis == basis) <==> AllowedAt(auth, cfg, now) && ProcessingIsFor(cfg) && answer == Permits(basis)
    ensures var g := PreflightGate(auth, cfg, now, answer);
      g.Cleared? ==> AllowedAt(auth, cfg, now) && g.citations == [IdAt(auth, cfg, now)]
  {
    RedemptionMeans(cfg);
  }

  /** The gates are passed exactly when everything they ask for holds; they yield the basis and the citation. */
  lemma GatesMean(auth: A.State, cfg: Config, env: Env, basis: Basis)
    ensures (Gated(auth, cfg, env).Ok? && Gated(auth, cfg, env).value.basis == basis) <==> Cleared(auth, cfg, env, basis)
    ensures Gated(auth, cfg, env).Ok? ==>
      && AllowedAt(auth, cfg, env.times.recheck)
      && Gated(auth, cfg, env).value.citations == [IdAt(auth, cfg, env.times.recheck)]
  {
    DeclaredMeans(cfg);
    RedemptionMeans(cfg);
    PreflightMeans(auth, cfg, env.times.preflight, env.preflight, basis);
    PreflightMeans(auth, cfg, env.times.recheck, env.recheck, basis);
    var first := PreflightGate(auth, cfg, env.times.preflight, env.preflight);
    if first.Cleared? { PreflightMeans(auth, cfg, env.times.preflight, env.preflight, first.basis); }
    var live := PreflightGate(auth, cfg, env.times.recheck, env.recheck);
    if live.Cleared? { PreflightMeans(auth, cfg, env.times.recheck, env.recheck, live.basis); }
  }

  /** The dry run approves exactly then, and reports the digest of the operation. */
  lemma DryRunMeans(auth: A.State, cfg: Config, env: Env)
    ensures Check(auth, cfg, env).DryAllow? <==> exists basis :: Cleared(auth, cfg, env, basis)
    ensures Check(auth, cfg, env).DryAllow? ==> Check(auth, cfg, env).termsDigest == OperationDigest(cfg)
  {
    CheckAgreesWithRun(auth, cfg, env);
    RedemptionMeans(cfg);
    if Gated(auth, cfg, env).Ok? { GatesMean(auth, cfg, env, Gated(auth, cfg, env).value.basis); }
    forall basis ensures Cleared(auth, cfg, env, basis) ==> Gated(auth, cfg, env).Ok? { GatesMean(auth, cfg, env, basis); }
  }

  /** A redemption for other terms stops a run, callback path included, and the dry run says so. */
  lemma ForeignRedemptionStops(w: World, cfg: Config, env: Env, room: bool)
    requires !RedemptionIsFor(cfg)
    ensures !Began(w, RunOnce(w, cfg, env, room).world) && RunOnce(w, cfg, env, room).outcome.Refused?
    ensures !Check(w.auth, cfg, env).DryAllow?
  {
    RedemptionMeans(cfg);
    NotAdmittedStops(w, cfg, env);
  }

  // ---------------------------------------------------------------- what an effect had behind it

  /** The evidence of this attempt: what it is filed under. */
  function AttemptEvent(w: World, cfg: Config, env: Env, basis: Basis): EventId
    requires A.Evaluate(w.auth, Asked(cfg, env.times.recheck)).Some?
    requires A.Evaluate(w.auth, Asked(cfg, env.times.recheck)).value.Allow?
  {
    EventId(env.attemptRef, basis, cfg.processing, OperationDigest(cfg), [IdAt(w.auth, cfg, env.times.recheck)])
  }

  /**
   * If a run of any configuration began an effect: the context was the declared one, a redemption was
   * for this operation, the processing context was about it, the authority allowed it at each of the
   * four times it was asked, and privacy permitted the same basis three times; the attempt's event
   * was PREPARED and one more use of the cited id stored.
   */
  lemma EffectMeans(w: World, cfg: Config, env: Env, room: bool) returns (basis: Basis)
    requires Began(w, RunOnce(w, cfg, env, room).world)
    ensures Cleared(w.auth, cfg, env, basis) && env.fence == Permits(basis)
    ensures AllowedAt(w.auth, cfg, env.times.consume)
    ensures Admit(w, cfg, env).Ok? && Admit(w, cfg, env).value.id == AttemptEvent(w, cfg, env, basis)
    ensures var ready := Admit(w, cfg, env).value;
      && StateIs(ready.world, ready.id, EventPrepared)
      && ready.authorityId == IdAt(w.auth, cfg, env.times.consume)
      && ready.world.file == Some(A.TakeSnapshot(ready.world.auth))
      && A.Uses(ready.world.auth, ready.authorityId) == A.Uses(w.auth, ready.authorityId) + 1
  {
    EffectNeedsEveryStep(w, cfg, env, room);
    var live := Gated(w.auth, cfg, env).value;
    basis := live.basis;
    GatesMean(w.auth, cfg, env, basis);
    RedemptionMeans(cfg);
    AdmittedGate(w, cfg, env);
    AdmittedCharges(w, cfg, env);
  }

  /** What an admitted run was charged for. */
  lemma AdmittedCharges(w: World, cfg: Config, env: Env)
    requires Admit(w, cfg, env).Ok?
    ensures AllowedAt(w.auth, cfg, env.times.consume)
    ensures Admit(w, cfg, env).value.authorityId == IdAt(w.auth, cfg, env.times.consume)
  {
    var live := Gated(w.auth, cfg, env).value;
    var id := EventFor(cfg, env, live);
    BurnedCharges(w.(events := PrepareIn(w.events, id)), cfg, env, live, id);
  }

  lemma BurnedCharges(w: World, cfg: Config, env: Env, live: Gate, id: EventId)
    requires live.Cleared? && Burned(w, cfg, env, live, id).Ok?
    ensures AllowedAt(w.auth, cfg, env.times.consume)
    ensures Burned(w, cfg, env, live, id).value.authorityId == IdAt(w.auth, cfg, env.times.consume)
  {}

  // ---------------------------------------------------------------- refusals, stage by stage

  /** Which of the first four steps refuses: the first whose condition fails. */
  lemma StagesMean(auth: A.State, cfg: Config, env: Env)
    ensures var g := Gated(auth, cfg, env);
      && (g == Err(TermsBinding) <==> !ContextDeclared(cfg))
      && (g == Err(Preview) <==> ContextDeclared(cfg) && !AllowedAt(auth, cfg, env.times.preview))
      && (g == Err(Preflight) <==>
            && ContextDeclared(cfg) && AllowedAt(auth, cfg, env.times.preview)
            && !(AllowedAt(auth, cfg, env.times.preflight) && ProcessingIsFor(cfg) && env.preflight.Permits?))
      && (g == Err(RedemptionTerms) ==> !RedemptionIsFor(cfg))
      && (g.Err? ==> g.error in {TermsBinding, Preview, Preflight, Recheck, RedemptionTerms})
  {
    DeclaredMeans(cfg);
    RedemptionMeans(cfg);
    if env.preflight.Permits? { PreflightMeans(auth, cfg, env.times.preflight, env.preflight, env.preflight.basis); }
  }

  /**
   * The dry run's answer: terms-mismatch for an undeclared context or, once all else is in order, for a
   * foreign redemption; authority-denied, privacy-denied and throws in between, the first that applies.
   */
  lemma DryStagesMean(auth: A.State, cfg: Config, env: Env)
    ensures var dry := Check(auth, cfg, env);
      var asked := M.WellAsked(Asked(cfg, env.times.preview));
      if !ContextDeclared(cfg) then dry == DryDeny(TermsBinding)
      else if !asked then dry.DryThrows?
      else if !AllowedAt(auth, cfg, env.times.preview) || !AllowedAt(auth, cfg, env.times.preflight) then dry == DryDeny(Preview)
      else if !ProcessingIsFor(cfg) || env.preflight.Refuses? then dry == DryDeny(Preflight)
      else if env.preflight.Unreadable? then dry.DryThrows?
      else if !AllowedAt(auth, cfg, env.times.recheck) || env.recheck != env.preflight then dry == DryDeny(Preflight)
      else if !RedemptionIsFor(cfg) then dry == DryDeny(TermsBinding)
      else dry == DryAllow(OperationDigest(cfg))
  {
    DeclaredMeans(cfg);
    RedemptionMeans(cfg);
    M.AskedMeans(auth, Asked(cfg, env.times.preview));
    M.AskedMeans(auth, Asked(cfg, env.times.preflight));
    M.AskedMeans(auth, Asked(cfg, env.times.recheck));
  }

  // ---------------------------------------------------------------- receipts

  function Or<X>(o: Option<X>, default: X): X { if o.Some? then o.value else default }

  /** What every returned receipt says, whatever the path. */
  lemma ReceiptMeans(w: World, cfg: Config, env: Env, room: bool)
    requires RunOnce(w, cfg, env, room).outcome.Receipted?
    ensures var r := RunOnce(w, cfg, env, room).outcome.receipt;
      && r.action == cfg.operation.action.name
      && AllowedAt(w.auth, cfg, env.times.consume) && r.authorityId == IdAt(w.auth, cfg, env.times.consume)
      && r.capabilityId == (if cfg.redemption.Some? then Some(cfg.redemption.value.chainId) else None)
      && Gated(w.auth, cfg, env).Ok? && AllowedAt(w.auth, cfg, env.times.recheck)
      && r.event == AttemptEvent(w, cfg, env, Gated(w.auth, cfg, env).value.basis)
  {
    if Admit(w, cfg, env).Ok? {
      AdmittedCharges(w, cfg, env);
      AdmittedGate(w, cfg, env);
      GatesMean(w.auth, cfg, env, Gated(w.auth, cfg, env).value.basis);
      RedemptionMeans(cfg);
      CarriedMeans(Admit(w, cfg, env).value, cfg, env, room);
    } else {
      NotAdmittedStops(w, cfg, env);
    }
  }

  lemma CarriedMeans(ready: Ready, cfg: Config, env: Env, room: bool)
    requires Carry(ready, cfg, env, room).outcome.Receipted?
    ensures var r := Carry(ready, cfg, env, room).outcome.receipt;
      && r.action == cfg.operation.action.name && r.authorityId == ready.authorityId && r.event == ready.id
      && r.capabilityId == (if cfg.redemption.Some? then Some(cfg.redemption.value.chainId) else None)
  {}

  /** A callback's receipt: its own fields, and the operation's where it gave none. */
  lemma CallbackReceiptMeans(w: World, cfg: Config, env: Env, room: bool)
    requires !UsesProvider(cfg) && RunOnce(w, cfg, env, room).outcome.Receipted?
    ensures env.script.end.Returns?
    ensures var r, raw := RunOnce(w, cfg, env, room).outcome.receipt, env.script.end.raw;
      && r.receiptId == Or(raw.receiptId, Lit("host-") + env.hostId) && r.transaction == raw.transaction
      && r.resource == Or(raw.resource, cfg.operation.resource.id)
      && r.purpose == Or(raw.purpose, Or(cfg.operation.purpose, []))
      && r.termsDigest == Or(raw.termsDigest, OperationDigest(cfg))
      && r.at == Or(raw.at, env.times.finalize)
  {
    RedemptionMeans(cfg);
    if Admit(w, cfg, env).Ok? {
      CallbackCarried(Admit(w, cfg, env).value, cfg, env, room);
    } else {
      NotAdmittedStops(w, cfg, env);
    }
  }

  lemma CallbackCarried(ready: Ready, cfg: Config, env: Env, room: bool)
    requires !UsesProvider(cfg) && Carry(ready, cfg, env, room).outcome.Receipted?
    ensures env.script.end.Returns?
    ensures var r, raw := Carry(ready, cfg, env, room).outcome.receipt, env.script.end.raw;
      && r.receiptId == Or(raw.receiptId, Lit("host-") + env.hostId) && r.transaction == raw.transaction
      && r.resource == Or(raw.resource, cfg.operation.resource.id)
      && r.purpose == Or(raw.purpose, Or(cfg.operation.purpose, []))
      && r.termsDigest == Or(raw.termsDigest, LiveDigest(cfg))
      && r.at == Or(raw.at, env.times.finalize)
  {}
}
