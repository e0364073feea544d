/**
 * What an undisturbed run of the effect boundary does (src/hostkit/boundary.ts): when everything the
 * gates ask for holds and nothing fails, the effect happens, the receipt says what was done, and event,
 * authority file and journal record it.
 */
module BoundarySuccess {
  import opened Basics
  import opened Canonical
  import C = CanonicalLaws
  import opened OrderedMap
  import opened PrivacyEvents
  import opened Boundary
  import opened BoundaryTerms
  import G = BoundaryTerms
  import T = AuthorityTerms
  import M = AuthorityMeaning
  import A = AuthorityState
  import S = AuthorityStore
  import J = Journal
  import P = Providers
  import R = JournalReceipts

  // ---------------------------------------------------------------- configurations

  /** Which configurations are accepted at all. */
  lemma ConfigMeans(cfg: Config)
    ensures ConfigOk(cfg) <==>
      && (cfg.provider.Some? ==> cfg.redemption.Some?)
      && (cfg.provider.Some? || cfg.hasCallback || cfg.redemption.Some?)
      && (cfg.authorizedContext.None? ==> cfg.redemption.Some?)
      && (cfg.authorizedContext.Some? && cfg.redemption.Some? ==>
            cfg.redemption.value.operation.args == cfg.authorizedContext.value)
  {
    if cfg.redemption.Some? && DeclaredContext(cfg).Some? {
      M.SameText(VObj(cfg.redemption.value.operation.args), VObj(DeclaredContext(cfg).value));
    }
  }

  // ---------------------------------------------------------------- up to the effect

  /** No durable step fails, the process lives, and the attempt has a well-formed reference. */
  predicate Undisturbed(env: Env) {
    && env.prepare.Fine? && env.write.Written? && env.finalize.Fine? && env.alive >= 4
    && 1 <= |env.attemptRef| <= 200 && forall c :: c in env.attemptRef ==> SafeChar(c)
  }

  /** The instance holds what the file holds, or both are new. */
  predicate UpToDate(w: World) {
    if w.file.Some? then w.file.value.revision == w.auth.revision && w.auth.revision >= 0 && w.auth.lineage
    else w.auth.revision == 0 && !w.auth.lineage
  }

  /** The four times the authority is asked, the three times privacy is, and a fresh attempt. */
  ghost predicate AllClear(w: World, cfg: Config, env: Env, basis: Basis) {
    && G.Cleared(w.auth, cfg, env, basis) && AllowedAt(w.auth, cfg, env.times.consume) && env.fence == Permits(basis)
    && Undisturbed(env) && UpToDate(w)
    && AttemptEvent(w, cfg, env, basis) !in w.events
  }

  /** The authority after one more use of this id was stored. */
  function Charged(w: World, id: Text): A.State {
    w.auth.(used := Put(w.auth.used, id, A.Uses(w.auth, id) + 1),
            revision := if w.file.Some? then w.auth.revision + 1 else 0, lineage := true)
  }

  lemma BurnsOne(w: World, cfg: Config, env: Env, live: Gate, id: EventId)
    requires live.Cleared? && Undisturbed(env) && UpToDate(w) && AllowedAt(w.auth, cfg, env.times.consume)
    requires ProcessingIsFor(cfg) && env.fence == Permits(live.basis)
    ensures var after := Charged(w, IdAt(w.auth, cfg, env.times.consume));
      Burned(w, cfg, env, live, id)
        == Ok(Ready(w.(auth := after, file := Some(A.TakeSnapshot(after))), live, id, IdAt(w.auth, cfg, env.times.consume)))
  {
    RedemptionMeans(cfg);
    var q := RequestAt(cfg, env.times.consume);
    var burned := A.AfterEvaluate(w.auth, q, true);
    var cited := IdAt(w.auth, cfg, env.times.consume);
    assert burned == w.auth.(used := Put(w.auth.used, cited, A.Uses(w.auth, cited) + 1));
    assert S.Saved(w.file, burned) == Some(Charged(w, cited));
  }

  /** A fresh attempt opens its event. */
  lemma Precommits(w: World, cfg: Config, env: Env, live: Gate, id: EventId, begun: World)
    requires live.Cleared? && Undisturbed(env) && id == EventFor(cfg, env, live) && id !in w.events
    requires begun == w.(events := w.events[id := EventRecord(EventPrepared, None, None)])
    ensures Precommitted(w, cfg, env, live) == Burned(begun, cfg, env, live, id)
  {}

  lemma GatePasses(w: World, cfg: Config, env: Env, basis: Basis) returns (live: Gate)
    requires AllClear(w, cfg, env, basis)
    ensures live.Cleared? && live.basis == basis && Gated(w.auth, cfg, env) == Ok(live)
    ensures EventFor(cfg, env, live) == AttemptEvent(w, cfg, env, basis)
  {
    GatesMean(w.auth, cfg, env, basis);
    RedemptionMeans(cfg);
    live := Gated(w.auth, cfg, env).value;
  }

  /** The run gets to the effect: one event is open, one use is charged and stored, nothing else moved. */
  lemma AdmitMeans(w: World, cfg: Config, env: Env, basis: Basis)
    requires AllClear(w, cfg, env, basis)
    ensures Admit(w, cfg, env).Ok?
    ensures var ready := Admit(w, cfg, env).value;
      var id, cited := AttemptEvent(w, cfg, env, basis), IdAt(w.auth, cfg, env.times.consume);
      && ready.id == id && ready.authorityId == cited
      && ready.world == World(Charged(w, cited), Some(A.TakeSnapshot(Charged(w, cited))),
                              w.events[id := EventRecord(EventPrepared, None, None)], w.cell, w.acts)
  {
    var live := GatePasses(w, cfg, env, basis);
    var id, cited := EventFor(cfg, env, live), IdAt(w.auth, cfg, env.times.consume);
    var begun := w.(events := w.events[id := EventRecord(EventPrepared, None, None)]);
    Precommits(w, cfg, env, live, id, begun);
    BurnsOne(begun, cfg, env, live, id);
    SameCharge(w, begun, cited);
    Enters(w, cfg, env, live, Precommitted(w, cfg, env, live));
  }

  lemma SameCharge(w: World, begun: World, cited: Text)
    requires begun == w.(events := begun.events)
    ensures Charged(begun, cited) == Charged(w, cited)
    ensures forall auth, file :: begun.(auth := auth, file := file) == World(auth, file, begun.events, w.cell, w.acts)
  {}

  lemma Enters(w: World, cfg: Config, env: Env, live: Gate, r: Result<Ready, Run>)
    requires live.Cleared? && Gated(w.auth, cfg, env) == Ok(live) && r == Precommitted(w, cfg, env, live)
    ensures Admit(w, cfg, env) == r
  {}

  // ---------------------------------------------------------------- from the effect to the receipt

  /** The event of a success: when, and which receipt proves it. */
  function SucceededEvent(r: Receipt): EventRecord {
    EventRecord(EventSucceeded, Some(r.at), Some(Lit("execution-receipt:") + r.receiptId))
  }

  lemma RecordsSuccess(w: World, receipt: Receipt, env: Env)
    requires Undisturbed(env) && receipt.at >= 0
    requires receipt.event in w.events && w.events[receipt.event] == EventRecord(EventPrepared, None, None)
    ensures RecordSuccess(w, receipt, env)
         == Run(w.(events := w.events[receipt.event := SucceededEvent(receipt)]), Receipted(receipt))
  {}

  // ---------------------------------------------------------------- the callback path

  /** The callback returned a receipt with usable references. */
  predicate Usable(raw: Raw) {
    && (raw.receiptId.Some? ==> 1 <= |raw.receiptId.value| <= 256)
    && (raw.transaction.Some? ==> 1 <= |raw.transaction.value| <= 256)
  }

  /** The receipt of a callback: its own fields, and the operation's where it gave none. */
  function CallbackReceipt(cfg: Config, env: Env, raw: Raw, id: EventId, cited: Text): Receipt {
    Receipt(Or(raw.receiptId, Lit("host-") + env.hostId), cfg.operation.action.name,
            Or(raw.resource, cfg.operation.resource.id), Or(raw.purpose, Or(cfg.operation.purpose, [])),
            Or(raw.termsDigest, OperationDigest(cfg)), Or(raw.at, env.times.finalize), cited,
            if cfg.redemption.Some? then Some(cfg.redemption.value.chainId) else None, raw.transaction, id)
  }

  lemma CallbackCarries(ready: Ready, cfg: Config, env: Env, room: bool)
    requires !UsesProvider(cfg) && cfg.hasCallback && env.script.end.Returns? && Usable(env.script.end.raw)
    requires Undisturbed(env) && Or(env.script.end.raw.at, env.times.finalize) >= 0
    requires ready.id in ready.world.events && ready.world.events[ready.id] == EventRecord(EventPrepared, None, None)
    ensures var receipt := CallbackReceipt(cfg, env, env.script.end.raw, ready.id, ready.authorityId);
      Carry(ready, cfg, env, room) == Run(
        ready.world.(events := ready.world.events[ready.id := SucceededEvent(receipt)],
                     acts := ready.world.acts + Acts(env.script.moves)),
        Receipted(receipt))
  {
    RedemptionMeans(cfg);
    assert |Lit("host-")| == 5;
    var receipt := CallbackReceipt(cfg, env, env.script.end.raw, ready.id, ready.authorityId);
    RecordsSuccess(ready.world.(acts := ready.world.acts + Acts(env.script.moves)), receipt, env);
  }

  /** An undisturbed callback run, from the world it finds to the world it leaves. */
  lemma CallbackRunMeans(w: World, cfg: Config, env: Env, room: bool, basis: Basis)
    requires AllClear(w, cfg, env, basis) && !UsesProvider(cfg) && cfg.hasCallback
    requires env.script.end.Returns? && Usable(env.script.end.raw) && Or(env.script.end.raw.at, env.times.finalize) >= 0
    ensures var id, cited := AttemptEvent(w, cfg, env, basis), IdAt(w.auth, cfg, env.times.consume);
      var receipt := CallbackReceipt(cfg, env, env.script.end.raw, id, cited);
      RunOnce(w, cfg, env, room) == Run(
        World(Charged(w, cited), Some(A.TakeSnapshot(Charged(w, cited))), w.events[id := SucceededEvent(receipt)],
              w.cell, w.acts + Acts(env.script.moves)),
        Receipted(receipt))
  {
    AdmitMeans(w, cfg, env, basis);
    var ready := Admit(w, cfg, env).value;
    CallbackCarries(ready, cfg, env, room);
    var receipt := CallbackReceipt(cfg, env, env.script.end.raw, ready.id, ready.authorityId);
    Overwritten(w.events, ready.id, EventRecord(EventPrepared, None, None), SucceededEvent(receipt));
  }

  lemma Overwritten(events: Events, id: EventId, first: EventRecord, then_: EventRecord)
    ensures events[id := first][id := then_] == events[id := then_]
  {}

  // ---------------------------------------------------------------- the provider path

  /** The provider is asked for the operation itself: digest, action, resource, purpose and context. */
  lemma CallMeans(cfg: Config, env: Env)
    requires UsesProvider(cfg) && ContextDeclared(cfg) && RedemptionIsFor(cfg) && cfg.operation.purpose.Some?
    ensures var call, r := CallFor(cfg, env), cfg.redemption.value;
      && call.redemption == r && call.req.capabilityId == r.chainId && call.scope == cfg.provider.value
      && call.req.terms == J.Terms(OperationDigest(cfg), cfg.operation.action.name, r.operation.recipient,
                                   cfg.operation.resource.id, cfg.operation.purpose.value, cfg.operation.context.value)
      && call.maxAttempts == None && call.now == env.times.effect == call.at && call.newId == env.newId
      && call.nonce == env.nonce && call.query == P.NoQuery && call.submit == env.submit && call.stop == env.stop
  {
    RedemptionMeans(cfg);
  }

  /** The redemption is used and proven, and rail and operation are named well enough for a key. */
  predicate Executable(cfg: Config, env: Env) {
    UsesProvider(cfg) &&
    var r := cfg.redemption.value;
    && r.ok && r.consumed && r.proofVerified && |r.chainId| >= 8 && r.operation.recipient != []
    && r.operation.args == Or(cfg.operation.context, map[])
    && |cfg.operation.action.name| >= 2 && cfg.operation.action.name[0] == '/' as int
    && cfg.operation.resource.id != [] && cfg.operation.purpose.Some? && cfg.operation.purpose.value != []
    && R.ScopeName(cfg.provider.value) && |env.newId| == 32 && R.Hex(env.newId) && env.stop.steps >= 6
  }

  lemma DigestIsTaken(cfg: Config)
    ensures R.Digest(OperationDigest(cfg)) && |OperationDigest(cfg)| >= 16
  {
    var v := T.Normalize(
      T.BoundOperation(cfg.ingress.principal, cfg.ingress.id, cfg.ingress.chain, cfg.operation.action,
                       cfg.operation.resource, cfg.operation.context, cfg.operation.purpose), None);
    C.Sha256IsSymbolic(Print(v));
    PrintIsLong(v.fields);
  }

  /** An object with a field prints to more than two characters. */
  lemma PrintIsLong(m: map<Text, Val>)
    requires Lit("action") in m
    ensures |Print(VObj(m))| >= 3
  {
    var ks := InOrder(m.Keys);
    assert Lit("action") in m.Keys;
    assert ks != [];
  }

  lemma ExecutableIsCleared(cfg: Config, env: Env)
    requires Executable(cfg, env) && ContextDeclared(cfg) && RedemptionIsFor(cfg)
    ensures R.Cleared(CallFor(cfg, env)) && J.NewExecutionOk(P.NewFor(CallFor(cfg, env)))
  {
    CallMeans(cfg, env);
    DigestIsTaken(cfg);
    R.AdmittedMeans(CallFor(cfg, env));
    J.CreationMeans([], P.NewFor(CallFor(cfg, env)));
    assert |Lit("ptf-")| == 4;
  }

  /** The receipt of the provider path: the rail's own reference, under the operation that was authorized. */
  function ProviderReceipt(cfg: Config, env: Env, ref: Text, id: EventId, cited: Text): Receipt
    requires cfg.redemption.Some? && cfg.operation.purpose.Some?
  {
    Receipt(Lit("rcpt-") + env.nonce, cfg.operation.action.name, cfg.operation.resource.id, cfg.operation.purpose.value,
            OperationDigest(cfg), env.times.effect, cited, Some(cfg.redemption.value.chainId), Some(ref), id)
  }

  /** The first call of the key: one submission, one effect, and what the rail answered. */
  lemma ProviderPerforms(w: World, cfg: Config, env: Env, ref: Text)
    requires Executable(cfg, env) && ContextDeclared(cfg) && RedemptionIsFor(cfg) && w.cell == P.VACANT
    requires env.submit == P.SubmitReturns(true, Some(ref), true) && 1 <= |ref| <= 256
    ensures var done := Perform(w, cfg, env, true);
      && done.world == w.(cell := done.world.cell) && done.started
      && done.world.cell.effects == 1 && done.world.cell.submits == 1
      && done.end == Returns(Raw(Some(Lit("rcpt-") + env.nonce), Some(ref), Some(cfg.operation.resource.id),
                                 Some(cfg.operation.purpose.value), Some(OperationDigest(cfg)), Some(env.times.effect)))
  {
    var call := CallFor(cfg, env);
    CallMeans(cfg, env);
    ExecutableIsCleared(cfg, env);
    R.AdmittedMeans(call);
    R.FirstReceipt(call, ref);
    R.FirstCallMeans(call);
  }

  lemma ProviderCarries(ready: Ready, cfg: Config, env: Env, ref: Text)
    requires Executable(cfg, env) && ContextDeclared(cfg) && RedemptionIsFor(cfg) && ready.world.cell == P.VACANT
    requires env.submit == P.SubmitReturns(true, Some(ref), true) && 1 <= |ref| <= 256
    requires Undisturbed(env) && env.times.effect >= 0
    requires ready.id in ready.world.events && ready.world.events[ready.id] == EventRecord(EventPrepared, None, None)
    ensures var run, receipt := Carry(ready, cfg, env, true), ProviderReceipt(cfg, env, ref, ready.id, ready.authorityId);
      && run.outcome == Receipted(receipt)
      && run.world == ready.world.(cell := run.world.cell, events := ready.world.events[ready.id := SucceededEvent(receipt)])
      && run.world.cell.effects == 1 && run.world.cell.submits == 1
  {
    ProviderPerforms(ready.world, cfg, env, ref);
    var done := Perform(ready.world, cfg, env, true);
    var receipt := ProviderReceipt(cfg, env, ref, ready.id, ready.authorityId);
    assert |Lit("rcpt-")| == 5;
    assert Project(done.end.raw, cfg, env, ready.id, ready.authorityId) == Some(receipt);
    RecordsSuccess(done.world, receipt, env);
  }

  /** An undisturbed provider run: exactly one effect, and a receipt in which rail, operation and charge agree. */
  lemma ProviderRunMeans(w: World, cfg: Config, env: Env, basis: Basis, ref: Text)
    requires AllClear(w, cfg, env, basis) && Executable(cfg, env) && w.cell == P.VACANT
    requires env.submit == P.SubmitReturns(true, Some(ref), true) && 1 <= |ref| <= 256 && env.times.effect >= 0
    ensures var id, cited := AttemptEvent(w, cfg, env, basis), IdAt(w.auth, cfg, env.times.consume);
      var run, receipt := RunOnce(w, cfg, env, true), ProviderReceipt(cfg, env, ref, id, cited);
      && run.outcome == Receipted(receipt)
      && run.world == World(Charged(w, cited), Some(A.TakeSnapshot(Charged(w, cited))),
                            w.events[id := SucceededEvent(receipt)], run.world.cell, w.acts)
      && run.world.cell.effects == 1 && run.world.cell.submits == 1
  {
    AdmitMeans(w, cfg, env, basis);
    var ready := Admit(w, cfg, env).value;
    ProviderCarries(ready, cfg, env, ref);
    var receipt := ProviderReceipt(cfg, env, ref, ready.id, ready.authorityId);
    Overwritten(w.events, ready.id, EventRecord(EventPrepared, None, None), SucceededEvent(receipt));
  }
}
