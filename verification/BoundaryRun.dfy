/**
 * The effect boundary on objects: the authority instance, its file, the event store, the journal
 * and the rail. Every method is proved against the corresponding function of module Boundary.
 */
module BoundaryRun {
  import opened Basics
  import opened Canonical
  import opened PrivacyEvents
  import opened Boundary
  import A = AuthorityState
  import S = AuthorityStore
  import J = Journal
  import P = Providers
  import E = AuthorityEngine

  /** The journal key of a provider-backed configuration. */
  function JournalKey(cfg: Config): Text {
    if !UsesProvider(cfg) then []
    else OrElse(J.DeriveIdempotencyKey(cfg.redemption.value.operation.termsDigest, cfg.provider.value), [])
  }

  /** What a passed step 7 hands to the effect. */
  datatype Pass = Pass(live: Gate, id: EventId, authorityId: Text)

  class EffectBoundary {
    const cfg: Config
    const auth: E.Authority
    const store: S.StoreFile
    const events: EventStore
    const journal: J.JournalStore
    const rail: P.Rail
    /** External effects made by the host callback. */
    var acts: nat

    constructor (cfg: Config, auth: E.Authority, store: S.StoreFile, events: EventStore,
                 journal: J.JournalStore, rail: P.Rail)
      requires ConfigOk(cfg)
      ensures this.cfg == cfg && this.auth == auth && this.store == store && this.events == events
      ensures this.journal == journal && this.rail == rail && acts == 0
    {
      this.cfg, this.auth, this.store, this.events, this.journal, this.rail := cfg, auth, store, events, journal, rail;
      acts := 0;
    }

    ghost function Value(): World
      reads this, auth, store, events, journal, rail
    {
      World(auth.Value(), store.content, events.records, P.CellOf(journal, rail, JournalKey(cfg)), acts)
    }

    ghost predicate Room(env: Env)
      reads journal
    {
      J.Room(journal.records, env.newId)
    }

    method PreviewAuthority(now: int) returns (d: Option<A.Decision>)
      modifies auth
      ensures d == A.Evaluate(old(auth.Value()), RequestAt(cfg, now)) && auth.Value() == old(auth.Value())
    {
      d := auth.Evaluate(RequestAt(cfg, now), false);
    }

    method PreflightNow(now: int, answer: PrivacyAnswer) returns (g: Gate)
      modifies auth
      ensures g == PreflightGate(old(auth.Value()), cfg, now, answer) && auth.Value() == old(auth.Value())
    {
      var d := PreviewAuthority(now);
      if d.None? { return GateThrows; }
      if !d.value.Allow? { return NoAuthority; }
      if !ContextMatches(cfg) { return NoPrivacy; }
      match answer {
        case Permits(basis) => g := Cleared(basis, [d.value.authorityId]);
        case Refuses => g := NoPrivacy;
        case Unreadable => g := GateThrows;
      }
    }

    /** The dry run: no effect, no event, no consumption. */
    method CheckNow(env: Env) returns (dry: Dry)
      modifies auth
      ensures dry == Check(old(auth.Value()), cfg, env) && Value() == old(Value())
    {
      if !TermsBound(cfg) { return DryDeny(TermsBinding); }
      var d := PreviewAuthority(env.times.preview);
      if d.None? { return DryThrows; }
      if !d.value.Allow? { return DryDeny(Preview); }
      var first := PreflightNow(env.times.preflight, env.preflight);
      match first {
        case NoAuthority => return DryDeny(Preview);
        case NoPrivacy => return DryDeny(Preflight);
        case GateThrows => return DryThrows;
        case Cleared(basis, _) =>
          var live := PreflightNow(env.times.recheck, env.recheck);
          if !live.Cleared? || live.basis != basis { return DryDeny(Preflight); }
          if !RedemptionMatches(cfg) { return DryDeny(TermsBinding); }
          return DryAllow(LiveDigest(cfg));
      }
    }

    method GateNow(env: Env) returns (g: Result<Gate, Stage>)
      modifies auth
      ensures g == Gated(old(auth.Value()), cfg, env) && auth.Value() == old(auth.Value())
    {
      if !TermsBound(cfg) { return Err(TermsBinding); }
      var d := PreviewAuthority(env.times.preview);
      if d.None? || !d.value.Allow? { return Err(Preview); }
      var first := PreflightNow(env.times.preflight, env.preflight);
      if !first.Cleared? { return Err(Preflight); }
      var live := PreflightNow(env.times.recheck, env.recheck);
      if !live.Cleared? || live.basis != first.basis { return Err(Recheck); }
      if !RedemptionMatches(cfg) { return Err(RedemptionTerms); }
      return Ok(live);
    }

    method ConcludeNow(id: EventId, to: EventState, env: Env, out: Outcome) returns (o: Outcome)
      modifies events
      ensures Run(Value(), o) == Conclude(old(Value()), id, to, env, out)
    {
      if env.alive < 4 { return Dead; }
      var recorded := events.Transition(id, to, env.times.finalize, None, env.finalize);
      o := out;
    }

    method RecordSuccessNow(receipt: Receipt, env: Env) returns (o: Outcome)
      modifies events
      ensures Run(Value(), o) == RecordSuccess(old(Value()), receipt, env)
    {
      if env.alive < 4 { return Dead; }
      var recorded := events.Transition(
        receipt.event, EventSucceeded, receipt.at, Some(EvidenceRef(receipt.receiptId)), env.finalize);
      o := if recorded then Receipted(receipt) else OutcomeUnknown;
    }

    /** The pass or the outcome, and the world, that a stage of the specification yields. */
    ghost predicate Yields(stage: Result<Ready, Run>, pass: Option<Pass>, o: Outcome)
      reads this, auth, store, events, journal, rail
    {
      match stage
      case Ok(r) => pass == Some(Pass(r.live, r.id, r.authorityId)) && Value() == r.world
      case Err(run) => pass.None? && Value() == run.world && o == run.outcome
    }

    method FenceNow(env: Env, live: Gate, id: EventId, authorityId: Text) returns (pass: Option<Pass>, o: Outcome)
      requires live.Cleared?
      modifies events
      ensures Yields(Fenced(old(Value()), cfg, env, live, id, authorityId), pass, o)
    {
      if !FencePasses(cfg, env, live) {
        o := ConcludeNow(id, EventFailed, env, Refused(Fence));
        return None, o;
      }
      return Some(Pass(live, id, authorityId)), Dead;
    }

    method BurnNow(env: Env, live: Gate, id: EventId) returns (pass: Option<Pass>, o: Outcome)
      requires live.Cleared?
      modifies auth, store, events
      ensures Yields(Burned(old(Value()), cfg, env, live, id), pass, o)
    {
      var d := auth.Evaluate(RequestAt(cfg, env.times.consume), true);
      if d.None? || !d.value.Allow? {
        o := ConcludeNow(id, EventFailed, env, Refused(Consume));
        return None, o;
      }
      if env.alive < 2 { return None, Dead; }
      var stored := store.SaveAuthority(auth, env.write);
      if !stored {
        o := ConcludeNow(id, EventFailed, env, Refused(Persist));
        return None, o;
      }
      pass, o := FenceNow(env, live, id, d.value.authorityId);
    }

    method PrecommitNow(env: Env, live: Gate) returns (pass: Option<Pass>, o: Outcome)
      requires live.Cleared?
      modifies auth, store, events
      ensures Yields(Precommitted(old(Value()), cfg, env, live), pass, o)
    {
      if !AttemptRefOk(env.attemptRef) { return None, Refused(Precommit); }
      if env.alive < 1 { return None, Dead; }
      var id := EventFor(cfg, env, live);
      var event := events.Prepare(id, env.prepare);
      if event.None? { return None, Refused(Precommit); }
      if event.value.state != EventPrepared { return None, Refused(Conflict); }
      pass, o := BurnNow(env, live, id);
    }

    method AdmitNow(env: Env) returns (pass: Option<Pass>, o: Outcome)
      modifies auth, store, events
      ensures Yields(Admit(old(Value()), cfg, env), pass, o)
    {
      var gate := GateNow(env);
      if gate.Err? { return None, Refused(gate.error); }
      pass, o := PrecommitNow(env, gate.value);
    }

    /** The host callback: signals and effects in its own order. */
    method PlayScript(moves: seq<Move>) returns (started: bool)
      modifies this
      ensures acts == old(acts) + Acts(moves)
      ensures started == (Signal in moves)
    {
      started := false;
      for i := 0 to |moves|
        invariant acts == old(acts) + Acts(moves[..i])
        invariant started == (Signal in moves[..i])
      {
        assert ButLast(moves[..i + 1]) == moves[..i] && Last(moves[..i + 1]) == moves[i];
        match moves[i] {
          case Signal => started := true;
          case Act => acts := acts + 1;
        }
      }
      assert moves[..|moves|] == moves;
    }

    method PerformNow(env: Env) returns (started: bool, end: Ending)
      requires journal.Valid()
      modifies this, journal, rail
      ensures journal.Valid()
      ensures Performed(Value(), started, end) == Perform(old(Value()), cfg, env, old(Room(env)))
    {
      if UsesProvider(cfg) {
        var op := cfg.redemption.value.operation;
        if op.resource.None? || op.purpose.None? { return false, Throws; }
        var call := CallFor(cfg, env);
        assert P.KeyOf(call) == JournalKey(cfg);
        var out;
        out, started := P.ExecuteWithJournal(journal, rail, call);
        end := FromProvider(out);
      } else {
        if !cfg.hasCallback { return false, Throws; }
        started := PlayScript(env.script.moves);
        end := env.script.end;
      }
    }

    method CarryNow(pass: Pass, env: Env) returns (o: Outcome)
      requires journal.Valid()
      modifies this, events, journal, rail
      ensures journal.Valid()
      ensures Run(Value(), o) == Carry(Ready(old(Value()), pass.live, pass.id, pass.authorityId), cfg, env, old(Room(env)))
    {
      if env.alive < 3 { return Dead; }
      var started, end := PerformNow(env);
      match end {
        case Dies => o := Dead;
        case Throws =>
          if started { o := ConcludeNow(pass.id, EventUnknown, env, OutcomeUnknown); }
          else { o := ConcludeNow(pass.id, EventFailed, env, Refused(Effect)); }
        case Returns(raw) =>
          var receipt := Project(raw, cfg, env, pass.id, pass.authorityId);
          if receipt.None? { o := ConcludeNow(pass.id, EventUnknown, env, OutcomeUnknown); }
          else { o := RecordSuccessNow(receipt.value, env); }
      }
    }

    /** One run, from terms binding to final evidence. */
    method RunNow(env: Env) returns (o: Outcome)
      requires journal.Valid()
      modifies this, auth, store, events, journal, rail
      ensures journal.Valid()
      ensures Run(Value(), o) == RunOnce(old(Value()), cfg, env, old(Room(env)))
    {
      var pass;
      pass, o := AdmitNow(env);
      if pass.Some? { o := CarryNow(pass.value, env); }
    }
  }
}
