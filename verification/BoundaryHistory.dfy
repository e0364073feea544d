/**
 * One host over time: any number of boundary runs and restarts, with faults and crashes anywhere.
 * A restart reloads the authority from its file and recovers the journal.
 */
module BoundaryHistory {
  import opened Basics
  import opened PrivacyEvents
  import opened Boundary
  import opened BoundaryLaws
  import A = AuthorityState
  import L = AuthorityLaws
  import N = AuthoritySnapshots
  import S = AuthorityStore
  import J = Journal
  import P = Providers
  import R = JournalRuns

  datatype Happening = Ran(env: Env, room: bool) | Restarted(now: int)

  /** What the authority file holds, read back. */
  function Committed(w: World): Option<A.State> {
    if w.file.None? then None else A.Restore(w.file.value)
  }

  function StepWorld(w: World, cfg: Config, h: Happening): World {
    match h
    case Ran(env, room) => RunOnce(w, cfg, env, room).world
    case Restarted(now) =>
      w.(auth := OrElse(Committed(w), w.auth), cell := R.StepCell(w.cell, R.Recover(now)))
  }

  function After(w: World, cfg: Config, hs: seq<Happening>): World {
    if hs == [] then w else StepWorld(After(w, cfg, ButLast(hs)), cfg, Last(hs))
  }

  function CitedBy(w: World, cfg: Config, env: Env): Option<Text> {
    if Admit(w, cfg, env).Ok? then Some(Admit(w, cfg, env).value.authorityId) else None
  }

  function CitedIn(w: World, cfg: Config, h: Happening): Option<Text> {
    if h.Ran? then CitedBy(w, cfg, h.env) else None
  }

  function Once(cited: Option<Text>): multiset<Text> {
    if cited.Some? then multiset{cited.value} else multiset{}
  }

  /** The authority ids under which an effect step was entered, one entry a run. */
  function Entered(w: World, cfg: Config, hs: seq<Happening>): multiset<Text> {
    if hs == [] then multiset{}
    else Entered(w, cfg, ButLast(hs)) + Once(CitedIn(After(w, cfg, ButLast(hs)), cfg, Last(hs)))
  }

  // ---------------------------------------------------------------- the authority over a run

  /** The instance carries at least the durable uses; both are valid states. */
  ghost predicate Sane(w: World) {
    && Committed(w).Some? && L.Valid(Committed(w).value) && L.Valid(w.auth)
    && forall id :: A.Uses(Committed(w).value, id) <= A.Uses(w.auth, id)
  }

  function Charged(auth: A.State, cfg: Config, env: Env): A.State {
    A.AfterEvaluate(auth, RequestAt(cfg, env.times.consume), true)
  }

  /** All a run can do to the authority: nothing, charge it, charge and stamp it, or also store it. */
  predicate AuthorityMove(w: World, cfg: Config, env: Env, v: World) {
    var charged := Charged(w.auth, cfg, env);
    || (v.auth == w.auth && v.file == w.file)
    || (v.auth == charged && v.file == w.file)
    || (S.Saved(w.file, charged).Some? && v.auth == S.Saved(w.file, charged).value
        && (v.file == w.file || v.file == Some(A.TakeSnapshot(v.auth))))
  }

  lemma BurnedMoves(w: World, cfg: Config, env: Env, live: Gate, id: EventId)
    requires live.Cleared?
    ensures var r := Burned(w, cfg, env, live, id);
      AuthorityMove(w, cfg, env, if r.Ok? then r.value.world else r.error.world)
  {}

  lemma AdmitMoves(w: World, cfg: Config, env: Env)
    ensures var r := Admit(w, cfg, env);
      AuthorityMove(w, cfg, env, if r.Ok? then r.value.world else r.error.world)
  {
    var gate := Gated(w.auth, cfg, env);
    if gate.Ok? {
      var id := EventFor(cfg, env, gate.value);
      BurnedMoves(w.(events := PrepareIn(w.events, id)), cfg, env, gate.value, id);
    }
  }

  lemma RunMoves(w: World, cfg: Config, env: Env, room: bool)
    ensures AuthorityMove(w, cfg, env, RunOnce(w, cfg, env, room).world)
    ensures Admit(w, cfg, env).Ok? ==>
      RunOnce(w, cfg, env, room).world.file == Some(A.TakeSnapshot(RunOnce(w, cfg, env, room).world.auth))
  {
    AdmitMoves(w, cfg, env);
    if Admit(w, cfg, env).Ok? {
      AdmittedIsReady(w, cfg, env);
      CarryClassifies(Admit(w, cfg, env).value, cfg, env, room);
    }
  }

  lemma ChargedIs(auth: A.State, cfg: Config, env: Env)
    requires L.Valid(auth)
    ensures L.Valid(Charged(auth, cfg, env))
    ensures forall id :: A.Uses(auth, id) <= A.Uses(Charged(auth, cfg, env), id)
  {
    var q := RequestAt(cfg, env.times.consume);
    L.EvaluateKeeps(auth, q, true);
    forall id ensures A.Uses(auth, id) <= A.Uses(Charged(auth, cfg, env), id) { L.ConsumeChargesCited(auth, q, id); }
  }

  /** A stored instance reads back as itself. */
  lemma StoredReadsBack(w: World)
    requires L.Valid(w.auth) && w.auth.lineage && w.file == Some(A.TakeSnapshot(w.auth))
    ensures Committed(w) == Some(w.auth)
  {
    N.RestoreIsIdentity(w.auth);
  }

  lemma SavedIs(file: Option<A.Snapshot>, s: A.State)
    requires L.Valid(s) && S.Saved(file, s).Some?
    ensures var t := S.Saved(file, s).value;
      L.Valid(t) && t.lineage && forall id :: A.Uses(t, id) == A.Uses(s, id)
  {
    var t := S.Saved(file, s).value;
    N.StampKeepsValid(s, t.revision);
  }

  lemma MoveKeepsSane(w: World, cfg: Config, env: Env, v: World)
    requires Sane(w) && AuthorityMove(w, cfg, env, v)
    ensures Sane(v)
    ensures forall id :: A.Uses(Committed(w).value, id) <= A.Uses(Committed(v).value, id)
  {
    var charged := Charged(w.auth, cfg, env);
    ChargedIs(w.auth, cfg, env);
    if S.Saved(w.file, charged).Some? {
      SavedIs(w.file, charged);
      if v.auth == S.Saved(w.file, charged).value && v.file == Some(A.TakeSnapshot(v.auth)) { StoredReadsBack(v); }
    }
  }

  /** Entering the effect step has stored the instance with one more use of the cited id. */
  lemma EnteredStores(w: World, cfg: Config, env: Env, room: bool)
    requires Admit(w, cfg, env).Ok?
    ensures var v, id := RunOnce(w, cfg, env, room).world, Admit(w, cfg, env).value.authorityId;
      && v.auth.lineage && v.file == Some(A.TakeSnapshot(v.auth))
      && A.Uses(v.auth, id) == A.Uses(w.auth, id) + 1
  {
    AdmittedIsReady(w, cfg, env);
    CarryClassifies(Admit(w, cfg, env).value, cfg, env, room);
  }

  /** `cited` is the id charged by a run that entered the effect step. */
  predicate Stored(w: World, v: World, cited: Option<Text>) {
    cited.Some? ==>
      && v.auth.lineage && v.file == Some(A.TakeSnapshot(v.auth))
      && A.Uses(v.auth, cited.value) == A.Uses(w.auth, cited.value) + 1
  }

  lemma MoveCounts(w: World, cfg: Config, env: Env, v: World, cited: Option<Text>, id: Text)
    requires Sane(w) && AuthorityMove(w, cfg, env, v) && Stored(w, v, cited)
    ensures Sane(v)
    ensures A.Uses(Committed(v).value, id) >= A.Uses(Committed(w).value, id) + if cited == Some(id) then 1 else 0
  {
    MoveKeepsSane(w, cfg, env, v);
    if cited.Some? { StoredReadsBack(v); }
  }

  lemma RunStores(w: World, cfg: Config, env: Env, room: bool)
    ensures AuthorityMove(w, cfg, env, RunOnce(w, cfg, env, room).world)
    ensures Stored(w, RunOnce(w, cfg, env, room).world, CitedBy(w, cfg, env))
  {
    RunMoves(w, cfg, env, room);
    if Admit(w, cfg, env).Ok? { EnteredStores(w, cfg, env, room); }
  }

  /** The authority's share of one happening. */
  predicate Moved(w: World, cfg: Config, h: Happening, v: World, cited: Option<Text>) {
    match h
    case Ran(env, _) => AuthorityMove(w, cfg, env, v) && Stored(w, v, cited)
    case Restarted(_) => cited.None? && v.file == w.file && v.auth == OrElse(Committed(w), w.auth)
  }

  lemma StepMoves(w: World, cfg: Config, h: Happening)
    ensures Moved(w, cfg, h, StepWorld(w, cfg, h), CitedIn(w, cfg, h))
  {
    if h.Ran? { RunStores(w, cfg, h.env, h.room); }
  }

  /** The durable uses of `v` are those of `w` and the one an entered effect step was charged for. */
  ghost predicate Counts(w: World, v: World, cited: Option<Text>, id: Text)
    requires Sane(w)
  {
    Sane(v) && A.Uses(Committed(v).value, id) >= A.Uses(Committed(w).value, id) + Once(cited)[id]
  }

  lemma MovedCounts(w: World, cfg: Config, h: Happening, v: World, cited: Option<Text>, id: Text)
    requires Sane(w) && Moved(w, cfg, h, v, cited)
    ensures Counts(w, v, cited, id)
  {
    OnceIs(cited, id);
    if h.Ran? { MoveCounts(w, cfg, h.env, v, cited, id); } else { RestartCounts(w, v, id); }
  }

  lemma OnceIs(cited: Option<Text>, id: Text)
    ensures Once(cited)[id] == if cited == Some(id) then 1 else 0
  {}

  lemma RestartCounts(w: World, v: World, id: Text)
    requires Sane(w) && v.file == w.file && v.auth == OrElse(Committed(w), w.auth)
    ensures Counts(w, v, None, id)
  {}

  lemma StepCounts(w: World, cfg: Config, h: Happening, id: Text)
    requires Sane(w)
    ensures Counts(w, StepWorld(w, cfg, h), CitedIn(w, cfg, h), id)
  {
    StepMoves(w, cfg, h);
    MovedCounts(w, cfg, h, StepWorld(w, cfg, h), CitedIn(w, cfg, h), id);
  }

  lemma {:induction false} HistoryCounts(w: World, cfg: Config, hs: seq<Happening>, id: Text)
    requires Sane(w)
    ensures var v := After(w, cfg, hs);
      Sane(v) && A.Uses(Committed(v).value, id) >= A.Uses(Committed(w).value, id) + Entered(w, cfg, hs)[id]
    decreases |hs|
  {
    if hs == [] {
    } else {
      HistoryCounts(w, cfg, ButLast(hs), id);
      StepCounts(After(w, cfg, ButLast(hs)), cfg, Last(hs), id);
    }
  }

  /**
   * Use limits across runs, faults, crashes and restarts: effect steps entered under an id never
   * outnumber the uses durably recorded for it, and these never exceed the limit.
   */
  lemma EffectsWithinUseLimits(w: World, cfg: Config, hs: seq<Happening>, id: Text)
    requires Sane(w)
    ensures var s := Committed(After(w, cfg, hs));
      && s.Some?
      && Entered(w, cfg, hs)[id] <= A.Uses(s.value, id) - A.Uses(Committed(w).value, id)
      && (forall g :: g in s.value.grants && g.id == id && g.maxUses.Some? ==> A.Uses(s.value, id) <= g.maxUses.value)
      && (forall a :: a in s.value.approvals && a.id == id ==> A.Uses(s.value, id) <= a.maxUses)
  {
    HistoryCounts(w, cfg, hs, id);
  }

  // ---------------------------------------------------------------- the journal over a history

  /** Without a query nothing is ever submitted twice, whatever the provider answers. */
  predicate OnceOnly(c: P.Cell) {
    && c.effects <= c.submits <= 1
    && (c.rec.None? ==> c.submits == 0)
    && (c.rec.Some? && (c.rec.value.state == J.PREPARED || c.rec.value.state == J.AUTHORIZED) ==> c.submits == 0)
  }

  lemma SubmitOnceOnly(c: P.Cell, call: P.Call, n: nat, started: bool)
    requires c.rec.Some? && c.rec.value.state == J.AUTHORIZED && OnceOnly(c)
    ensures OnceOnly(P.SubmitRun(c, call, n, started).cell)
  {}

  lemma ResumeOnceOnly(c: P.Cell, call: P.Call, n: nat)
    requires c.rec.Some? && OnceOnly(c) && call.query.NoQuery?
    ensures OnceOnly(P.ResumeRun(c, call, n).cell)
  {
    if c.rec.value.state == J.AUTHORIZED { SubmitOnceOnly(c, call, n, false); }
    if n > 0 && c.rec.value.state == J.PREPARED {
      SubmitOnceOnly(P.Shift(c, J.AUTHORIZED, J.NOTHING, call.now), call, n - 1, false);
    }
  }

  lemma ExecuteOnceOnly(c: P.Cell, call: P.Call, room: bool)
    requires OnceOnly(c) && call.query.NoQuery?
    ensures OnceOnly(P.Execute(c, call, room).cell)
  {
    if c.rec.Some? {
      ResumeOnceOnly(c, call, call.stop.steps);
    } else if call.stop.steps > 0 {
      ResumeOnceOnly(c.(rec := Some(J.Prepared(P.NewFor(call), call.now))), call, call.stop.steps - 1);
    }
  }

  lemma StepOnceOnly(w: World, cfg: Config, h: Happening)
    requires OnceOnly(w.cell)
    ensures OnceOnly(StepWorld(w, cfg, h).cell)
  {
    if h.Ran? {
      if Admit(w, cfg, h.env).Ok? {
        AdmittedIsReady(w, cfg, h.env);
        var ready := Admit(w, cfg, h.env).value;
        CarryKeepsCell(ready, cfg, h.env, h.room);
        if UsesProvider(cfg) { ExecuteOnceOnly(ready.world.cell, CallFor(cfg, h.env), h.room); }
      } else {
        NotAdmittedStops(w, cfg, h.env);
      }
    }
  }

  /**
   * However often a provider-backed boundary is run, crashed and restarted, its terms are submitted
   * at most once: an unresolved outcome stays unresolved until someone supplies a query.
   */
  lemma {:induction false} BoundarySubmitsOnce(w: World, cfg: Config, hs: seq<Happening>)
    requires w.cell == P.VACANT
    ensures var c := After(w, cfg, hs).cell; c.effects <= c.submits <= 1
    ensures OnceOnly(After(w, cfg, hs).cell)
    decreases |hs|
  {
    if hs == [] {
    } else {
      BoundarySubmitsOnce(w, cfg, ButLast(hs));
      StepOnceOnly(After(w, cfg, ButLast(hs)), cfg, Last(hs));
    }
  }
}
