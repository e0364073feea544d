/**
 * Any number of boundaries and other clients on one authority file, with writes that fail: how many
 * effects they enter between them, counted against the uses the file records.
 */
module BoundarySites {
  import opened Basics
  import opened PrivacyEvents
  import opened Boundary
  import opened BoundaryLaws
  import A = AuthorityState
  import S = AuthorityStore
  import W = StoreRuns
  import H = BoundaryHistory

  // ---------------------------------------------------------------- the system

  /** The shared file, the authority instance of each host, and the effect steps entered by id. */
  datatype Sites = Sites(file: Option<A.Snapshot>, auths: map<nat, A.State>, entered: multiset<Text>)

  const INITIAL := Sites(None, map[], multiset{})

  /**
   * `Ran` is a run of host `i`'s boundary under any configuration; its events, journal and callbacks
   * are whatever they are at that moment. The others are what a host does to its instance directly.
   */
  datatype Happening =
    | Created(i: nat)
    | Loaded(i: nat)
    | Called(i: nat, op: A.Op)
    | SavedTo(i: nat, write: S.Write)
    | Dropped(i: nat)
    | Ran(i: nat, cfg: Config, around: World, env: Env, room: bool)

  /** What a run of host `i` starts from. */
  function Seen(s: Sites, h: Happening): World
    requires h.Ran? && h.i in s.auths
  {
    h.around.(auth := s.auths[h.i], file := s.file)
  }

  function Step(s: Sites, h: Happening): Sites {
    match h
    case Created(i) => s.(auths := s.auths[i := A.FRESH])
    case Loaded(i) =>
      if s.file.None? || A.Restore(s.file.value).None? then s
      else s.(auths := s.auths[i := A.Restore(s.file.value).value])
    case Called(i, op) => if i !in s.auths then s else s.(auths := s.auths[i := A.Apply(s.auths[i], op)])
    case SavedTo(i, write) =>
      if i !in s.auths || S.Saved(s.file, s.auths[i]).None? then s
      else
        var next := S.Saved(s.file, s.auths[i]).value;
        s.(auths := s.auths[i := next], file := if write.Lost? then s.file else Some(A.TakeSnapshot(next)))
    case Dropped(i) => s.(auths := s.auths - {i})
    case Ran(i, cfg, _, env, room) =>
      if i !in s.auths then s
      else
        var w := Seen(s, h);
        var v := RunOnce(w, cfg, env, room).world;
        Sites(v.file, s.auths[i := v.auth], s.entered + H.Once(H.CitedBy(w, cfg, env)))
  }

  function After(hs: seq<Happening>): Sites {
    if hs == [] then INITIAL else Step(After(ButLast(hs)), Last(hs))
  }

  // ---------------------------------------------------------------- the same history as calls and saves

  function Writing(i: nat, write: S.Write): W.Action {
    match write
    case Written => W.Save(i)
    case Lost => W.SaveFails(i, false)
    case WrittenThenThrows => W.SaveFails(i, true)
  }

  /** The run gets past the gates and its event is PREPARED in time to burn a use. */
  predicate ReachesBurn(w: World, cfg: Config, env: Env) {
    && Gated(w.auth, cfg, env).Ok?
    && AttemptRefOk(env.attemptRef) && env.alive >= 1 && env.prepare.Fine?
    && (var id := EventFor(cfg, env, Gated(w.auth, cfg, env).value);
        id in w.events ==> w.events[id].state.EventPrepared?)
  }

  function EffectsOf(cited: Option<Text>): seq<W.Action> { if cited.Some? then [W.Effect(cited.value)] else [] }

  function ChargeOp(cfg: Config, env: Env): A.Op { A.OpEvaluate(RequestAt(cfg, env.times.consume), true) }

  /** What a run does to the instance and the file, as calls and saves of its host. */
  function RunActions(i: nat, w: World, cfg: Config, env: Env): seq<W.Action> {
    if !ReachesBurn(w, cfg, env) then []
    else
      [W.Invoke(i, ChargeOp(cfg, env))]
      + (if env.alive < 2 || !Allowed(w.auth, cfg, env.times.consume) then []
         else [Writing(i, env.write)] + EffectsOf(H.CitedBy(w, cfg, env)))
  }

  function ActionsOf(s: Sites, h: Happening): seq<W.Action> {
    match h
    case Created(i) => [W.Create(i)]
    case Loaded(i) => [W.Load(i)]
    case Called(i, op) => [W.Invoke(i, op)]
    case SavedTo(i, write) => [Writing(i, write)]
    case Dropped(i) => [W.Discard(i)]
    case Ran(i, cfg, _, env, _) => if i !in s.auths then [] else RunActions(i, Seen(s, h), cfg, env)
  }

  function Trace(hs: seq<Happening>): seq<W.Action> {
    if hs == [] then [] else Trace(ButLast(hs)) + ActionsOf(After(ButLast(hs)), Last(hs))
  }

  // ---------------------------------------------------------------- what a run does, exactly

  /** The instance and file after step 6, and the id of an entered effect step. */
  datatype Burn = Burn(auth: A.State, file: Option<A.Snapshot>, cited: Option<Text>)

  /** The id a charge would be made under, or None if the operation is denied. */
  function Allowance(auth: A.State, q: A.Request): Option<Text> {
    if A.Evaluate(auth, q).Some? && A.Evaluate(auth, q).value.Allow? then Some(A.Evaluate(auth, q).value.authorityId) else None
  }

  /** Step 6 after the charge, and the fence: save if the process lives, cite the id if all is well. */
  function Spend(charged: A.State, file: Option<A.Snapshot>, id: Option<Text>, lives: bool, write: S.Write, passes: bool): Burn
  {
    if !lives || id.None? || S.Saved(file, charged).None? then Burn(charged, file, None)
    else
      var next := S.Saved(file, charged).value;
      Burn(next, if write.Lost? then file else Some(A.TakeSnapshot(next)), if write.Written? && passes then id else None)
  }

  /** The exact effect of a run on instance and file. */
  function BurnOf(w: World, cfg: Config, env: Env): Burn {
    var q := RequestAt(cfg, env.times.consume);
    if !ReachesBurn(w, cfg, env) then Burn(w.auth, w.file, None)
    else
      Spend(A.AfterEvaluate(w.auth, q, true), w.file, Allowance(w.auth, q), env.alive >= 2, env.write,
            FencePasses(cfg, env, Gated(w.auth, cfg, env).value))
  }

  predicate Leaves(v: World, b: Burn) { v.auth == b.auth && v.file == b.file }

  lemma DeniedIsFree(auth: A.State, q: A.Request)
    requires Allowance(auth, q).None?
    ensures A.AfterEvaluate(auth, q, true) == auth
  {}

  lemma FencedLeaves(w: World, cfg: Config, env: Env, live: Gate, id: EventId, authorityId: Text)
    requires live.Cleared?
    ensures var r := Fenced(w, cfg, env, live, id, authorityId);
      && Leaves(if r.Ok? then r.value.world else r.error.world, Burn(w.auth, w.file, None))
      && (r.Ok? <==> FencePasses(cfg, env, live))
      && (r.Ok? ==> r.value.authorityId == authorityId)
  {}

  lemma ConcludeLeaves(w: World, id: EventId, to: EventState, env: Env, out: Outcome)
    ensures Leaves(Conclude(w, id, to, env, out).world, Burn(w.auth, w.file, None))
  {}

  lemma BurnedLeaves(w: World, cfg: Config, env: Env, live: Gate, id: EventId)
    requires live.Cleared?
    ensures var q, r := RequestAt(cfg, env.times.consume), Burned(w, cfg, env, live, id);
      var b := Spend(A.AfterEvaluate(w.auth, q, true), w.file, Allowance(w.auth, q), env.alive >= 2, env.write,
                     FencePasses(cfg, env, live));
      && Leaves(if r.Ok? then r.value.world else r.error.world, b)
      && b.cited == if r.Ok? then Some(r.value.authorityId) else None
  {
    var q := RequestAt(cfg, env.times.consume);
    if Allowance(w.auth, q).None? {
      DeniedIsFree(w.auth, q);
      ConcludeLeaves(w, id, EventFailed, env, Refused(Consume));
    } else {
      var charged := A.AfterEvaluate(w.auth, q, true);
      ConcludeLeaves(w.(auth := charged), id, EventFailed, env, Refused(Persist));
      if S.Saved(w.file, charged).Some? {
        var next := S.Saved(w.file, charged).value;
        var stored := w.(auth := next, file := if env.write.Lost? then w.file else Some(A.TakeSnapshot(next)));
        ConcludeLeaves(stored, id, EventFailed, env, Refused(Persist));
        FencedLeaves(stored, cfg, env, live, id, Allowance(w.auth, q).value);
      }
    }
  }

  lemma UnreachedLeaves(w: World, cfg: Config, env: Env)
    requires !ReachesBurn(w, cfg, env)
    ensures Admit(w, cfg, env).Err? && Leaves(Admit(w, cfg, env).error.world, Burn(w.auth, w.file, None))
  {}

  lemma ReachedIsBurned(w: World, cfg: Config, env: Env)
    requires ReachesBurn(w, cfg, env)
    ensures var live := Gated(w.auth, cfg, env).value;
      var id := EventFor(cfg, env, live);
      Admit(w, cfg, env) == Burned(w.(events := PrepareIn(w.events, id)), cfg, env, live, id)
  {}

  lemma AdmitLeaves(w: World, cfg: Config, env: Env)
    ensures var r := Admit(w, cfg, env);
      && Leaves(if r.Ok? then r.value.world else r.error.world, BurnOf(w, cfg, env))
      && BurnOf(w, cfg, env).cited == H.CitedBy(w, cfg, env)
  {
    if ReachesBurn(w, cfg, env) {
      var live := Gated(w.auth, cfg, env).value;
      var id := EventFor(cfg, env, live);
      ReachedIsBurned(w, cfg, env);
      BurnedLeaves(w.(events := PrepareIn(w.events, id)), cfg, env, live, id);
    } else {
      UnreachedLeaves(w, cfg, env);
    }
  }

  lemma RunLeaves(w: World, cfg: Config, env: Env, room: bool)
    ensures Leaves(RunOnce(w, cfg, env, room).world, BurnOf(w, cfg, env))
    ensures BurnOf(w, cfg, env).cited == H.CitedBy(w, cfg, env)
  {
    AdmitLeaves(w, cfg, env);
    if Admit(w, cfg, env).Ok? {
      AdmittedIsReady(w, cfg, env);
      CarryClassifies(Admit(w, cfg, env).value, cfg, env, room);
    }
  }

  // ---------------------------------------------------------------- the two views agree

  /** File, instances and entered effects are the ones of the run of calls and saves. */
  predicate Coupled(s: Sites, w: W.World) {
    && s.file == w.file && s.entered == w.effects
    && s.auths.Keys == w.handles.Keys
    && forall i :: i in s.auths ==> s.auths[i] == w.handles[i].state
  }

  lemma RunExtends(actions: seq<W.Action>, a: W.Action)
    ensures W.Run(actions + [a]) == W.Step(W.Run(actions), a)
  {
    assert ButLast(actions + [a]) == actions && Last(actions + [a]) == a;
  }

  /** Replacing one instance and the file on both sides. */
  lemma PutCouples(s: Sites, w: W.World, i: nat, auth: A.State, file: Option<A.Snapshot>, v: W.World)
    requires Coupled(s, w) && i in v.handles && v.handles[i].state == auth
    requires v.file == file && v.effects == w.effects && v.handles == w.handles[i := v.handles[i]]
    ensures Coupled(s.(auths := s.auths[i := auth], file := file), v)
  {}

  lemma LoadCouples(s: Sites, w: W.World, i: nat)
    requires Coupled(s, w)
    ensures Coupled(Step(s, Loaded(i)), W.Step(w, W.Load(i)))
  {
    if s.file.Some? && A.Restore(s.file.value).Some? {
      PutCouples(s, w, i, A.Restore(s.file.value).value, s.file, W.Step(w, W.Load(i)));
    }
  }

  lemma SavingCouples(s: Sites, w: W.World, i: nat, write: S.Write)
    requires Coupled(s, w)
    ensures Coupled(Step(s, SavedTo(i, write)), W.Step(w, Writing(i, write)))
  {
    if i in s.auths && S.Saved(s.file, s.auths[i]).Some? {
      var next := S.Saved(s.file, s.auths[i]).value;
      PutCouples(s, w, i, next, if write.Lost? then s.file else Some(A.TakeSnapshot(next)), W.Step(w, Writing(i, write)));
    }
  }

  lemma CallingCouples(s: Sites, w: W.World, i: nat, op: A.Op)
    requires Coupled(s, w)
    ensures Coupled(Step(s, Called(i, op)), W.Step(w, W.Invoke(i, op)))
  {
    if i in s.auths { PutCouples(s, w, i, A.Apply(s.auths[i], op), s.file, W.Step(w, W.Invoke(i, op))); }
  }

  lemma DirectCouples(s: Sites, w: W.World, h: Happening)
    requires Coupled(s, w) && !h.Ran?
    ensures Coupled(Step(s, h), W.Step(w, ActionsOf(s, h)[0]))
  {
    match h
    case Created(i) => PutCouples(s, w, i, A.FRESH, s.file, W.Step(w, W.Create(i)));
    case Loaded(i) => LoadCouples(s, w, i);
    case Called(i, op) => CallingCouples(s, w, i, op);
    case SavedTo(i, write) => SavingCouples(s, w, i, write);
    case Dropped(_) =>
  }

  /** A save that succeeds makes ready the use its last call was charged for. */
  lemma ChargeIsReady(w: W.World, i: nat, op: A.Op)
    requires i in w.handles && W.Tracks(w, w.handles[i])
    requires op.OpEvaluate? && op.consume
    ensures var u := W.Step(w, W.Invoke(i, op));
      W.ChargeOf(w.handles[i].state, op) <= W.Durable(u.handles[i])
  {
    var x := w.handles[i];
    var ops := x.ops + [op];
    assert ButLast(ops) == x.ops && Last(ops) == op;
    W.EvaluateRestamped(A.ApplyAll(W.Replay(x.seen), x.ops), op.request, x.state.revision, x.state.lineage);
  }

  // ---------------------------------------------------------------- a run as a call, a save and an effect

  /** The sites after host `i` did `b` to its instance and the file. */
  function Burnt(s: Sites, i: nat, b: Burn): Sites {
    Sites(b.file, s.auths[i := b.auth], s.entered + H.Once(b.cited))
  }

  /** After the charge, host `i` dies, is denied, or saves; `b` is what comes of it. */
  lemma SpendIs(s: Sites, i: nat, id: Option<Text>, lives: bool, write: S.Write, passes: bool)
    requires i in s.auths
    ensures var b := Spend(s.auths[i], s.file, id, lives, write, passes);
      Burnt(s, i, b) ==
        if !lives || id.None? then s
        else Step(s, SavedTo(i, write)).(entered := s.entered + H.Once(b.cited))
  {
    assert s.auths[i := s.auths[i]] == s.auths;
  }

  lemma EffectCouples(s: Sites, w: W.World, cited: Option<Text>)
    requires Coupled(s, w) && (cited.Some? ==> cited.value in w.ready)
    ensures Coupled(s.(entered := s.entered + H.Once(cited)), if cited.Some? then W.Step(w, W.Effect(cited.value)) else w)
  {}

  lemma EffectsExtend(actions: seq<W.Action>, cited: Option<Text>)
    ensures W.Run(actions + EffectsOf(cited))
      == if cited.Some? then W.Step(W.Run(actions), W.Effect(cited.value)) else W.Run(actions)
  {
    if cited.Some? { RunExtends(actions, W.Effect(cited.value)); } else { assert actions + EffectsOf(cited) == actions; }
  }

  lemma SavedRunCouples(s: Sites, t: seq<W.Action>, i: nat, write: S.Write, cited: Option<Text>)
    requires Coupled(s, W.Run(t))
    requires cited.Some? ==> cited.value in W.Step(W.Run(t), Writing(i, write)).ready
    ensures var v := Step(s, SavedTo(i, write));
      Coupled(v.(entered := v.entered + H.Once(cited)), W.Run(t + ([Writing(i, write)] + EffectsOf(cited))))
  {
    SavingCouples(s, W.Run(t), i, write);
    RunExtends(t, Writing(i, write));
    EffectCouples(Step(s, SavedTo(i, write)), W.Run(t + [Writing(i, write)]), cited);
    EffectsExtend(t + [Writing(i, write)], cited);
    assert t + ([Writing(i, write)] + EffectsOf(cited)) == t + [Writing(i, write)] + EffectsOf(cited);
  }

  lemma SpendCouples(s: Sites, t: seq<W.Action>, i: nat, id: Option<Text>, lives: bool, write: S.Write, passes: bool)
    requires Coupled(s, W.Run(t)) && i in s.auths
    requires id.Some? && W.Passes(W.Run(t), i) ==> id.value in W.Step(W.Run(t), W.Save(i)).ready
    ensures var b := Spend(s.auths[i], s.file, id, lives, write, passes);
      Coupled(Burnt(s, i, b),
              W.Run(t + if !lives || id.None? then [] else [Writing(i, write)] + EffectsOf(b.cited)))
  {
    var b := Spend(s.auths[i], s.file, id, lives, write, passes);
    SpendIs(s, i, id, lives, write, passes);
    if !lives || id.None? {
      assert t + [] == t;
    } else {
      SavedRunCouples(s, t, i, write, b.cited);
    }
  }

  /** The use an allowed call was charged for is ready once a save has succeeded. */
  lemma PaidIsReady(w: W.World, i: nat, q: A.Request, id: Text)
    requires i in w.handles && W.Tracks(w, w.handles[i]) && Allowance(w.handles[i].state, q) == Some(id)
    ensures var u := W.Step(w, W.Invoke(i, A.OpEvaluate(q, true)));
      W.Passes(u, i) ==> id in W.Step(u, W.Save(i)).ready
  {
    ChargeIsReady(w, i, A.OpEvaluate(q, true));
  }

  lemma ChargeIs(s: Sites, i: nat, q: A.Request)
    requires i in s.auths
    ensures Step(s, Called(i, A.OpEvaluate(q, true))) == s.(auths := s.auths[i := A.AfterEvaluate(s.auths[i], q, true)])
  {}

  /** Charge first, then whatever comes of it. */
  lemma ChargedRunCouples(s: Sites, t: seq<W.Action>, i: nat, q: A.Request, lives: bool, write: S.Write, passes: bool)
    requires Coupled(s, W.Run(t)) && W.Tracked(W.Run(t)) && i in s.auths
    ensures var id := Allowance(s.auths[i], q);
      var b := Spend(A.AfterEvaluate(s.auths[i], q, true), s.file, id, lives, write, passes);
      Coupled(Burnt(s, i, b),
              W.Run(t + [W.Invoke(i, A.OpEvaluate(q, true))]
                    + if !lives || id.None? then [] else [Writing(i, write)] + EffectsOf(b.cited)))
  {
    var op, id, charged := A.OpEvaluate(q, true), Allowance(s.auths[i], q), A.AfterEvaluate(s.auths[i], q, true);
    ChargeIs(s, i, q);
    CallingCouples(s, W.Run(t), i, op);
    RunExtends(t, W.Invoke(i, op));
    if id.Some? { PaidIsReady(W.Run(t), i, q, id.value); }
    SpendFromCouples(s, charged, t + [W.Invoke(i, op)], i, id, lives, write, passes);
  }

  lemma SpendFromCouples(
    s: Sites, charged: A.State, t: seq<W.Action>, i: nat, id: Option<Text>, lives: bool, write: S.Write, passes: bool)
    requires Coupled(s.(auths := s.auths[i := charged]), W.Run(t))
    requires id.Some? && W.Passes(W.Run(t), i) ==> id.value in W.Step(W.Run(t), W.Save(i)).ready
    ensures var b := Spend(charged, s.file, id, lives, write, passes);
      Coupled(Burnt(s, i, b),
              W.Run(t + if !lives || id.None? then [] else [Writing(i, write)] + EffectsOf(b.cited)))
  {
    SpendCouples(s.(auths := s.auths[i := charged]), t, i, id, lives, write, passes);
    BurntTwice(s, i, charged, Spend(charged, s.file, id, lives, write, passes));
  }

  lemma BurntTwice(s: Sites, i: nat, auth: A.State, b: Burn)
    ensures Burnt(s.(auths := s.auths[i := auth]), i, b) == Burnt(s, i, b)
  {
    assert s.auths[i := auth][i := b.auth] == s.auths[i := b.auth];
  }

  lemma RunActionsAre(i: nat, w: World, cfg: Config, env: Env, t: seq<W.Action>)
    requires ReachesBurn(w, cfg, env)
    ensures var id := Allowance(w.auth, RequestAt(cfg, env.times.consume));
      t + RunActions(i, w, cfg, env) ==
      t + [W.Invoke(i, ChargeOp(cfg, env))]
      + if !(env.alive >= 2) || id.None? then [] else [Writing(i, env.write)] + EffectsOf(H.CitedBy(w, cfg, env))
  {}

  lemma RunIsBurnt(s: Sites, h: Happening)
    requires h.Ran? && h.i in s.auths
    ensures Step(s, h) == Burnt(s, h.i, BurnOf(Seen(s, h), h.cfg, h.env))
    ensures BurnOf(Seen(s, h), h.cfg, h.env).cited == H.CitedBy(Seen(s, h), h.cfg, h.env)
  {
    RunLeaves(Seen(s, h), h.cfg, h.env, h.room);
  }

  /** A run that does not get to burn a use leaves instance and file alone. */
  lemma IdleRunIs(s: Sites, h: Happening)
    requires h.Ran? && h.i in s.auths && !ReachesBurn(Seen(s, h), h.cfg, h.env)
    ensures Burnt(s, h.i, BurnOf(Seen(s, h), h.cfg, h.env)) == s && ActionsOf(s, h) == []
  {
    assert s.auths[h.i := s.auths[h.i]] == s.auths;
  }

  lemma RanCouples(s: Sites, t: seq<W.Action>, h: Happening)
    requires Coupled(s, W.Run(t)) && W.Tracked(W.Run(t)) && h.Ran? && h.i in s.auths
    ensures Coupled(Step(s, h), W.Run(t + ActionsOf(s, h)))
  {
    var w := Seen(s, h);
    RunIsBurnt(s, h);
    if ReachesBurn(w, h.cfg, h.env) {
      RunActionsAre(h.i, w, h.cfg, h.env, t);
      ChargedRunCouples(s, t, h.i, RequestAt(h.cfg, h.env.times.consume), h.env.alive >= 2, h.env.write,
                        FencePasses(h.cfg, h.env, Gated(w.auth, h.cfg, h.env).value));
    } else {
      IdleRunIs(s, h);
      assert t + [] == t;
    }
  }

  lemma StepCouples(s: Sites, t: seq<W.Action>, h: Happening)
    requires Coupled(s, W.Run(t)) && W.Tracked(W.Run(t))
    ensures Coupled(Step(s, h), W.Run(t + ActionsOf(s, h)))
  {
    if !h.Ran? {
      DirectCouples(s, W.Run(t), h);
      assert ActionsOf(s, h) == [ActionsOf(s, h)[0]];
      RunExtends(t, ActionsOf(s, h)[0]);
    } else if h.i in s.auths {
      RanCouples(s, t, h);
    } else {
      assert t + ActionsOf(s, h) == t;
    }
  }

  /** Every history of boundaries and clients is a run of calls, saves and effects on the file. */
  lemma {:induction false} SitesAreStoreRuns(hs: seq<Happening>)
    ensures Coupled(After(hs), W.Run(Trace(hs)))
    decreases |hs|
  {
    if hs == [] {
      assert Coupled(INITIAL, W.INITIAL);
    } else {
      SitesAreStoreRuns(ButLast(hs));
      W.RunTracks(Trace(ButLast(hs)));
      StepCouples(After(ButLast(hs)), Trace(ButLast(hs)), Last(hs));
    }
  }

  // ---------------------------------------------------------------- use limits over all hosts

  /**
   * Boundaries sharing one file, with faults and crashes anywhere: unless a host saved again after a
   * lost write with exactly one write stored since, the effect steps all of them entered under an id
   * never outnumber the uses the file records for it, and these never exceed the limit.
   */
  lemma {:induction false} EffectsOfAllHosts(hs: seq<Happening>, id: Text)
    requires W.NoStaleSave(Trace(hs))
    ensures var s := After(hs);
      if s.file.None? then s.entered[id] == 0
      else
        var r := A.Restore(s.file.value);
        && r.Some?
        && s.entered[id] <= A.Uses(r.value, id)
        && (forall g :: g in r.value.grants && g.id == id && g.maxUses.Some? ==> A.Uses(r.value, id) <= g.maxUses.value)
        && (forall a :: a in r.value.approvals && a.id == id ==> A.Uses(r.value, id) <= a.maxUses)
  {
    SitesAreStoreRuns(hs);
    W.StoreIsReplay(Trace(hs));
    W.NoLostUpdateExactly(Trace(hs));
    W.EffectsWithinDurableUses(Trace(hs), id);
  }

  /**
   * Exactly when this fails, for every history: the effects entered under an id stay within the uses
   * the file records if and only if the uses that stale saves have forgotten are covered by stored
   * uses that have entered no effect.
   */
  lemma {:induction false} EnteredWithinRecordExactly(hs: seq<Happening>, id: Text)
    ensures var s, w := After(hs), W.Run(Trace(hs));
      && (s.file.Some? ==> A.Restore(s.file.value).Some? && A.Uses(A.Restore(s.file.value).value, id) == W.Recorded(w, id))
      && (s.entered[id] <= W.Recorded(w, id) <==> W.Forgotten(Trace(hs), id) <= w.ready[id] + w.burned[id])
  {
    SitesAreStoreRuns(hs);
    W.StoreIsReplay(Trace(hs));
    W.EffectsWithinRecordExactly(Trace(hs), id);
  }

  /** The same for hosts that reload or discard an instance whose write failed. */
  lemma {:induction false} ReloadingHostsAreSafe(hs: seq<Happening>, id: Text)
    requires W.Disciplined(Trace(hs))
    ensures var s := After(hs);
      s.file.Some? ==> A.Restore(s.file.value).Some? && s.entered[id] <= A.Uses(A.Restore(s.file.value).value, id)
  {
    W.DisciplineSuffices(Trace(hs));
    EffectsOfAllHosts(hs, id);
  }

  // ---------------------------------------------------------------- how a boundary gets there

  /** A run that charges host `i` and gets to save it. */
  predicate TriesToSave(s: Sites, h: Happening) {
    && h.Ran? && h.i in s.auths && ReachesBurn(Seen(s, h), h.cfg, h.env) && h.env.alive >= 2
    && Allowed(s.auths[h.i], h.cfg, h.env.times.consume)
  }

  lemma TraceExtends(hs: seq<Happening>, h: Happening)
    ensures Trace(hs + [h]) == Trace(hs) + ActionsOf(After(hs), h)
  {
    assert ButLast(hs + [h]) == hs && Last(hs + [h]) == h;
  }

  lemma SavingActions(i: nat, w: World, cfg: Config, env: Env)
    requires ReachesBurn(w, cfg, env) && env.alive >= 2 && Allowed(w.auth, cfg, env.times.consume)
    ensures RunActions(i, w, cfg, env) ==
      [W.Invoke(i, ChargeOp(cfg, env))] + ([Writing(i, env.write)] + EffectsOf(H.CitedBy(w, cfg, env)))
  {}

  lemma Regrouped(t: seq<W.Action>, a: W.Action, b: W.Action, more: seq<W.Action>)
    ensures t + ([a] + ([b] + more)) == t + [a] + [b] + more
  {}

  lemma SavingTrace(hs: seq<Happening>, h: Happening)
    requires TriesToSave(After(hs), h)
    ensures Trace(hs + [h]) ==
      Trace(hs) + [W.Invoke(h.i, ChargeOp(h.cfg, h.env))] + [Writing(h.i, h.env.write)]
      + EffectsOf(H.CitedBy(Seen(After(hs), h), h.cfg, h.env))
  {
    var w := Seen(After(hs), h);
    TraceExtends(hs, h);
    SavingActions(h.i, w, h.cfg, h.env);
    Regrouped(Trace(hs), W.Invoke(h.i, ChargeOp(h.cfg, h.env)), Writing(h.i, h.env.write),
              EffectsOf(H.CitedBy(w, h.cfg, h.env)));
  }

  /** The charge leaves the stored writes and the handle's past as they were. */
  lemma ChargedHandle(t: seq<W.Action>, i: nat, op: A.Op)
    requires i in W.Run(t).handles
    ensures var w, u := W.Run(t), W.Run(t + [W.Invoke(i, op)]);
      && i in u.handles && u.commits == w.commits && u.file == w.file
      && u.handles[i].lostAt == w.handles[i].lostAt && u.handles[i].state == A.Apply(w.handles[i].state, op)
  {
    RunExtends(t, W.Invoke(i, op));
  }

  lemma LostHandle(t: seq<W.Action>, i: nat)
    requires W.Passes(W.Run(t), i)
    ensures var w := W.Run(t + [W.SaveFails(i, false)]); i in w.handles && w.handles[i].lostAt == Some(|w.commits|)
  {
    RunExtends(t, W.SaveFails(i, false));
  }

  lemma LostCitesNothing(s: Sites, h: Happening)
    requires h.Ran? && h.i in s.auths && h.env.write.Lost?
    ensures EffectsOf(H.CitedBy(Seen(s, h), h.cfg, h.env)) == []
  {
    RunLeaves(Seen(s, h), h.cfg, h.env, h.room);
  }

  /** A run whose write is lost leaves its instance wearing the stamp of a write that did not happen. */
  lemma LostRunGoesAdrift(hs: seq<Happening>, h: Happening)
    requires TriesToSave(After(hs), h) && h.env.write.Lost?
    requires S.Saved(After(hs).file, A.Apply(After(hs).auths[h.i], ChargeOp(h.cfg, h.env))).Some?
    ensures var w := W.Run(Trace(hs + [h])); h.i in w.handles && w.handles[h.i].lostAt == Some(|w.commits|)
  {
    SitesAreStoreRuns(hs);
    SavingTrace(hs, h);
    LostCitesNothing(After(hs), h);
    ChargedHandle(Trace(hs), h.i, ChargeOp(h.cfg, h.env));
    var called := Trace(hs) + [W.Invoke(h.i, ChargeOp(h.cfg, h.env))];
    LostHandle(called, h.i);
    assert Trace(hs + [h]) == called + [W.SaveFails(h.i, false)];
  }

  /** Run again after exactly one other stored write, such an instance makes a stale save. */
  lemma RerunIsStale(hs: seq<Happening>, h: Happening)
    requires TriesToSave(After(hs), h) && !h.env.write.Lost?
    requires var w := W.Run(Trace(hs));
      h.i in w.handles && w.handles[h.i].lostAt.Some? && |w.commits| == w.handles[h.i].lostAt.value + 1
    ensures !W.NoStaleSave(Trace(hs + [h]))
  {
    SavingTrace(hs, h);
    ChargedHandle(Trace(hs), h.i, ChargeOp(h.cfg, h.env));
    var called := Trace(hs) + [W.Invoke(h.i, ChargeOp(h.cfg, h.env))];
    StaleStays(called, Writing(h.i, h.env.write), H.CitedBy(Seen(After(hs), h), h.cfg, h.env));
  }

  lemma StaleStays(actions: seq<W.Action>, a: W.Action, cited: Option<Text>)
    requires W.StaleSave(W.Run(actions), a)
    ensures !W.NoStaleSave(actions + [a] + EffectsOf(cited))
  {
    var saved := actions + [a];
    assert ButLast(saved) == actions && Last(saved) == a;
    if cited.Some? {
      assert ButLast(saved + EffectsOf(cited)) == saved;
    } else {
      assert saved + EffectsOf(cited) == saved;
    }
  }
}
