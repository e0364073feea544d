/**
 * A use spent twice: a run on one authority file in which a grant with a single use is used for two
 * effects, for every such grant and every request it serves.
 */
module DoubleSpend {
  import opened Basics
  import opened AuthorityState
  import opened AuthorityStore
  import opened StoreRuns
  import T = AuthorityTerms

  /** An instance that holds one grant and nothing else. */
  function Holding(g: T.Grant): State { FRESH.(grants := [g]) }

  /** The grant allows the request, on its own. */
  predicate Serves(g: T.Grant, q: Request) {
    && T.GrantOk(g)
    && Evaluate(Holding(g), q).Some? && Evaluate(Holding(g), q).value.Allow?
    && Evaluate(Holding(g), q).value.authorityId == g.id
  }

  /** Handle 1 loses a save and is kept; handle 2 uses the grant; handle 1 saves; handle 3 uses the grant. */
  function SpendTwice(g: T.Grant, use: Op): seq<Action> {
    [Create(0), Invoke(0, OpAddGrant(g)), Save(0),
     Load(1), SaveFails(1, false),
     Load(2), Invoke(2, use), Save(2), Effect(g.id),
     Save(1),
     Load(3), Invoke(3, use), Save(3), Effect(g.id)]
  }

  // ---------------------------------------------------------------- a run as a sequence of worlds

  predicate NextIs(ws: seq<World>, actions: seq<Action>, i: nat)
    requires |ws| == |actions| + 1 && i < |actions|
  {
    ws[i + 1] == Step(ws[i], actions[i])
  }

  /** The worlds of a run, from its start to its end. */
  predicate Follows(ws: seq<World>, actions: seq<Action>) {
    |ws| == |actions| + 1 && forall i: nat :: i < |actions| ==> NextIs(ws, actions, i)
  }

  function Worlds(actions: seq<Action>): (ws: seq<World>)
    ensures |ws| == |actions| + 1
  {
    seq(|actions| + 1, i requires 0 <= i <= |actions| => Run(actions[..i]))
  }

  lemma WorldsFollow(actions: seq<Action>)
    ensures Follows(Worlds(actions), actions)
    ensures Worlds(actions)[0] == INITIAL && Worlds(actions)[|actions|] == Run(actions)
  {
    assert actions[..0] == [] && actions[..|actions|] == actions;
    forall i: nat | i < |actions| ensures NextIs(Worlds(actions), actions, i) { RunsOn(actions, i); }
  }

  lemma RunsOn(actions: seq<Action>, i: nat)
    requires i < |actions|
    ensures Run(actions[..i + 1]) == Step(Run(actions[..i]), actions[i])
  {
    assert ButLast(actions[..i + 1]) == actions[..i] && Last(actions[..i + 1]) == actions[i];
  }

  // ---------------------------------------------------------------- single steps

  /** A fresh load of the file. */
  function Loaded(w: World): Handle { Handle(Stamp(Replay(w.history), |w.commits| - 1), w.history, [], None) }

  predicate OnFile(w: World) { Tracked(w) && w.file.Some? }

  lemma LoadAt(ws: seq<World>, actions: seq<Action>, i: nat, h: nat)
    requires Follows(ws, actions) && i < |actions| && actions[i] == Load(h) && OnFile(ws[i])
    ensures OnFile(ws[i + 1]) && ws[i + 1] == ws[i].(handles := ws[i].handles[h := Loaded(ws[i])])
  {
    assert NextIs(ws, actions, i);
    FileRestores(ws[i]);
    StepTracks(ws[i], Load(h));
  }

  function Called(x: Handle, op: Op): Handle { x.(state := Apply(x.state, op), ops := x.ops + [op]) }

  lemma InvokeAt(ws: seq<World>, actions: seq<Action>, i: nat, h: nat, op: Op)
    requires Follows(ws, actions) && i < |actions| && actions[i] == Invoke(h, op) && Tracked(ws[i]) && h in ws[i].handles
    ensures Tracked(ws[i + 1]) && ws[i + 1] == ws[i].(handles := ws[i].handles[h := Called(ws[i].handles[h], op)])
  {
    assert NextIs(ws, actions, i);
    StepTracks(ws[i], Invoke(h, op));
  }

  /** What a save that passes leaves. */
  predicate SavedBy(w: World, v: World, h: nat) {
    && OnFile(v) && h in w.handles && h in v.handles && v.handles == w.handles[h := v.handles[h]]
    && v.history == w.handles[h].seen + [w.handles[h].ops] && |v.commits| == |w.commits| + 1
    && v.ready == w.ready + Durable(w.handles[h]) && v.effects == w.effects
  }

  lemma SaveAt(ws: seq<World>, actions: seq<Action>, i: nat, h: nat)
    requires Follows(ws, actions) && i < |actions| && actions[i] == Save(h) && Tracked(ws[i]) && Passes(ws[i], h)
    ensures SavedBy(ws[i], ws[i + 1], h)
  {
    assert NextIs(ws, actions, i);
    StepTracks(ws[i], Save(h));
  }

  lemma LoseAt(ws: seq<World>, actions: seq<Action>, i: nat, h: nat)
    requires Follows(ws, actions) && i < |actions| && actions[i] == SaveFails(h, false) && OnFile(ws[i]) && Passes(ws[i], h)
    ensures var x, y := ws[i].handles[h], ws[i + 1];
      && OnFile(y) && y == ws[i].(handles := y.handles) && h in y.handles
      && y.handles[h].seen == x.seen && y.handles[h].ops == x.ops && y.handles[h].lostAt == Some(|ws[i].commits|)
  {
    assert NextIs(ws, actions, i);
    StepTracks(ws[i], SaveFails(h, false));
  }

  lemma EffectAt(ws: seq<World>, actions: seq<Action>, i: nat, id: Text)
    requires Follows(ws, actions) && i < |actions| && actions[i] == Effect(id) && OnFile(ws[i]) && id in ws[i].ready
    ensures OnFile(ws[i + 1])
    ensures ws[i + 1] == ws[i].(ready := ws[i].ready - multiset{id}, effects := ws[i].effects + multiset{id})
  {
    assert NextIs(ws, actions, i);
    StepTracks(ws[i], Effect(id));
  }

  // ---------------------------------------------------------------- one use

  /** Every other handle is as it was. */
  predicate Others(w: World, v: World, h: nat) {
    forall k :: k in w.handles && k != h ==> k in v.handles && v.handles[k] == w.handles[k]
  }

  /** Nothing was stored and nothing spent. */
  predicate Idle(w: World, v: World) {
    v.file == w.file && v.history == w.history && v.commits == w.commits && v.effects == w.effects
  }

  /** The file holds the grant, unused. */
  predicate Unused(w: World, g: T.Grant) { OnFile(w) && Replay(w.history) == Holding(g) }

  /** One use by handle `h`, seen from outside it. */
  predicate UsedOnce(w: World, v: World, h: nat, id: Text) {
    OnFile(v) && v.effects == w.effects + multiset{id} && |v.commits| == |w.commits| + 1 && Others(w, v, h)
  }

  lemma NewestPasses(w: World, h: nat)
    requires Tracked(w) && h in w.handles && w.handles[h].lostAt.None?
    requires w.handles[h].state.lineage && w.handles[h].state.revision == |w.commits| - 1
    ensures Passes(w, h)
  {
    PassesExactly(w, w.handles[h]);
  }

  lemma StampKept(s: State, n: nat, op: Op)
    ensures var t := Apply(Stamp(s, n), op); t.lineage && t.revision == n
  {
    ApplyRestamped(s, op, n, true);
  }

  /** The call is charged to this id when it is made on the grant alone. */
  predicate ChargesTo(g: T.Grant, use: Op, id: Text) { id in Charges(Holding(g), [use]) }

  lemma UseAt(ws: seq<World>, actions: seq<Action>, i: nat, h: nat, g: T.Grant, use: Op, id: Text)
    requires Follows(ws, actions) && i + 4 <= |actions| && Unused(ws[i], g) && ChargesTo(g, use, id)
    requires actions[i] == Load(h) && actions[i + 1] == Invoke(h, use)
    requires actions[i + 2] == Save(h) && actions[i + 3] == Effect(id)
    ensures UsedOnce(ws[i], ws[i + 4], h, id)
  {
    ChargedAt(ws, actions, i, h, use);
    SpentAt(ws, actions, i + 2, h, use, id);
  }

  /** Load and call. */
  lemma ChargedAt(ws: seq<World>, actions: seq<Action>, i: nat, h: nat, use: Op)
    requires Follows(ws, actions) && i + 2 <= |actions| && OnFile(ws[i])
    requires actions[i] == Load(h) && actions[i + 1] == Invoke(h, use)
    ensures var w, v := ws[i], ws[i + 2];
      && Tracked(v) && Passes(v, h) && Idle(w, v) && Others(w, v, h)
      && v.handles[h].seen == w.history && v.handles[h].ops == [use]
  {
    LoadAt(ws, actions, i, h);
    InvokeAt(ws, actions, i + 1, h, use);
    assert [] + [use] == [use];
    StampKept(Replay(ws[i].history), |ws[i].commits| - 1, use);
    PlacedIs(ws[i], ws[i + 1], ws[i + 2], h, Loaded(ws[i]), Called(Loaded(ws[i]), use));
  }

  /** A handle that still wears the newest stamp takes the place of whatever was there. */
  lemma PlacedIs(w: World, u: World, v: World, h: nat, x: Handle, y: Handle)
    requires w.file.Some? && Tracked(v) && w.commits != []
    requires u == w.(handles := w.handles[h := x]) && v == u.(handles := u.handles[h := y])
    requires y.lostAt.None? && y.state.lineage && y.state.revision == |w.commits| - 1
    ensures Passes(v, h) && Idle(w, v) && Others(w, v, h) && v.handles[h] == y
  {
    NewestPasses(v, h);
  }

  /** Save and run the effect. */
  lemma SpentAt(ws: seq<World>, actions: seq<Action>, i: nat, h: nat, use: Op, id: Text)
    requires Follows(ws, actions) && i + 2 <= |actions| && actions[i] == Save(h) && actions[i + 1] == Effect(id)
    requires Tracked(ws[i]) && Passes(ws[i], h) && id in Durable(ws[i].handles[h])
    ensures UsedOnce(ws[i], ws[i + 2], h, id)
  {
    SaveAt(ws, actions, i, h);
    EffectAt(ws, actions, i + 1, id);
  }

  // ---------------------------------------------------------------- the kept handle

  /** The handle lost its only save when this many writes were stored, and continues this history. */
  predicate KeptSince(w: World, h: nat, stored: nat, history: seq<seq<Op>>) {
    && h in w.handles && w.handles[h].seen == history && w.handles[h].ops == [] && w.handles[h].lostAt == Some(stored)
  }

  lemma LoadAndLoseAt(ws: seq<World>, actions: seq<Action>, i: nat, h: nat)
    requires Follows(ws, actions) && i + 2 <= |actions| && OnFile(ws[i])
    requires actions[i] == Load(h) && actions[i + 1] == SaveFails(h, false)
    ensures OnFile(ws[i + 2]) && Idle(ws[i], ws[i + 2])
    ensures KeptSince(ws[i + 2], h, |ws[i].commits|, ws[i].history)
  {
    LoadAt(ws, actions, i, h);
    NewestPasses(ws[i + 1], h);
    LoseAt(ws, actions, i + 1, h);
  }

  /** Saving one commit later, such a handle brings the file back to what it had seen. */
  lemma StaleSaveAt(ws: seq<World>, actions: seq<Action>, i: nat, h: nat, history: seq<seq<Op>>)
    requires Follows(ws, actions) && i < |actions| && actions[i] == Save(h) && OnFile(ws[i])
    requires ws[i].commits != [] && KeptSince(ws[i], h, |ws[i].commits| - 1, history)
    ensures OnFile(ws[i + 1]) && Replay(ws[i + 1].history) == Replay(history) && ws[i + 1].effects == ws[i].effects
  {
    PassesExactly(ws[i], ws[i].handles[h]);
    SaveAt(ws, actions, i, h);
    ReplayExtends(history, []);
    assert ApplyAll(Replay(history), []) == Replay(history);
  }

  // ---------------------------------------------------------------- the run

  lemma CreateAt(ws: seq<World>, actions: seq<Action>, h: nat)
    requires Follows(ws, actions) && |actions| > 0 && ws[0] == INITIAL && actions[0] == Create(h)
    ensures Tracked(ws[1]) && ws[1] == INITIAL.(handles := map[h := Handle(FRESH, [], [], None)])
  {
    assert NextIs(ws, actions, 0);
    RunTracks([]);
    StepTracks(INITIAL, Create(h));
    assert map[][h := Handle(FRESH, [], [], None)] == map[h := Handle(FRESH, [], [], None)];
  }

  lemma SetupAt(ws: seq<World>, actions: seq<Action>, g: T.Grant)
    requires T.GrantOk(g) && Follows(ws, actions) && |actions| >= 3 && ws[0] == INITIAL
    requires actions[0] == Create(0) && actions[1] == Invoke(0, OpAddGrant(g)) && actions[2] == Save(0)
    ensures Unused(ws[3], g) && ws[3].effects == multiset{}
  {
    CreateAt(ws, actions, 0);
    InvokeAt(ws, actions, 1, 0, OpAddGrant(g));
    AddedPasses(ws[2], g);
    SaveAt(ws, actions, 2, 0);
    AddedReplays(g);
  }

  /** A fresh handle that was given the grant. */
  lemma AddedPasses(w: World, g: T.Grant)
    requires T.GrantOk(g) && 0 in w.handles && w.handles[0] == Called(Handle(FRESH, [], [], None), OpAddGrant(g))
    requires w.file.None?
    ensures Passes(w, 0) && w.handles[0].seen == [] && w.handles[0].ops == [OpAddGrant(g)]
  {
    assert [] + [OpAddGrant(g)] == [OpAddGrant(g)];
  }

  lemma AddedReplays(g: T.Grant)
    requires T.GrantOk(g)
    ensures Replay([] + [[OpAddGrant(g)]]) == Holding(g)
  {
    var op := OpAddGrant(g);
    ReplayExtends([], [op]);
    assert ButLast([op]) == [] && Last([op]) == op;
  }

  lemma LostThenUsedAt(ws: seq<World>, actions: seq<Action>, i: nat, g: T.Grant, use: Op)
    requires Follows(ws, actions) && i + 6 <= |actions| && Unused(ws[i], g) && ChargesTo(g, use, g.id)
    requires actions[i] == Load(1) && actions[i + 1] == SaveFails(1, false)
    requires actions[i + 2] == Load(2) && actions[i + 3] == Invoke(2, use)
    requires actions[i + 4] == Save(2) && actions[i + 5] == Effect(g.id)
    ensures OnFile(ws[i + 6]) && ws[i + 6].commits != [] && KeptSince(ws[i + 6], 1, |ws[i + 6].commits| - 1, ws[i].history)
    ensures ws[i + 6].effects == ws[i].effects + multiset{g.id}
  {
    LoadAndLoseAt(ws, actions, i, 1);
    UseAt(ws, actions, i + 2, 2, g, use, g.id);
    KeptStays(ws[i + 2], ws[i + 6], 1, 2, |ws[i].commits|, ws[i].history);
  }

  lemma KeptStays(w: World, v: World, h: nat, k: nat, stored: nat, history: seq<seq<Op>>)
    requires KeptSince(w, h, stored, history) && Others(w, v, k) && h != k
    ensures KeptSince(v, h, stored, history)
  {}

  lemma SavedThenUsedAt(ws: seq<World>, actions: seq<Action>, i: nat, g: T.Grant, use: Op, history: seq<seq<Op>>)
    requires Follows(ws, actions) && i + 5 <= |actions| && Replay(history) == Holding(g) && ChargesTo(g, use, g.id)
    requires OnFile(ws[i]) && ws[i].commits != [] && KeptSince(ws[i], 1, |ws[i].commits| - 1, history)
    requires actions[i] == Save(1) && actions[i + 1] == Load(3) && actions[i + 2] == Invoke(3, use)
    requires actions[i + 3] == Save(3) && actions[i + 4] == Effect(g.id)
    ensures ws[i + 5].effects == ws[i].effects + multiset{g.id}
  {
    StaleSaveAt(ws, actions, i, 1, history);
    UseAt(ws, actions, i + 1, 3, g, use, g.id);
  }

  predicate Planned(actions: seq<Action>, g: T.Grant, use: Op) {
    && |actions| == 14 && actions[0] == Create(0) && actions[1] == Invoke(0, OpAddGrant(g)) && actions[2] == Save(0)
    && actions[3] == Load(1) && actions[4] == SaveFails(1, false)
    && actions[5] == Load(2) && actions[6] == Invoke(2, use) && actions[7] == Save(2) && actions[8] == Effect(g.id)
    && actions[9] == Save(1)
    && actions[10] == Load(3) && actions[11] == Invoke(3, use) && actions[12] == Save(3) && actions[13] == Effect(g.id)
  }

  lemma SpendsTwice(ws: seq<World>, actions: seq<Action>, g: T.Grant, use: Op)
    requires T.GrantOk(g) && ChargesTo(g, use, g.id)
    requires Planned(actions, g, use) && Follows(ws, actions) && ws[0] == INITIAL
    ensures ws[14].effects == multiset{g.id, g.id}
  {
    SetupAt(ws, actions, g);
    LostThenUsedAt(ws, actions, 3, g, use);
    SavedThenUsedAt(ws, actions, 9, g, use, ws[3].history);
  }

  lemma ServedCharges(g: T.Grant, q: Request)
    requires Serves(g, q)
    ensures ChargesTo(g, OpEvaluate(q, true), g.id)
  {
    var ops := [OpEvaluate(q, true)];
    assert ButLast(ops) == [] && Last(ops) == OpEvaluate(q, true);
  }

  lemma PlanIs(g: T.Grant, use: Op)
    ensures Planned(SpendTwice(g, use), g, use)
  {}

  lemma PlanSpends(actions: seq<Action>, g: T.Grant, use: Op)
    requires Planned(actions, g, use) && T.GrantOk(g) && ChargesTo(g, use, g.id)
    ensures Run(actions).effects == multiset{g.id, g.id}
  {
    WorldsFollow(actions);
    SpendsTwice(Worlds(actions), actions, g, use);
  }

  /** Two effects under one grant, one more than the limit if that is a single use. */
  lemma GrantSpentTwice(g: T.Grant, q: Request)
    requires Serves(g, q)
    ensures var effects := Run(SpendTwice(g, OpEvaluate(q, true))).effects[g.id];
      effects == 2 && (g.maxUses == Some(1) ==> effects > g.maxUses.value)
  {
    ServedCharges(g, q);
    PlanIs(g, OpEvaluate(q, true));
    PlanSpends(SpendTwice(g, OpEvaluate(q, true)), g, OpEvaluate(q, true));
  }

  // ---------------------------------------------------------------- such grants exist

  const SINGLE_USE := T.Grant(Lit("g"), Lit("p"), T.AnyActor, T.Action(Lit("/a"), None), None, None, [], None, None, Some(1))

  const ASK := Request(
    T.Operation(T.Action(Lit("/a"), None), T.Resource(Lit("k"), Lit("r"), None), None, None),
    T.Ingress(Lit("i"), Lit("p"), Lit("ref"), None), None, 0)

  lemma SingleUseServes()
    ensures Serves(SINGLE_USE, ASK)
  {
    var s, d := Holding(SINGLE_USE), DemandOf(ASK);
    assert ButLast(s.grants) == [] && Last(s.grants) == SINGLE_USE;
    assert Lit("/a")[0] == 47 && Lit("/a") != Lit("/pay") && !StartsWith(Lit("/a"), Lit("/pay"));
    assert T.GrantMatches(SINGLE_USE, d, false);
    assert ScanGrants(s, s.grants, d, 0, None).hits == [SINGLE_USE];
  }
}
