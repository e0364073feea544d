/**
 * Any number of handles on one authority file, in any interleaving, with writes that fail: what the
 * file contains after every run, exactly when no update is lost, and what a lost one costs.
 */
module StoreRuns {
  import opened Basics
  import opened Canonical
  import opened AuthorityTerms
  import opened AuthorityState
  import opened AuthorityLaws
  import opened AuthoritySnapshots
  import opened AuthorityStore

  // ---------------------------------------------------------------- the world

  /**
   * A handle, the stored commits its content continues, and the calls made on it since. `lostAt` is
   * how many commits were stored when its last lost write stamped it with the next revision.
   */
  datatype Handle = Handle(state: State, seen: seq<seq<Op>>, ops: seq<Op>, lostAt: Option<nat>)

  /**
   * `commits` lists the calls of every stored write in order; `history` lists those that the file's
   * content contains. Uses made durable by a successful save are `ready` for one effect each; those
   * stored by a save that threw are `burned`. Which handle runs an effect is left open.
   */
  datatype World = World(
    file: Option<Snapshot>, handles: map<nat, Handle>, commits: seq<seq<Op>>, history: seq<seq<Op>>,
    ready: multiset<Text>, effects: multiset<Text>, burned: multiset<Text>)

  const INITIAL := World(None, map[], [], [], multiset{}, multiset{}, multiset{})

  datatype Action =
    | Create(h: nat)
    | Load(h: nat)
    | Invoke(h: nat, op: Op)
    | Save(h: nat)
    | SaveFails(h: nat, stored: bool)
    | Discard(h: nat)
    | Effect(id: Text)

  function ChargeOf(s: State, op: Op): multiset<Text> {
    if op.OpEvaluate? && op.consume && Evaluate(s, op.request).Some? && Evaluate(s, op.request).value.Allow?
    then multiset{Evaluate(s, op.request).value.authorityId}
    else multiset{}
  }

  /** The ids charged while a sequence of calls runs from a state. */
  function Charges(s: State, ops: seq<Op>): multiset<Text> {
    if ops == [] then multiset{} else
      Charges(s, ButLast(ops)) + ChargeOf(ApplyAll(s, ButLast(ops)), Last(ops))
  }

  /** The content a single client builds by making the calls, commit by commit. */
  function Replay(history: seq<seq<Op>>): State {
    if history == [] then FRESH else ApplyAll(Replay(ButLast(history)), Last(history))
  }

  function WithStamp(s: State, rev: int, lineage: bool): State { s.(revision := rev, lineage := lineage) }

  /** The write reaches the file. */
  predicate Stores(a: Action) { a.Save? || (a.SaveFails? && a.stored) }

  predicate Passes(w: World, h: nat) { h in w.handles && Saved(w.file, w.handles[h].state).Some? }

  /** A write that reaches the file, whether the caller learns of it or not. */
  function Stored(w: World, h: nat): World
    requires Passes(w, h)
  {
    var handle := w.handles[h];
    var s := Saved(w.file, handle.state).value;
    var history := handle.seen + [handle.ops];
    w.(file := Some(TakeSnapshot(s)), handles := w.handles[h := Handle(s, history, [], None)],
       commits := w.commits + [handle.ops], history := history)
  }

  /** The uses that a save of this handle makes durable. */
  function Durable(handle: Handle): multiset<Text> { Charges(Replay(handle.seen), handle.ops) }

  /** A call on the instance a handle holds. */
  function Invoked(x: Handle, op: Op): Handle { x.(state := Apply(x.state, op), ops := x.ops + [op]) }

  function Step(w: World, a: Action): World {
    match a
    case Create(h) => w.(handles := w.handles[h := Handle(FRESH, [], [], None)])
    case Load(h) =>
      if w.file.None? || Restore(w.file.value).None? then w
      else w.(handles := w.handles[h := Handle(Restore(w.file.value).value, w.history, [], None)])
    case Invoke(h, op) =>
      if h !in w.handles then w
      else
        w.(handles := w.handles[h := Invoked(w.handles[h], op)])
    case Save(h) => if !Passes(w, h) then w else Stored(w, h).(ready := w.ready + Durable(w.handles[h]))
    case SaveFails(h, stored) =>
      if !Passes(w, h) then w
      else if stored then Stored(w, h).(burned := w.burned + Durable(w.handles[h]))
      else
        var handle := w.handles[h];
        w.(handles := w.handles[h := handle.(state := Saved(w.file, handle.state).value, lostAt := Some(|w.commits|))])
    case Discard(h) => w.(handles := w.handles - {h})
    case Effect(id) =>
      if id !in w.ready then w
      else w.(ready := w.ready - multiset{id}, effects := w.effects + multiset{id})
  }

  function Run(actions: seq<Action>): World {
    if actions == [] then INITIAL else Step(Run(ButLast(actions)), Last(actions))
  }

  // ---------------------------------------------------------------- calls do not look at the stamp

  lemma {:induction false} ScanGrantsRestamped(s: State, t: State, xs: seq<Grant>, d: Demand, now: int, miss: Option<Miss>)
    requires s.revoked == t.revoked && s.used == t.used
    ensures ScanGrants(s, xs, d, now, miss) == ScanGrants(t, xs, d, now, miss)
    decreases |xs|
  {
    if xs == [] {
    } else {
      ScanGrantsRestamped(s, t, ButLast(xs), d, now, miss);
    }
  }

  lemma {:induction false} ScanHitsRestamped(s: State, t: State, xs: seq<Approval>, now: int, blocked: Option<Decision>)
    requires s.revoked == t.revoked && s.used == t.used
    ensures ScanHits(s, xs, now, blocked) == ScanHits(t, xs, now, blocked)
    decreases |xs|
  {
    if xs == [] {
    } else {
      ScanHitsRestamped(s, t, ButLast(xs), now, blocked);
    }
  }

  lemma EvaluateRestamped(s: State, q: Request, rev: int, lineage: bool)
    ensures Evaluate(WithStamp(s, rev, lineage), q) == Evaluate(s, q)
  {
    var t, d := WithStamp(s, rev, lineage), DemandOf(q);
    var scan := ScanApprovals(s.approvals, d);
    ScanGrantsRestamped(s, t, s.grants, d, q.now, scan.miss);
    ScanHitsRestamped(s, t, scan.hits, q.now, ScanGrants(s, s.grants, d, q.now, scan.miss).blocked);
  }

  lemma RegisteredRestamped(s: State, id: Text, rev: int, lineage: bool)
    ensures Registered(WithStamp(s, rev, lineage), id) == Registered(s, id)
    ensures PolicyId(WithStamp(s, rev, lineage), id) == PolicyId(s, id)
  {}

  lemma RegisterRestamped(s: State, op: Op, rev: int, lineage: bool)
    requires op.OpAddGrant? || op.OpAddApproval? || op.OpCreateApproval? || op.OpAddPolicy?
    ensures Apply(WithStamp(s, rev, lineage), op) == WithStamp(Apply(s, op), rev, lineage)
  {
    match op
    case OpAddGrant(g) => RegisteredRestamped(s, g.id, rev, lineage);
    case OpAddApproval(x) => RegisteredRestamped(s, x.id, rev, lineage);
    case OpCreateApproval(p, now) => RegisteredRestamped(s, p.id, rev, lineage);
    case OpAddPolicy(p) => RegisteredRestamped(s, p.id, rev, lineage);
  }

  lemma ConsumedRestamped(s: State, r: Decision, rev: int, lineage: bool)
    ensures Consumed(WithStamp(s, rev, lineage), r) == WithStamp(Consumed(s, r), rev, lineage)
  {}

  lemma EvaluatingRestamped(s: State, q: Request, consume: bool, rev: int, lineage: bool)
    ensures AfterEvaluate(WithStamp(s, rev, lineage), q, consume) == WithStamp(AfterEvaluate(s, q, consume), rev, lineage)
  {
    EvaluateRestamped(s, q, rev, lineage);
    var r := Evaluate(s, q);
    if consume && r.Some? { ConsumedRestamped(s, r.value, rev, lineage); }
  }

  lemma ApplyRestamped(s: State, op: Op, rev: int, lineage: bool)
    ensures Apply(WithStamp(s, rev, lineage), op) == WithStamp(Apply(s, op), rev, lineage)
  {
    match op
    case OpEvaluate(q, consume) => EvaluatingRestamped(s, q, consume, rev, lineage);
    case OpRevoke(id, _) => RegisteredRestamped(s, id, rev, lineage);
    case OpDisablePolicy(id) => RegisteredRestamped(s, id, rev, lineage);
    case OpPrune(_) =>
    case OpNoteIssued(_, _) =>
    case _ => RegisterRestamped(s, op, rev, lineage);
  }

  // ---------------------------------------------------------------- calls only add uses

  lemma ApplyCharges(s: State, op: Op, id: Text)
    ensures Uses(Apply(s, op), id) == Uses(s, id) + ChargeOf(s, op)[id]
  {
    if op.OpEvaluate? && op.consume { ConsumeChargesCited(s, op.request, id); }
  }

  lemma {:induction false} RunCharges(s: State, ops: seq<Op>, id: Text)
    ensures Uses(ApplyAll(s, ops), id) == Uses(s, id) + Charges(s, ops)[id]
    decreases |ops|
  {
    if ops == [] {
    } else {
      RunCharges(s, ButLast(ops), id);
      ApplyCharges(ApplyAll(s, ButLast(ops)), Last(ops), id);
    }
  }

  lemma ReplayExtends(history: seq<seq<Op>>, ops: seq<Op>)
    ensures Replay(history + [ops]) == ApplyAll(Replay(history), ops)
  {
    assert ButLast(history + [ops]) == history && Last(history + [ops]) == ops;
  }

  lemma CommitCharges(history: seq<seq<Op>>, ops: seq<Op>, id: Text)
    ensures Uses(Replay(history + [ops]), id) == Uses(Replay(history), id) + Charges(Replay(history), ops)[id]
  {
    ReplayExtends(history, ops);
    RunCharges(Replay(history), ops, id);
  }

  /** Uses recorded by a prefix of a history are never taken back by the rest of it. */
  lemma {:induction false} ReplayedUsesGrow(history: seq<seq<Op>>, n: nat, id: Text)
    requires n <= |history|
    ensures Uses(Replay(history[..n]), id) <= Uses(Replay(history), id)
    decreases |history|
  {
    if n == |history| {
      assert history[..n] == history;
    } else {
      ReplayedUsesGrow(ButLast(history), n, id);
      assert ButLast(history)[..n] == history[..n] && history == ButLast(history) + [Last(history)];
      CommitCharges(ButLast(history), Last(history), id);
    }
  }

  lemma {:induction false} ReplayValid(history: seq<seq<Op>>)
    ensures Valid(Replay(history))
    decreases |history|
  {
    if history == [] {
      FreshValid();
    } else {
      ReplayValid(ButLast(history));
      RunKeepsValid(Replay(ButLast(history)), Last(history));
    }
  }

  // ---------------------------------------------------------------- the invariant of every run

  /** The file is the replay of its history, stamped by the number of stored writes. */
  predicate FileIsReplay(w: World) {
    && w.file == (if w.commits == [] then None else Some(TakeSnapshot(Stamp(Replay(w.history), |w.commits| - 1))))
    && |w.history| <= |w.commits|
    && (w.history == [] <==> w.commits == [])
  }

  /** A handle that has not lost a write since it was created, loaded or stored. */
  predicate Steady(w: World, x: Handle) {
    && x.lostAt.None?
    && (!x.state.lineage ==> x.state.revision == 0 && x.seen == [])
    && (x.state.lineage ==> 0 <= x.state.revision < |w.commits| && |x.seen| <= x.state.revision + 1)
    && (x.state.lineage && x.state.revision == |w.commits| - 1 ==> x.seen == w.history)
  }

  /** A handle kept after a lost write: it already wears the stamp of a write that never happened. */
  predicate Adrift(w: World, x: Handle) {
    && x.lostAt.Some? && x.state.lineage
    && x.state.revision == x.lostAt.value <= |w.commits| && |x.seen| <= x.lostAt.value
  }

  predicate Tracks(w: World, x: Handle) {
    && x.state == WithStamp(ApplyAll(Replay(x.seen), x.ops), x.state.revision, x.state.lineage)
    && (Steady(w, x) || Adrift(w, x))
  }

  predicate Tracked(w: World) {
    FileIsReplay(w) && forall h :: h in w.handles ==> Tracks(w, w.handles[h])
  }

  /** Which handles get past the revision rule: the newest ones, and those adrift by exactly one commit. */
  lemma PassesExactly(w: World, x: Handle)
    requires FileIsReplay(w) && (Steady(w, x) || Adrift(w, x))
    ensures Saved(w.file, x.state).Some? <==>
      if x.lostAt.Some? then |w.commits| == x.lostAt.value + 1
      else if x.state.lineage then x.state.revision == |w.commits| - 1 else w.commits == []
    ensures Saved(w.file, x.state).Some? ==> Saved(w.file, x.state).value == Stamp(x.state, |w.commits|)
    ensures Saved(w.file, x.state).Some? && x.lostAt.None? ==> x.seen == w.history
  {}

  /** What storing leaves in the file and in the handle. */
  lemma StoredContent(w: World, x: Handle)
    requires FileIsReplay(w) && Tracks(w, x) && Saved(w.file, x.state).Some?
    ensures Saved(w.file, x.state).value == Stamp(Replay(x.seen + [x.ops]), |w.commits|)
    ensures |x.seen| <= |w.commits|
  {
    PassesExactly(w, x);
    ReplayExtends(x.seen, x.ops);
  }

  /** A handle is as it was after somebody else's write, except that it is no longer the newest. */
  lemma OthersStay(w: World, v: World, x: Handle)
    requires Tracks(w, x) && |v.commits| == |w.commits| + 1
    ensures Tracks(v, x)
  {}

  /** The handle that stored is the newest one. */
  lemma StorerTracks(w: World, h: nat)
    requires FileIsReplay(w) && Passes(w, h) && Tracks(w, w.handles[h])
    ensures FileIsReplay(Stored(w, h)) && Tracks(Stored(w, h), Stored(w, h).handles[h])
  {
    var x := w.handles[h];
    StoredContent(w, x);
    assert ApplyAll(Replay(x.seen + [x.ops]), []) == Replay(x.seen + [x.ops]);
  }

  lemma StoringTracks(w: World, h: nat)
    requires Tracked(w) && Passes(w, h)
    ensures Tracked(Stored(w, h))
  {
    var v := Stored(w, h);
    StorerTracks(w, h);
    forall k | k in v.handles ensures Tracks(v, v.handles[k]) {
      if k != h { OthersStay(w, v, w.handles[k]); }
    }
  }

  lemma LostTracks(w: World, x: Handle)
    requires FileIsReplay(w) && Tracks(w, x) && Saved(w.file, x.state).Some?
    ensures Tracks(w, x.(state := Saved(w.file, x.state).value, lostAt := Some(|w.commits|)))
  {
    PassesExactly(w, x);
  }

  /** Giving a name a tracked handle keeps everything tracked. */
  lemma PutTracks(w: World, h: nat, x: Handle)
    requires Tracked(w) && Tracks(w, x)
    ensures Tracked(w.(handles := w.handles[h := x]))
  {
    var v := w.(handles := w.handles[h := x]);
    forall k | k in v.handles ensures Tracks(v, v.handles[k]) {
      assert k != h ==> v.handles[k] == w.handles[k];
    }
  }

  lemma PutTracksAs(w: World, h: nat, x: Handle, v: World)
    requires Tracked(w) && Tracks(w, x) && v == w.(handles := w.handles[h := x])
    ensures Tracked(v)
  {
    PutTracks(w, h, x);
  }

  lemma InvokingTracks(w: World, x: Handle, op: Op)
    requires Tracks(w, x)
    ensures Tracks(w, Invoked(x, op))
  {
    ApplyRestamped(ApplyAll(Replay(x.seen), x.ops), op, x.state.revision, x.state.lineage);
    assert ButLast(x.ops + [op]) == x.ops && Last(x.ops + [op]) == op;
  }

  /** Reading the file back gives the replay of its history under its stamp. */
  lemma FileRestores(w: World)
    requires FileIsReplay(w) && w.file.Some?
    ensures Restore(w.file.value) == Some(Stamp(Replay(w.history), |w.commits| - 1))
  {
    ReplayValid(w.history);
    StampKeepsValid(Replay(w.history), |w.commits| - 1);
    RestoreIsIdentity(Stamp(Replay(w.history), |w.commits| - 1));
  }

  lemma CreatingTracks(w: World)
    ensures Tracks(w, Handle(FRESH, [], [], None))
  {
    assert ApplyAll(Replay([]), []) == FRESH;
  }

  lemma LoadingTracks(w: World)
    requires FileIsReplay(w) && w.file.Some?
    ensures Restore(w.file.value).Some? && Tracks(w, Handle(Restore(w.file.value).value, w.history, [], None))
  {
    FileRestores(w);
    assert ApplyAll(Replay(w.history), []) == Replay(w.history);
  }

  /** What is ready, spent or burned does not matter to the handles. */
  lemma TrackedAlike(u: World, v: World)
    requires Tracked(u)
    requires u.file == v.file && u.handles == v.handles && u.commits == v.commits && u.history == v.history
    ensures Tracked(v)
  {}

  lemma SaveTracks(w: World, a: Action)
    requires Tracked(w) && (a.Save? || a.SaveFails?)
    ensures Tracked(Step(w, a))
  {
    if Passes(w, a.h) {
      if Stores(a) {
        StoringTracks(w, a.h);
        TrackedAlike(Stored(w, a.h), Step(w, a));
      } else {
        var x := w.handles[a.h];
        LostTracks(w, x);
        PutTracks(w, a.h, x.(state := Saved(w.file, x.state).value, lostAt := Some(|w.commits|)));
      }
    }
  }

  lemma InvokeTracks(w: World, h: nat, op: Op)
    requires Tracked(w)
    ensures Tracked(Step(w, Invoke(h, op)))
  {
    if h in w.handles {
      InvokingTracks(w, w.handles[h], op);
      PutTracksAs(w, h, Invoked(w.handles[h], op), Step(w, Invoke(h, op)));
    }
  }

  lemma LoadTracks(w: World, h: nat)
    requires Tracked(w)
    ensures Tracked(Step(w, Load(h)))
  {
    if w.file.Some? {
      LoadingTracks(w);
      PutTracks(w, h, Handle(Restore(w.file.value).value, w.history, [], None));
    }
  }

  lemma DiscardTracks(w: World, h: nat)
    requires Tracked(w)
    ensures Tracked(Step(w, Discard(h)))
  {}

  lemma StepTracks(w: World, a: Action)
    requires Tracked(w)
    ensures Tracked(Step(w, a))
  {
    match a
    case Create(h) => CreatingTracks(w); PutTracks(w, h, Handle(FRESH, [], [], None));
    case Load(h) => LoadTracks(w, h);
    case Invoke(h, op) => InvokeTracks(w, h, op);
    case Save(_) => SaveTracks(w, a);
    case SaveFails(_, _) => SaveTracks(w, a);
    case Discard(h) => DiscardTracks(w, h);
    case Effect(_) => TrackedAlike(w, Step(w, a));
  }

  lemma {:induction false} RunTracks(actions: seq<Action>)
    ensures Tracked(Run(actions))
    decreases |actions|
  {
    if actions == [] {
    } else {
      RunTracks(ButLast(actions));
      StepTracks(Run(ButLast(actions)), Last(actions));
    }
  }

  // ---------------------------------------------------------------- exactly when an update is lost

  /** A handle kept after a lost write saves when exactly one write has been stored since. */
  predicate StaleSave(w: World, a: Action) {
    && Stores(a) && a.h in w.handles && w.handles[a.h].lostAt.Some?
    && |w.commits| == w.handles[a.h].lostAt.value + 1
  }

  predicate NoStaleSave(actions: seq<Action>) {
    actions != [] ==> NoStaleSave(ButLast(actions)) && !StaleSave(Run(ButLast(actions)), Last(actions))
  }

  /** The file contains every write ever stored. */
  predicate Intact(w: World) { w.history == w.commits }

  /** One step: only a stale save loses what the file had, and what is lost is never made up for. */
  lemma StepLoses(w: World, a: Action)
    requires Tracked(w)
    ensures var v := Step(w, a);
      && (StaleSave(w, a) ==> |v.history| < |v.commits|)
      && (!StaleSave(w, a) ==> |v.commits| - |v.history| == |w.commits| - |w.history|)
      && (!StaleSave(w, a) && Intact(w) ==> Intact(v))
  {
    if Stores(a) && a.h in w.handles {
      PassesExactly(w, w.handles[a.h]);
    }
  }

  lemma {:induction false} LosesExactly(actions: seq<Action>)
    ensures NoStaleSave(actions) ==> Intact(Run(actions))
    ensures !NoStaleSave(actions) ==> |Run(actions).history| < |Run(actions).commits|
    decreases |actions|
  {
    if actions == [] {
    } else {
      LosesExactly(ButLast(actions));
      RunTracks(ButLast(actions));
      StepLoses(Run(ButLast(actions)), Last(actions));
    }
  }

  /**
   * For every run, failing writes and kept handles included: the file contains every stored write,
   * in order, if and only if no handle saved after a lost write with exactly one write stored since.
   */
  lemma NoLostUpdateExactly(actions: seq<Action>)
    ensures Intact(Run(actions)) <==> NoStaleSave(actions)
  {
    LosesExactly(actions);
  }

  /** A failed handle is created anew, reloaded or discarded before it is used again. */
  predicate Disciplined(actions: seq<Action>) {
    actions != [] ==>
      && Disciplined(ButLast(actions))
      && (var w, a := Run(ButLast(actions)), Last(actions);
          (a.Invoke? || a.Save? || a.SaveFails?) && a.h in w.handles ==> w.handles[a.h].lostAt.None?)
  }

  lemma {:induction false} DisciplineSuffices(actions: seq<Action>)
    requires Disciplined(actions)
    ensures NoStaleSave(actions)
    decreases |actions|
  {
    if actions == [] {
    } else {
      DisciplineSuffices(ButLast(actions));
    }
  }

  // ---------------------------------------------------------------- one sequential history

  /** However handles interleave and writes fail, the file is the replay of its history. */
  lemma {:induction false} StoreIsReplay(actions: seq<Action>)
    ensures var w := Run(actions);
      && (w.file.None? <==> w.commits == [])
      && (w.file.Some? ==>
            && w.file.value.revision == |w.commits| - 1
            && Restore(w.file.value) == Some(Stamp(Replay(w.history), |w.commits| - 1)))
  {
    RunTracks(actions);
    if Run(actions).file.Some? { FileRestores(Run(actions)); }
  }

  /** A stored file loads unless the audit history was recorded under a later revision. */
  lemma {:induction false} LoadsExactly(actions: seq<Action>, audit: Option<seq<Option<Val>>>)
    ensures var w := Run(actions); Loads(w.file, audit) <==> w.commits != [] && Fresh(audit, |w.commits| - 1)
  {
    StoreIsReplay(actions);
  }

  /** Rollback detection: an earlier file is refused once a line was recorded under the newest revision. */
  lemma {:induction false} RollbackIsRefused(
    actions: seq<Action>, earlier: seq<Action>, lines: seq<Option<Val>>, line: Option<Val>)
    requires |Run(earlier).commits| < |Run(actions).commits|
    requires line in lines && |Run(actions).commits| - 1 in References(line)
    ensures !Loads(Run(earlier).file, Some(lines))
  {
    StoreIsReplay(actions);
    LoadsExactly(earlier, Some(lines));
  }

  /**
   * Without a stale save the file is what one client would have left by making every committed call
   * in commit order: revisions count the commits and no commit is lost.
   */
  lemma {:induction false} StoreIsSerial(actions: seq<Action>)
    requires NoStaleSave(actions)
    ensures var w := Run(actions);
      w.file == if w.commits == [] then None else Some(TakeSnapshot(Stamp(Replay(w.commits), |w.commits| - 1)))
  {
    RunTracks(actions);
    NoLostUpdateExactly(actions);
  }

  // ---------------------------------------------------------------- uses and effects

  /** Every use ever stored: spent on an effect, ready for one, or burned by a save that threw. */
  function Spent(w: World, id: Text): nat { w.effects[id] + w.ready[id] + w.burned[id] }

  /** The uses the file records. */
  function Recorded(w: World, id: Text): int { Uses(Replay(w.history), id) }

  lemma StepSpends(w: World, a: Action, id: Text)
    requires Tracked(w)
    ensures var v := Step(w, a);
      Spent(v, id) == Spent(w, id) + if Stores(a) && Passes(w, a.h) then Durable(w.handles[a.h])[id] else 0
  {}

  /** A step that is not a stale save adds to the record exactly what it spends. */
  lemma StepBalances(w: World, a: Action, id: Text)
    requires Tracked(w) && !StaleSave(w, a)
    ensures var v := Step(w, a); Spent(v, id) - Recorded(v, id) == Spent(w, id) - Recorded(w, id)
  {
    StepSpends(w, a, id);
    if Stores(a) && Passes(w, a.h) {
      PassesExactly(w, w.handles[a.h]);
      CommitCharges(w.history, w.handles[a.h].ops, id);
    }
  }

  lemma {:induction false} RunBalances(actions: seq<Action>, id: Text)
    requires NoStaleSave(actions)
    ensures Spent(Run(actions), id) == Recorded(Run(actions), id)
    decreases |actions|
  {
    if actions == [] {
    } else {
      RunBalances(ButLast(actions), id);
      RunTracks(ButLast(actions));
      StepBalances(Run(ButLast(actions)), Last(actions), id);
    }
  }

  /** Durable uses respect every limit, and effects never outnumber durable uses. */
  lemma EffectsWithinDurableUses(actions: seq<Action>, id: Text)
    requires NoStaleSave(actions)
    ensures var w := Run(actions);
      var s := Replay(w.commits);
      && w.effects[id] <= Uses(s, id)
      && (forall g :: g in s.grants && g.id == id && g.maxUses.Some? ==> Uses(s, id) <= g.maxUses.value)
      && (forall a :: a in s.approvals && a.id == id ==> Uses(s, id) <= a.maxUses)
  {
    RunBalances(actions, id);
    NoLostUpdateExactly(actions);
    ReplayValid(Run(actions).commits);
  }

  /** Both guarantees for hosts that reload or discard a handle whose write failed. */
  lemma DisciplinedHostsAreSafe(actions: seq<Action>, id: Text)
    requires Disciplined(actions)
    ensures Intact(Run(actions))
    ensures Run(actions).effects[id] <= Uses(Replay(Run(actions).commits), id)
  {
    DisciplineSuffices(actions);
    NoLostUpdateExactly(actions);
    EffectsWithinDurableUses(actions, id);
  }

  /** Committed uses are never taken back while no update is lost. */
  lemma DurableUsesGrow(actions: seq<Action>, n: nat, id: Text)
    requires NoStaleSave(actions) && n <= |Run(actions).commits|
    ensures Uses(Replay(Run(actions).commits[..n]), id) <= Recorded(Run(actions), id)
  {
    NoLostUpdateExactly(actions);
    ReplayedUsesGrow(Run(actions).history, n, id);
  }

  // ---------------------------------------------------------------- what a stale save costs

  /** In an intact world every handle continues a prefix of the commits. */
  predicate Prefixed(w: World) { forall h :: h in w.handles ==> w.handles[h].seen <= w.commits }

  lemma {:induction false} RunPrefixed(actions: seq<Action>)
    requires NoStaleSave(actions)
    ensures Prefixed(Run(actions))
    decreases |actions|
  {
    if actions == [] {
    } else {
      var w, a := Run(ButLast(actions)), Last(actions);
      RunPrefixed(ButLast(actions));
      RunTracks(ButLast(actions));
      NoLostUpdateExactly(ButLast(actions));
      StepPrefixed(w, a);
    }
  }

  lemma StepPrefixed(w: World, a: Action)
    requires Tracked(w) && Intact(w) && Prefixed(w) && !StaleSave(w, a)
    ensures Prefixed(Step(w, a))
  {
    if Stores(a) && Passes(w, a.h) {
      PassesExactly(w, w.handles[a.h]);
      StoredPrefixed(w, a.h);
    }
  }

  lemma StoredPrefixed(w: World, h: nat)
    requires Intact(w) && Prefixed(w) && Passes(w, h) && w.handles[h].seen == w.history
    ensures Prefixed(Stored(w, h))
  {}

  /** What a stale save does to the balance, in terms of what its handle had seen. */
  lemma StaleBalance(w: World, a: Action, id: Text)
    requires Tracked(w) && StaleSave(w, a)
    ensures var v, x := Step(w, a), w.handles[a.h];
      && v.history == x.seen + [x.ops]
      && Spent(v, id) - Recorded(v, id) == Spent(w, id) - Uses(Replay(x.seen), id)
  {
    PassesExactly(w, w.handles[a.h]);
    StepSpends(w, a, id);
    CommitCharges(w.handles[a.h].seen, w.handles[a.h].ops, id);
  }

  /**
   * The uses that stale saves have dropped from the record: what the file recorded minus what the
   * saving handle had seen, one term a stale save.
   */
  function Forgotten(actions: seq<Action>, id: Text): int {
    if actions == [] then 0
    else
      var w, a := Run(ButLast(actions)), Last(actions);
      Forgotten(ButLast(actions), id)
      + if StaleSave(w, a) then Recorded(w, id) - Uses(Replay(w.handles[a.h].seen), id) else 0
  }

  /** The account of every run: each stored use is on record or forgotten. */
  lemma {:induction false} RunAccounts(actions: seq<Action>, id: Text)
    ensures Spent(Run(actions), id) == Recorded(Run(actions), id) + Forgotten(actions, id)
    decreases |actions|
  {
    if actions == [] {
    } else {
      var w, a := Run(ButLast(actions)), Last(actions);
      RunAccounts(ButLast(actions), id);
      RunTracks(ButLast(actions));
      if StaleSave(w, a) { StaleBalance(w, a, id); } else { StepBalances(w, a, id); }
    }
  }

  /**
   * For every run, whatever fails and whoever keeps a handle: effects stay within the uses on record
   * if and only if the forgotten uses are covered by uses that have had no effect.
   */
  lemma {:induction false} EffectsWithinRecordExactly(actions: seq<Action>, id: Text)
    ensures var w := Run(actions);
      w.effects[id] <= Recorded(w, id) <==> Forgotten(actions, id) <= w.ready[id] + w.burned[id]
  {
    RunAccounts(actions, id);
  }

  /** Every use that the file or a handle continues has been stored. */
  ghost predicate Accounted(w: World, id: Text) {
    && Recorded(w, id) <= Spent(w, id)
    && forall h :: h in w.handles ==> Uses(Replay(w.handles[h].seen), id) <= Spent(w, id)
  }

  lemma StoredAccounted(w: World, a: Action, id: Text)
    requires Tracked(w) && Accounted(w, id) && Stores(a) && Passes(w, a.h)
    ensures Accounted(Step(w, a), id)
  {
    StepSpends(w, a, id);
    CommitCharges(w.handles[a.h].seen, w.handles[a.h].ops, id);
  }

  lemma StepAccounted(w: World, a: Action, id: Text)
    requires Tracked(w) && Accounted(w, id)
    ensures Accounted(Step(w, a), id)
  {
    if Stores(a) && Passes(w, a.h) { StoredAccounted(w, a, id); } else { StepSpends(w, a, id); }
  }

  lemma {:induction false} RunAccounted(actions: seq<Action>, id: Text)
    ensures Accounted(Run(actions), id)
    decreases |actions|
  {
    if actions == [] {
    } else {
      RunAccounted(ButLast(actions), id);
      RunTracks(ButLast(actions));
      StepAccounted(Run(ButLast(actions)), Last(actions), id);
    }
  }

  /** The file never records a use that was not stored, and forgets none while no save is stale. */
  lemma {:induction false} ForgottenIsLoss(actions: seq<Action>, id: Text)
    ensures Forgotten(actions, id) >= 0
    ensures NoStaleSave(actions) ==> Forgotten(actions, id) == 0
  {
    RunAccounts(actions, id);
    RunAccounted(actions, id);
    if NoStaleSave(actions) { RunBalances(actions, id); }
  }

  /**
   * What any stale save of any run costs: the file then continues what its handle had seen, and
   * every stored use outside that is forgotten. If it is the first of the run, these are the uses
   * of the commits after the ones the handle had seen.
   */
  lemma {:induction false} StaleSaveForgets(actions: seq<Action>, a: Action, id: Text)
    requires StaleSave(Run(actions), a)
    ensures var w := Run(actions);
      var v, seen := Step(w, a), w.handles[a.h].seen;
      && v.history == seen + [w.handles[a.h].ops]
      && Forgotten(actions + [a], id) == Spent(w, id) - Uses(Replay(seen), id) >= 0
      && (NoStaleSave(actions) ==>
            && seen <= w.commits && |seen| < |w.commits|
            && Forgotten(actions + [a], id) == Uses(Replay(w.commits), id) - Uses(Replay(seen), id))
  {
    var w := Run(actions);
    assert ButLast(actions + [a]) == actions && Last(actions + [a]) == a;
    RunTracks(actions);
    RunAccounted(actions, id);
    RunAccounts(actions, id);
    StaleBalance(w, a, id);
    if NoStaleSave(actions) { FirstStaleSave(actions, a, id); }
  }

  /** The handle of a first stale save continues a proper prefix of the commits. */
  lemma FirstStaleSave(actions: seq<Action>, a: Action, id: Text)
    requires NoStaleSave(actions) && StaleSave(Run(actions), a)
    ensures var w := Run(actions);
      && w.handles[a.h].seen <= w.commits && |w.handles[a.h].seen| < |w.commits|
      && Spent(w, id) == Uses(Replay(w.commits), id)
  {
    RunTracks(actions);
    RunPrefixed(actions);
    RunBalances(actions, id);
    NoLostUpdateExactly(actions);
  }

  /**
   * Exactly when a stale save of any run leaves more effects than uses on record: when the stored
   * uses its handle had not seen outnumber the ones still without an effect.
   */
  lemma {:induction false} StaleSaveDoubleSpends(actions: seq<Action>, a: Action, id: Text)
    requires StaleSave(Run(actions), a)
    ensures var w, v := Run(actions), Step(Run(actions), a);
      v.effects[id] > Recorded(v, id)
      <==> Spent(w, id) - Uses(Replay(w.handles[a.h].seen), id) > v.ready[id] + v.burned[id]
  {
    StaleSaveForgets(actions, a, id);
    EffectsWithinRecordExactly(actions + [a], id);
    assert ButLast(actions + [a]) == actions && Last(actions + [a]) == a;
  }
}
