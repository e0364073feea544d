/**
 * Reconciling one attempt's Processing Event from conclusive journal evidence
 * (`reconcileAttemptEvent`, src/privacy/runtime.ts).
 */
module Recovery {
  import opened Basics
  import opened Canonical
  import opened PrivacyEvents
  import opened Boundary
  import A = AuthorityState
  import BT = BoundaryTerms

  /**
   * `target` is EventSucceeded or EventFailed: what the journal proves. `prepare` and `finish` say how
   * the two durable writes end.
   */
  datatype Options = Options(
    termsDigest: Text, attemptRef: Text, target: EventState, finalizedAt: int, evidenceRef: Option<Text>,
    createIfMissing: bool, prepare: Fault, finish: Fault)

  datatype Answer = Finalized | Missing | Conflicting | Rejected

  function Matching(events: Events, digest: Text, ref: Text): set<EventId> {
    set id | id in events && id.termsDigest == digest && id.attemptRef == ref
  }

  /** The event was written for this request: everything but the open part of the context. */
  predicate SameIdentity(id: EventId, cfg: Config) {
    var p, q := id.processing, cfg.processing;
    && p.authorityPrincipal == cfg.ingress.principal && p.actor == cfg.ingress.id
    && p.subject == q.subject && p.controller == q.controller && p.action == q.action
    && p.resourceKind == q.resourceKind && p.resourceId == q.resourceId && p.purpose == q.purpose
  }

  datatype Result = Result(events: Events, answer: Answer)

  /** Only open states resolve. */
  function Resolve(events: Events, id: EventId, o: Options): Result
    requires id in events
  {
    var state := events[id].state;
    if state == o.target then Result(events, Finalized)
    else if state != EventPrepared && state != EventUnknown then Result(events, Conflicting)
    else
      var next := TransitionIn(events, id, o.target, o.finalizedAt, o.evidenceRef);
      if next.None? || o.finish.FailsBefore? then Result(events, Rejected)
      else Result(next.value, if o.finish.Fine? then Finalized else Rejected)
  }

  /** The citation the live authority can still prove, if any. */
  function Citations(auth: A.State, cfg: Config, now: int): seq<Text> {
    var d := A.Evaluate(auth, RequestAt(cfg, now));
    if d.Some? && d.value.Allow? then [d.value.authorityId] else []
  }

  function Rebuilt(events: Events, auth: A.State, cfg: Config, o: Options, privacy: PrivacyAnswer, now: int): Result {
    if LiveDigest(cfg) != o.termsDigest || !ContextMatches(cfg) || !privacy.Permits? then Result(events, Rejected)
    else
      var id := EventId(o.attemptRef, privacy.basis, cfg.processing, o.termsDigest, Citations(auth, cfg, now));
      if !AttemptRefOk(o.attemptRef) || o.prepare.FailsBefore? then Result(events, Rejected)
      else if o.prepare.FailsAfter? then Result(PrepareIn(events, id), Rejected)
      else Resolve(PrepareIn(events, id), id, o)
  }

  /** The one event of the attempt; more than one is ambiguous evidence. */
  function Reconciled(events: Events, auth: A.State, cfg: Config, o: Options, privacy: PrivacyAnswer, now: int): Result {
    var matches := Matching(events, o.termsDigest, o.attemptRef);
    if |matches| > 1 then Result(events, Rejected)
    else if matches == {} then
      if o.createIfMissing then Rebuilt(events, auth, cfg, o, privacy, now) else Result(events, Missing)
    else
      var id := Only(matches);
      if SameIdentity(id, cfg) then Resolve(events, id, o) else Result(events, Rejected)
  }

  function Only(s: set<EventId>): (id: EventId)
    requires |s| == 1
    ensures id in s && s == {id}
  {
    OnlyOne(s);
    var id :| id in s;
    id
  }

  lemma OnlyOne(s: set<EventId>)
    requires |s| == 1
    ensures forall a, b :: a in s && b in s ==> a == b
    ensures forall a :: a in s ==> s == {a}
  {
    forall a, b | a in s && b in s ensures a == b {
      assert |s - {a}| == 0;
      assert b !in s - {a};
    }
  }

  method ResolveNow(store: EventStore, id: EventId, o: Options) returns (answer: Answer)
    requires id in store.records
    modifies store
    ensures Result(store.records, answer) == Resolve(old(store.records), id, o)
  {
    var state := store.records[id].state;
    if state == o.target { return Finalized; }
    if state != EventPrepared && state != EventUnknown { return Conflicting; }
    var moved := store.Transition(id, o.target, o.finalizedAt, o.evidenceRef, o.finish);
    answer := if moved then Finalized else Rejected;
  }

  method ReconcileAttemptEvent(store: EventStore, auth: A.State, cfg: Config, o: Options, privacy: PrivacyAnswer, now: int)
    returns (answer: Answer)
    modifies store
    ensures Result(store.records, answer) == Reconciled(old(store.records), auth, cfg, o, privacy, now)
  {
    var matches := Matching(store.records, o.termsDigest, o.attemptRef);
    if |matches| > 1 { return Rejected; }
    if matches == {} {
      if !o.createIfMissing { return Missing; }
      if LiveDigest(cfg) != o.termsDigest || !ContextMatches(cfg) || !privacy.Permits? { return Rejected; }
      var id := EventId(o.attemptRef, privacy.basis, cfg.processing, o.termsDigest, Citations(auth, cfg, now));
      var event := store.Prepare(id, o.prepare);
      if event.None? { return Rejected; }
      answer := ResolveNow(store, id, o);
    } else {
      var id := Only(matches);
      if !SameIdentity(id, cfg) { return Rejected; }
      answer := ResolveNow(store, id, o);
    }
  }

  // ---------------------------------------------------------------- laws

  predicate Conclusive(o: Options) { o.target == EventSucceeded || o.target == EventFailed }

  /** Everything that was terminal is as it was, and nothing is lost. */
  predicate KeepsEvidence(before: Events, after: Events) {
    && (forall id :: id in before ==> id in after)
    && (forall id :: id in before && Final(before[id]) ==> after[id] == before[id])
  }

  lemma ResolveIs(events: Events, id: EventId, o: Options)
    requires id in events && Conclusive(o)
    ensures var r := Resolve(events, id, o);
      && KeepsEvidence(events, r.events) && r.events.Keys == events.Keys
      && (r.answer.Finalized? ==> r.events[id].state == o.target)
      && (o.finish.Fine? ==> (r.answer.Finalized? <==> r.events[id].state == o.target))
      && (!r.answer.Finalized? && !o.finish.FailsAfter? ==> r.events == events)
  {}

  lemma MatchingKeys(a: Events, b: Events, digest: Text, ref: Text)
    requires a.Keys == b.Keys
    ensures Matching(a, digest, ref) == Matching(b, digest, ref)
  {
    assert forall id :: id in a <==> id in a.Keys;
    assert forall id :: id in b <==> id in b.Keys;
  }

  /** The attempt has exactly one event and it is in this state. */
  predicate SettledAs(events: Events, o: Options, cfg: Config, state: EventState) {
    var matches := Matching(events, o.termsDigest, o.attemptRef);
    |matches| == 1 && (forall id :: id in matches ==> SameIdentity(id, cfg) && events[id].state == state)
  }

  lemma FoundSettles(events: Events, cfg: Config, o: Options, id: EventId)
    requires Conclusive(o) && Matching(events, o.termsDigest, o.attemptRef) == {id} && id in events && SameIdentity(id, cfg)
    ensures var r := Resolve(events, id, o);
      && KeepsEvidence(events, r.events)
      && (r.answer.Finalized? ==> SettledAs(r.events, o, cfg, o.target))
  {
    ResolveIs(events, id, o);
    MatchingKeys(events, Resolve(events, id, o).events, o.termsDigest, o.attemptRef);
  }

  /** Preparing the first event of an attempt makes it the only one. */
  lemma PreparedMatches(events: Events, id: EventId)
    requires Matching(events, id.termsDigest, id.attemptRef) == {}
    ensures Matching(PrepareIn(events, id), id.termsDigest, id.attemptRef) == {id}
    ensures KeepsEvidence(events, PrepareIn(events, id))
  {
    assert id !in Matching(events, id.termsDigest, id.attemptRef);
    forall k ensures k in Matching(PrepareIn(events, id), id.termsDigest, id.attemptRef) <==> k == id {
      if k != id { assert k !in Matching(events, id.termsDigest, id.attemptRef); }
    }
  }

  lemma RebuiltSettles(events: Events, auth: A.State, cfg: Config, o: Options, privacy: PrivacyAnswer, now: int)
    requires Conclusive(o) && Matching(events, o.termsDigest, o.attemptRef) == {}
    ensures var r := Rebuilt(events, auth, cfg, o, privacy, now);
      && KeepsEvidence(events, r.events)
      && (r.answer.Finalized? ==> SettledAs(r.events, o, cfg, o.target))
  {
    if LiveDigest(cfg) == o.termsDigest && ContextMatches(cfg) && privacy.Permits? {
      var id := EventId(o.attemptRef, privacy.basis, cfg.processing, o.termsDigest, Citations(auth, cfg, now));
      PreparedMatches(events, id);
      FoundSettles(PrepareIn(events, id), cfg, o, id);
    }
  }

  /**
   * "Finalized" means that the attempt has exactly one event, that it is this request's, and that it
   * says what the journal proved; evidence that was already terminal is never rewritten.
   */
  lemma ReconcileSettles(
    events: Events, auth: A.State, cfg: Config, o: Options, privacy: PrivacyAnswer, now: int)
    requires Conclusive(o)
    ensures var r := Reconciled(events, auth, cfg, o, privacy, now);
      && KeepsEvidence(events, r.events)
      && (r.answer.Finalized? ==> SettledAs(r.events, o, cfg, o.target))
  {
    var matches := Matching(events, o.termsDigest, o.attemptRef);
    if matches == {} {
      RebuiltSettles(events, auth, cfg, o, privacy, now);
    } else if |matches| == 1 {
      var id := Only(matches);
      if SameIdentity(id, cfg) { FoundSettles(events, cfg, o, id); }
    }
  }

  /** A settled attempt can be reconciled again to the same effect, and never to the opposite one. */
  lemma SettledForGood(
    events: Events, auth: A.State, cfg: Config, o: Options, privacy: PrivacyAnswer, now: int, state: EventState)
    requires Conclusive(o) && SettledAs(events, o, cfg, state) && (state == EventSucceeded || state == EventFailed)
    ensures Reconciled(events, auth, cfg, o, privacy, now)
         == Result(events, if o.target == state then Finalized else Conflicting)
  {
    var id := Only(Matching(events, o.termsDigest, o.attemptRef));
    assert id in Matching(events, o.termsDigest, o.attemptRef);
  }

  // ---------------------------------------------------------------- when an attempt is settled, written out

  /** The event was filed for this principal and actor, over this subject, by this controller, for this action. */
  predicate FiledFor(id: EventId, cfg: Config) {
    && id.processing.authorityPrincipal == cfg.ingress.principal && id.processing.actor == cfg.ingress.id
    && id.processing.subject == cfg.processing.subject && id.processing.controller == cfg.processing.controller
    && id.processing.action == cfg.processing.action && id.processing.purpose == cfg.processing.purpose
    && id.processing.resourceKind == cfg.processing.resourceKind && id.processing.resourceId == cfg.processing.resourceId
  }

  /** An event in this state ends up as the journal says, and the caller is told so. */
  predicate Settles(state: EventState, o: Options) {
    state == o.target || ((state == EventPrepared || state == EventUnknown) && o.finalizedAt >= 0 && o.finish.Fine?)
  }

  /** One event of the attempt: it must be this request's, and open or already settled this way. */
  lemma OneEventMeans(
    events: Events, auth: A.State, cfg: Config, o: Options, privacy: PrivacyAnswer, now: int, id: EventId)
    requires Conclusive(o) && id in events
    requires forall k :: k in events ==> (k.termsDigest == o.termsDigest && k.attemptRef == o.attemptRef <==> k == id)
    ensures var r := Reconciled(events, auth, cfg, o, privacy, now);
      && (r.answer.Finalized? <==> FiledFor(id, cfg) && Settles(events[id].state, o))
      && (!FiledFor(id, cfg) ==> r == Result(events, Rejected))
      && (r.answer.Conflicting? <==> FiledFor(id, cfg) && Final(events[id]) && events[id].state != o.target)
      && (r.answer.Finalized? && events[id].state != o.target ==>
            r.events == events[id := EventRecord(
              o.target, Some(o.finalizedAt), if o.evidenceRef.Some? then o.evidenceRef else events[id].evidenceRef)])
  {
    assert Matching(events, o.termsDigest, o.attemptRef) == {id};
  }

  /** The event that is written when there was none. */
  function NewEvent(auth: A.State, cfg: Config, o: Options, basis: Basis, now: int): EventId {
    EventId(o.attemptRef, basis, cfg.processing, BT.OperationDigest(cfg),
            if A.Evaluate(auth, BT.Asked(cfg, now)).Some? && A.Evaluate(auth, BT.Asked(cfg, now)).value.Allow?
            then [BT.IdAt(auth, cfg, now)] else [])
  }

  /** A new event settles, and holds what it was settled with. */
  lemma NewSettles(events: Events, id: EventId, o: Options)
    requires Conclusive(o) && id !in events
    ensures var r := Resolve(PrepareIn(events, id), id, o);
      && (r.answer.Finalized? <==> Settles(EventPrepared, o))
      && (r.answer.Finalized? ==> r.events == events[id := EventRecord(o.target, Some(o.finalizedAt), o.evidenceRef)])
  {}

  /** What rebuilding demands before it writes. */
  predicate Rebuildable(cfg: Config, o: Options, privacy: PrivacyAnswer) {
    && o.termsDigest == BT.OperationDigest(cfg) && BT.ProcessingIsFor(cfg) && privacy.Permits?
    && 1 <= |o.attemptRef| <= 200 && (forall c :: c in o.attemptRef ==> SafeChar(c))
    && o.prepare.Fine?
  }

  lemma RebuiltMeans(events: Events, auth: A.State, cfg: Config, o: Options, privacy: PrivacyAnswer, now: int)
    requires Conclusive(o) && (privacy.Permits? ==> NewEvent(auth, cfg, o, privacy.basis, now) !in events)
    ensures var r := Rebuilt(events, auth, cfg, o, privacy, now);
      if Rebuildable(cfg, o, privacy) then
        var id := NewEvent(auth, cfg, o, privacy.basis, now);
        id !in events && r == Resolve(PrepareIn(events, id), id, o)
      else r.answer.Rejected?
  {
    BT.RedemptionMeans(cfg);
  }

  /** No event of the attempt: one is written only on request, for this very operation, while privacy permits it. */
  lemma NoEventMeans(events: Events, auth: A.State, cfg: Config, o: Options, privacy: PrivacyAnswer, now: int)
    requires Conclusive(o)
    requires forall k :: k in events ==> !(k.termsDigest == o.termsDigest && k.attemptRef == o.attemptRef)
    ensures var r := Reconciled(events, auth, cfg, o, privacy, now);
      && (!o.createIfMissing ==> r == Result(events, Missing))
      && (r.answer.Finalized? <==> o.createIfMissing && Rebuildable(cfg, o, privacy) && Settles(EventPrepared, o))
      && (r.answer.Finalized? ==>
            r.events == events[NewEvent(auth, cfg, o, privacy.basis, now) :=
              EventRecord(o.target, Some(o.finalizedAt), o.evidenceRef)])
  {
    assert Matching(events, o.termsDigest, o.attemptRef) == {};
    if o.termsDigest == BT.OperationDigest(cfg) {
      RebuiltMeans(events, auth, cfg, o, privacy, now);
      if Rebuildable(cfg, o, privacy) { NewSettles(events, NewEvent(auth, cfg, o, privacy.basis, now), o); }
    } else {
      BT.RedemptionMeans(cfg);
    }
  }

  /** Two events of one attempt are ambiguous: nothing is decided and nothing changes. */
  lemma AmbiguousMeans(
    events: Events, auth: A.State, cfg: Config, o: Options, privacy: PrivacyAnswer, now: int, a: EventId, b: EventId)
    requires a in events && b in events && a != b && a.termsDigest == b.termsDigest == o.termsDigest
    requires a.attemptRef == b.attemptRef == o.attemptRef
    ensures Reconciled(events, auth, cfg, o, privacy, now) == Result(events, Rejected)
  {
    var matches := Matching(events, o.termsDigest, o.attemptRef);
    assert a in matches && b in matches;
    if |matches| == 1 { OnlyOne(matches); }
  }
}
