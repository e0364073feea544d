/**
 * Processing Events (src/store/privacy-events.ts, src/privacy/model.ts): durable evidence of one
 * attempt each. Preparing is idempotent; SUCCEEDED and FAILED_FINAL are never overwritten.
 */
module PrivacyEvents {
  import opened Basics
  import opened Canonical

  datatype EventState = EventPrepared | EventSucceeded | EventFailed | EventUnknown

  /** The activity, the lawful basis and the profile a privacy decision rests on. */
  datatype Basis = Basis(activityId: Text, basisId: Text, profileId: Text, profileRevision: Text)

  /** The trusted processing context; `rest` holds what no rule of this model reads. */
  datatype Processing = Processing(
    authorityPrincipal: Text, actor: Text, action: Text, resourceKind: Text, resourceId: Text, purpose: Text,
    subject: Text, controller: Text, rest: Val)

  /** The stable input an event id is derived from, standing for that id (the digest is injective). */
  datatype EventId = EventId(attemptRef: Text, basis: Basis, processing: Processing, termsDigest: Text, citations: seq<Text>)

  datatype EventRecord = EventRecord(state: EventState, finalizedAt: Option<int>, evidenceRef: Option<Text>)

  type Events = map<EventId, EventRecord>

  /** How a durable write can fail: before anything is stored, or after. */
  datatype Fault = Fine | FailsBefore | FailsAfter

  const OPENED := EventRecord(EventPrepared, None, None)

  function PrepareIn(events: Events, id: EventId): Events {
    if id in events then events else events[id := OPENED]
  }

  /** None is a throw: unknown event, terminal evidence, a bad time. */
  function TransitionIn(events: Events, id: EventId, to: EventState, at: int, evidenceRef: Option<Text>): Option<Events> {
    if id !in events then None
    else
      var current := events[id];
      if current.state != EventPrepared && current.state == to then Some(events)
      else if current.state == EventSucceeded || current.state == EventFailed then None
      else if current.state == EventUnknown && to != EventSucceeded && to != EventFailed then None
      else if at < 0 then None
      else Some(events[id := EventRecord(to, Some(at), if evidenceRef.Some? then evidenceRef else current.evidenceRef)])
  }

  predicate AttemptRefOk(t: Text) {
    1 <= |t| <= 200 && forall c :: c in t ==> SafeChar(c)
  }

  class EventStore {
    var records: Events

    constructor ()
      ensures records == map[]
    {
      records := map[];
    }

    /** None is a throw; `fault` also stands for a malformed subject and for a full store. */
    method Prepare(id: EventId, fault: Fault) returns (event: Option<EventRecord>)
      modifies this
      ensures AttemptRefOk(id.attemptRef) ==>
        && records == (if fault.FailsBefore? then old(records) else PrepareIn(old(records), id))
        && event == if fault.Fine? then Some(records[id]) else None
      ensures !AttemptRefOk(id.attemptRef) ==> event.None? && records == old(records)
    {
      if !AttemptRefOk(id.attemptRef) || fault.FailsBefore? { return None; }
      if id !in records { records := records[id := OPENED]; }
      event := if fault.Fine? then Some(records[id]) else None;
    }

    /** `to` is never EventPrepared. */
    method Transition(id: EventId, to: EventState, at: int, evidenceRef: Option<Text>, fault: Fault) returns (ok: bool)
      modifies this
      ensures var next := TransitionIn(old(records), id, to, at, evidenceRef);
        && records == (if next.None? || fault.FailsBefore? then old(records) else next.value)
        && ok == (next.Some? && fault.Fine?)
    {
      if id !in records || fault.FailsBefore? { return false; }
      var current := records[id];
      if current.state != EventPrepared {
        if current.state == to { return fault.Fine?; }
        if current.state != EventUnknown || (to != EventSucceeded && to != EventFailed) { return false; }
      }
      if at < 0 { return false; }
      records := records[id := EventRecord(to, Some(at), if evidenceRef.Some? then evidenceRef else current.evidenceRef)];
      ok := fault.Fine?;
    }
  }

  predicate Final(e: EventRecord) { e.state == EventSucceeded || e.state == EventFailed }

  /** Neither preparing nor finalizing ever rewrites terminal evidence. */
  lemma FinalEvidenceStays(events: Events, id: EventId, other: EventId, to: EventState, at: int, evidenceRef: Option<Text>)
    requires id in events && Final(events[id])
    ensures id in PrepareIn(events, other) && PrepareIn(events, other)[id] == events[id]
    ensures var next := TransitionIn(events, other, to, at, evidenceRef);
      next.Some? ==> id in next.value && next.value[id] == events[id]
  {}
}
