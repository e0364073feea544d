/** The interop projection of the audit log and its verifier (src/adapters/audit-interop.ts). */
module AuditInterop {
  import opened Basics
  import opened Canonical
  import opened Audit

  datatype Record = Record(
    jti: Text, seq_: int, at: int, sub: Text, action: Text,
    authorityId: Option<Text>, capabilityId: Option<Text>, detail: Option<Text>, prev: Text)

  datatype Fault = BadSeq | BadPrev | BadHash | Keyed | BadJti | BadShape

  datatype Verdict = Fine | Faulty(reason: Fault, atSeq: Option<int>)

  function TextOf(e: LogEntry, k: Text): Option<Text>
    requires TextIfPresent(e, k)
  {
    if k in e then Some(e[k].text) else None
  }

  /** The fields a projection copies; every other field is dropped. */
  const PROJECTED: seq<Text> := KEYS[..8] + [HASH]

  /** None is a throw. */
  function Project(e: LogEntry): Option<Record>
    requires Shaped(e)
  {
    if e[SEQ].num < 0 || |HashOf(e)| < 16 || e[PREV_HASH].text == [] then None
    else if e[ACTOR].text == [] || e[ACTION].text == [] then None
    else
      Some(Record(HashOf(e), e[SEQ].num, e[AT].num, e[ACTOR].text, e[ACTION].text,
                  TextOf(e, AUTHORITY_ID), TextOf(e, CAPABILITY_ID), TextOf(e, DETAIL), e[PREV_HASH].text))
  }

  predicate ShapeValid(r: Record) { r.jti != [] && r.prev != [] && r.sub != [] && r.action != [] }

  function RecordEvent(r: Record): Event {
    Event(Some(r.at), r.sub, r.action, r.authorityId, r.capabilityId, r.detail, None, None, None, None, None)
  }

  /** The entry body a record stands for. */
  function RecordBody(r: Record): LogEntry {
    BodyOf(RecordEvent(r), r.seq_, r.prev, 0)
  }

  function RecordEntry(r: Record): LogEntry { RecordBody(r)[HASH := VStr(r.jti)] }

  function PrevOf(rs: seq<Record>): Text { if rs == [] then GENESIS else Last(rs).jti }

  function Judge(digest: Val -> Text, r: Record, i: int, prev: Text, seen: set<Text>): Verdict {
    if !ShapeValid(r) then Faulty(BadShape, Some(i))
    else if r.seq_ != i then Faulty(BadSeq, Some(r.seq_))
    else if r.prev != prev then Faulty(BadPrev, Some(r.seq_))
    else if r.jti in seen then Faulty(BadJti, Some(r.seq_))
    else if EntryHash(digest, r.prev, RecordBody(r)) != r.jti then Faulty(BadHash, Some(r.seq_))
    else Fine
  }

  function Seen(rs: seq<Record>): set<Text> { set r | r in rs :: r.jti }

  /** The first fault decides. */
  function Verdicts(digest: Val -> Text, rs: seq<Record>): Verdict {
    if rs == [] then Fine
    else
      var before := Verdicts(digest, ButLast(rs));
      if before.Faulty? then before else Judge(digest, Last(rs), |rs| - 1, PrevOf(ButLast(rs)), Seen(ButLast(rs)))
  }

  method VerifyInteropChain(digest: Val -> Text, rs: seq<Record>, keyed: bool) returns (v: Verdict)
    ensures v == if keyed then Faulty(Keyed, None) else Verdicts(digest, rs)
  {
    if keyed { return Faulty(Keyed, None); }
    var prev := GENESIS;
    var seen: set<Text> := {};
    for i := 0 to |rs|
      invariant Verdicts(digest, rs[..i]) == Fine && prev == PrevOf(rs[..i]) && seen == Seen(rs[..i])
    {
      var r := rs[i];
      assert ButLast(rs[..i + 1]) == rs[..i] && Last(rs[..i + 1]) == r;
      v := Judge(digest, r, i, prev, seen);
      if v.Faulty? {
        FaultStays(digest, rs, i + 1);
        return;
      }
      seen := seen + {r.jti};
      prev := r.jti;
    }
    assert rs[..|rs|] == rs;
    return Fine;
  }

  lemma {:induction false} FaultStays(digest: Val -> Text, rs: seq<Record>, n: nat)
    requires n <= |rs| && Verdicts(digest, rs[..n]).Faulty?
    ensures Verdicts(digest, rs) == Verdicts(digest, rs[..n])
    decreases |rs|
  {
    if n == |rs| {
      assert rs[..n] == rs;
    } else {
      assert ButLast(rs)[..n] == rs[..n];
      FaultStays(digest, ButLast(rs), n);
    }
  }

  // ---------------------------------------------------------------- records stand for entries

  function Rebuilt(rs: seq<Record>): (es: seq<LogEntry>)
    ensures |es| == |rs|
  {
    seq(|rs|, i requires 0 <= i < |rs| => RecordEntry(rs[i]))
  }

  lemma RecordEntryIs(r: Record)
    ensures var e := RecordEntry(r);
      && Shaped(e) && e[SEQ] == VNum(r.seq_) && e[PREV_HASH] == VStr(r.prev) && e[HASH] == VStr(r.jti)
      && Body(e) == RecordBody(r)
  {
    SealedShape(RecordEvent(r), r.seq_, r.prev, 0, r.jti);
  }

  lemma RebuiltShaped(rs: seq<Record>)
    ensures AllShaped(Rebuilt(rs))
  {
    forall e | e in Rebuilt(rs) ensures Shaped(e) {
      var i :| 0 <= i < |rs| && Rebuilt(rs)[i] == e;
      RecordEntryIs(rs[i]);
    }
  }

  predicate AllShapeValid(rs: seq<Record>) { forall r :: r in rs ==> ShapeValid(r) }

  /** One well-shaped record passes exactly when its entry is the next link and its hash is new. */
  lemma JudgesLink(digest: Val -> Text, r: Record, i: nat, prev: Text, seen: set<Text>)
    requires ShapeValid(r)
    ensures Shaped(RecordEntry(r))
    ensures Judge(digest, r, i, prev, seen).Fine? <==> Linked(digest, RecordEntry(r), i, prev) && r.jti !in seen
  {
    RecordEntryIs(r);
  }

  /** The verifier accepts well-shaped records exactly when the entries they stand for are a chain. */
  lemma {:induction false} AcceptsChains(digest: Val -> Text, rs: seq<Record>)
    requires Injective(digest) && AllShapeValid(rs)
    ensures AllShaped(Rebuilt(rs))
    ensures Verdicts(digest, rs).Fine? <==> Chained(digest, Rebuilt(rs))
    decreases |rs|
  {
    RebuiltShaped(rs);
    if rs == [] {
    } else {
      var front, r, es := ButLast(rs), Last(rs), Rebuilt(rs);
      AcceptsChains(digest, front);
      assert ButLast(es) == Rebuilt(front) && Last(es) == RecordEntry(r);
      PrevIsLastHash(front);
      JudgesLink(digest, r, |front|, PrevOf(front), Seen(front));
      if Chained(digest, es) { NotSeen(digest, rs); }
    }
  }

  lemma PrevIsLastHash(rs: seq<Record>)
    requires AllShaped(Rebuilt(rs))
    ensures PrevOf(rs) == LastHash(Rebuilt(rs))
  {
    if rs != [] {
      RecordEntryIs(Last(rs));
      assert Last(Rebuilt(rs)) == RecordEntry(Last(rs));
    }
  }

  lemma NotSeen(digest: Val -> Text, rs: seq<Record>)
    requires rs != [] && Injective(digest) && AllShaped(Rebuilt(rs)) && Chained(digest, Rebuilt(rs))
    ensures Last(rs).jti !in Seen(ButLast(rs))
  {
    var es := Rebuilt(rs);
    HashesDiffer(digest, ButLast(es), Last(es), |es| - 1, LastHash(ButLast(es)));
    forall r | r in ButLast(rs) ensures r.jti != Last(rs).jti {
      var i :| 0 <= i < |rs| - 1 && rs[i] == r;
      RecordEntryIs(r);
      RecordEntryIs(Last(rs));
      assert ButLast(es)[i] == RecordEntry(r) && Last(es) == RecordEntry(Last(rs));
    }
  }

  // ---------------------------------------------------------------- projections

  /** The entry has no field that the projection drops. */
  predicate OnlyProjected(e: LogEntry) { forall k :: k in e ==> k in PROJECTED }

  /** A projection's values are those of the entry, key by key. */
  lemma ProjectedValues(e: LogEntry)
    requires Shaped(e) && Project(e).Some?
    ensures var r := Project(e).value;
      forall i :: 0 <= i < 8 ==> Values(RecordEvent(r), r.seq_, r.prev, 0)[i] == Get(e, KEYS[i])
  {
    assert KEYS[0] == SEQ && KEYS[1] == PREV_HASH && KEYS[2] == AT && KEYS[3] == ACTOR && KEYS[4] == ACTION;
    assert KEYS[5] == AUTHORITY_ID && KEYS[6] == CAPABILITY_ID && KEYS[7] == DETAIL;
  }

  lemma SameProjected(e: LogEntry)
    requires Shaped(e) && Project(e).Some?
    ensures forall k :: k in PROJECTED ==> Get(RecordEntry(Project(e).value), k) == Get(e, k)
  {
    var r := Project(e).value;
    RecordValues(r);
    ProjectedValues(e);
    forall k | k in PROJECTED ensures Get(RecordEntry(r), k) == Get(e, k) {
      if k != HASH {
        var i :| 0 <= i < 8 && KEYS[i] == k;
      }
    }
  }

  /** A projection loses nothing exactly when the entry has only projected fields. */
  lemma ProjectRebuilds(e: LogEntry)
    requires Shaped(e) && Project(e).Some?
    ensures ShapeValid(Project(e).value)
    ensures RecordEntry(Project(e).value) == e <==> OnlyProjected(e)
  {
    var r := Project(e).value;
    RecordKeys(r);
    SameProjected(e);
    SameWhereProjected(RecordEntry(r), e);
  }

  lemma SameWhereProjected(a: LogEntry, b: LogEntry)
    requires OnlyProjected(a) && forall k :: k in PROJECTED ==> Get(a, k) == Get(b, k)
    ensures a == b <==> OnlyProjected(b)
  {
    if OnlyProjected(b) {
      forall k ensures Get(a, k) == Get(b, k) {}
      SameFields(a, b);
    }
  }

  lemma SameFields(a: LogEntry, b: LogEntry)
    requires forall k :: Get(a, k) == Get(b, k)
    ensures a == b
  {
    forall k ensures k in a <==> k in b { assert Get(a, k) == Get(b, k); }
    forall k | k in a ensures a[k] == b[k] { assert Get(a, k) == Get(b, k); }
  }

  lemma RecordValues(r: Record)
    ensures HASH !in RecordBody(r)
    ensures forall i :: 0 <= i < |KEYS| ==> Get(RecordEntry(r), KEYS[i]) == Values(RecordEvent(r), r.seq_, r.prev, 0)[i]
  {
    KeysDiffer();
    BodyFields(RecordEvent(r), r.seq_, r.prev, 0);
  }

  lemma RecordKeys(r: Record)
    ensures OnlyProjected(RecordEntry(r))
  {
    var e, values := RecordEntry(r), Values(RecordEvent(r), r.seq_, r.prev, 0);
    RecordValues(r);
    forall k | k in e ensures k in PROJECTED {
      if k != HASH {
        ObjectKeys(KEYS, values, k);
        var i :| 0 <= i < |KEYS| && KEYS[i] == k;
        assert values[i].Some? && i < 8;
        assert KEYS[..8][i] == k;
      }
    }
  }

  /** `rs` is the projection of the whole log. */
  predicate Projects(es: seq<LogEntry>, rs: seq<Record>)
    requires AllShaped(es)
  {
    |rs| == |es| && forall i :: 0 <= i < |es| ==> Project(es[i]) == Some(rs[i])
  }

  predicate AllProjected(es: seq<LogEntry>) { forall e :: e in es ==> OnlyProjected(e) }

  lemma ProjectionRebuilds(es: seq<LogEntry>, rs: seq<Record>)
    requires AllShaped(es) && Projects(es, rs)
    ensures AllShapeValid(rs)
    ensures Rebuilt(rs) == es <==> AllProjected(es)
  {
    forall i | 0 <= i < |es| ensures ShapeValid(rs[i]) && (RecordEntry(rs[i]) == es[i] <==> OnlyProjected(es[i])) {
      ProjectRebuilds(es[i]);
    }
    if Rebuilt(rs) == es {
      forall e | e in es ensures OnlyProjected(e) {
        var i :| 0 <= i < |es| && es[i] == e;
        assert Rebuilt(rs)[i] == es[i];
      }
    }
  }

  /**
   * For logs whose entries carry only projected fields, the interop verifier agrees with the log's
   * own. For a valid log it accepts exactly when no entry carries any other field.
   */
  lemma {:induction false} InteropAgrees(digest: Val -> Text, es: seq<LogEntry>, rs: seq<Record>)
    requires Injective(digest) && AllShaped(es) && Projects(es, rs)
    ensures AllProjected(es) ==> (Verdicts(digest, rs).Fine? <==> Chained(digest, es))
    ensures Chained(digest, es) ==> (Verdicts(digest, rs).Fine? <==> AllProjected(es))
  {
    ProjectionRebuilds(es, rs);
    AcceptsChains(digest, rs);
    if Chained(digest, es) && Verdicts(digest, rs).Fine? && es != [] {
      PrevIsLastHash(rs);
      assert LastHash(Rebuilt(rs)) == LastHash(es);
      LastHashFixesTheLog(digest, Rebuilt(rs), es);
    }
  }

  // ---------------------------------------------------------------- the first fault

  /** The record before this one, or the start. */
  function Before(rs: seq<Record>, i: nat): Text
    requires i < |rs|
  {
    if i == 0 then Lit("GENESIS") else rs[i - 1].jti
  }

  predicate FilledIn(r: Record) { r.jti != [] && r.prev != [] && r.sub != [] && r.action != [] }

  predicate Repeated(rs: seq<Record>, i: nat)
    requires i < |rs|
  {
    exists k :: 0 <= k < i && rs[k].jti == rs[i].jti
  }

  /** The hash of the entry that the record stands for, after the hash it names. */
  function Recomputed(digest: Val -> Text, r: Record): Text { digest(VObj(RecordBody(r))) }

  predicate InPlace(digest: Val -> Text, rs: seq<Record>, i: nat)
    requires i < |rs|
  {
    && FilledIn(rs[i]) && rs[i].seq_ == i && rs[i].prev == Before(rs, i) && !Repeated(rs, i)
    && rs[i].jti == Recomputed(digest, rs[i])
  }

  /** What is wrong with record i, the first of these that applies. */
  function Complaint(digest: Val -> Text, rs: seq<Record>, i: nat): (Fault, int)
    requires i < |rs|
  {
    if !FilledIn(rs[i]) then (BadShape, i)
    else if rs[i].seq_ != i then (BadSeq, rs[i].seq_)
    else if rs[i].prev != Before(rs, i) then (BadPrev, rs[i].seq_)
    else if Repeated(rs, i) then (BadJti, rs[i].seq_)
    else (BadHash, rs[i].seq_)
  }

  /** The entry a record stands for, field by field. */
  lemma RecordSays(r: Record)
    ensures Says(RecordBody(r), RecordEvent(r), r.seq_, r.prev, 0) && RecordBody(r)[PREV_HASH := VStr(r.prev)] == RecordBody(r)
    ensures forall k :: k in RecordBody(r) ==> k in FIELDS
  {
    BodySays(RecordEvent(r), r.seq_, r.prev, 0);
    BodyHasNoMore(RecordEvent(r), r.seq_, r.prev, 0);
  }

  lemma JudgeMeans(digest: Val -> Text, rs: seq<Record>, i: nat)
    requires i < |rs|
    ensures Judge(digest, rs[i], i, PrevOf(rs[..i]), Seen(rs[..i]))
         == if InPlace(digest, rs, i) then Fine
            else Faulty(Complaint(digest, rs, i).0, Some(Complaint(digest, rs, i).1))
  {
    RecordSays(rs[i]);
    assert i > 0 ==> Last(rs[..i]) == rs[i - 1];
    assert rs[i].jti in Seen(rs[..i]) <==> Repeated(rs, i) by {
      if r :| r in rs[..i] && r.jti == rs[i].jti {
        var k :| 0 <= k < i && rs[..i][k] == r;
        assert rs[k].jti == rs[i].jti;
      }
      if k :| 0 <= k < i && rs[k].jti == rs[i].jti { assert rs[..i][k] in rs[..i]; }
    }
  }

  /** The verdict is about the first record that is out of place, and says what is wrong with it. */
  lemma {:induction false} FirstFaultMeans(digest: Val -> Text, rs: seq<Record>)
    ensures Verdicts(digest, rs).Fine? <==> forall i :: 0 <= i < |rs| ==> InPlace(digest, rs, i)
    ensures Verdicts(digest, rs).Faulty? ==>
      exists i :: (
        && 0 <= i < |rs| && !InPlace(digest, rs, i) && (forall k :: 0 <= k < i ==> InPlace(digest, rs, k))
        && Verdicts(digest, rs) == Faulty(Complaint(digest, rs, i).0, Some(Complaint(digest, rs, i).1)))
    decreases |rs|
  {
    if rs == [] {
    } else {
      var front, n := ButLast(rs), |rs| - 1;
      FirstFaultMeans(digest, front);
      forall i | 0 <= i < n
        ensures InPlace(digest, rs, i) <==> InPlace(digest, front, i)
        ensures Complaint(digest, rs, i) == Complaint(digest, front, i)
      {
        Shorter(digest, rs, i);
      }
      JudgeMeans(digest, rs, n);
      assert rs[..n] == front;
    }
  }

  lemma Shorter(digest: Val -> Text, rs: seq<Record>, i: nat)
    requires i < |rs| - 1
    ensures InPlace(digest, rs, i) <==> InPlace(digest, ButLast(rs), i)
    ensures Complaint(digest, rs, i) == Complaint(digest, ButLast(rs), i)
  {
    assert forall k :: 0 <= k <= i ==> ButLast(rs)[k] == rs[k];
  }

  /** An entry is projected exactly when it is numbered, hashed and filled in, and then field by field. */
  lemma ProjectMeans(e: LogEntry)
    requires Shaped(e)
    ensures Project(e).Some? <==>
      && e[Lit("seq")].num >= 0 && |e[Lit("hash")].text| >= 16 && e[Lit("prevHash")].text != []
      && e[Lit("actor")].text != [] && e[Lit("action")].text != []
    ensures Project(e).Some? ==>
      var r := Project(e).value;
      && Holds(e, "hash", Some(VStr(r.jti))) && Holds(e, "seq", Some(VNum(r.seq_))) && Holds(e, "at", Some(VNum(r.at)))
      && Holds(e, "actor", Some(VStr(r.sub))) && Holds(e, "action", Some(VStr(r.action)))
      && Holds(e, "authorityId", TextVal(r.authorityId)) && Holds(e, "capabilityId", TextVal(r.capabilityId))
      && Holds(e, "detail", TextVal(r.detail)) && Holds(e, "prevHash", Some(VStr(r.prev)))
  {}
}
