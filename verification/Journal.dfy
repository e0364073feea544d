/**
 * The durable execution journal (src/store/execution.ts): records, the transition map, and the
 * operations on a store directory. The directory is the sequence of its record files.
 */
module Journal {
  import opened Basics
  import opened Canonical

  type Bag = map<Text, Val>

  datatype ExecutionState =
    PREPARED | AUTHORIZED | SUBMITTING | SUBMITTED_UNKNOWN | SUCCEEDED | FAILED_FINAL | RECONCILED

  predicate Terminal(s: ExecutionState) {
    s == SUCCEEDED || s == FAILED_FINAL || s == RECONCILED
  }

  predicate CanTransition(from: ExecutionState, to: ExecutionState) {
    match from
    case PREPARED => to == AUTHORIZED || to == FAILED_FINAL
    case AUTHORIZED => to == SUBMITTING || to == FAILED_FINAL
    case SUBMITTING => to == SUCCEEDED || to == FAILED_FINAL || to == SUBMITTED_UNKNOWN
    case SUBMITTED_UNKNOWN => to == SUCCEEDED || to == SUBMITTING || to == RECONCILED
    case _ => false
  }

  datatype Terms = Terms(
    termsDigest: Text, action: Text, recipient: Text, resource: Text, purpose: Text, context: Bag)

  datatype Record = Record(
    executionId: Text, idempotencyKey: Text, capabilityId: Text, terms: Terms,
    state: ExecutionState, createdAt: int, updatedAt: int, attempts: int, maxAttempts: int,
    externalRef: Option<Text>, receiptId: Option<Text>, receiptAt: Option<int>,
    lastError: Option<Text>, reconciledAt: Option<int>)

  const MAX_EXECUTION_RECORDS := 5000

  // ---------------------------------------------------------------- idempotency keys

  predicate LowerAlnum(c: CodeUnit) { 48 <= c < 58 || 97 <= c <= 122 }

  predicate HexText(t: Text, least: nat, most: nat) {
    least <= |t| <= most && forall c :: c in t ==> LowerHex(c)
  }

  /** Sixteen to 128 hexadecimal digits, or a digest that stands for 64. */
  predicate DigestText(t: Text) { HexText(t, 16, 128) || Symbolic(t) }

  const DASH: CodeUnit := 45

  predicate ScopeText(t: Text) {
    1 <= |t| <= 64 && LowerAlnum(t[0]) && forall c :: c in t ==> LowerAlnum(c) || c == DASH
  }

  /** One key per terms digest and provider scope; None is a throw. */
  function DeriveIdempotencyKey(termsDigest: Text, scope: Text): Option<Text> {
    if !DigestText(termsDigest) || !ScopeText(scope) then None
    else Some(Lit("ptf-") + termsDigest + [DASH] + scope)
  }

  // ---------------------------------------------------------------- the directory as a value

  function Find(rs: seq<Record>, key: Text): Option<Record> {
    if rs == [] then None
    else if rs[0].idempotencyKey == key then Some(rs[0])
    else Find(rs[1..], key)
  }

  function ById(rs: seq<Record>, id: Text): Option<Record> {
    if rs == [] then None
    else if rs[0].executionId == id then Some(rs[0])
    else ById(rs[1..], id)
  }

  function Rewrite(rs: seq<Record>, r: Record): seq<Record> {
    if rs == [] then []
    else if rs[0].executionId == r.executionId then [r] + rs[1..]
    else [rs[0]] + Rewrite(rs[1..], r)
  }

  /** One file per execution id, and at most one record per idempotency key. */
  predicate Unique(rs: seq<Record>) {
    forall i, j :: 0 <= i < j < |rs| ==>
      rs[i].executionId != rs[j].executionId && rs[i].idempotencyKey != rs[j].idempotencyKey
  }

  datatype Patch = Patch(
    externalRef: Option<Text>, receiptId: Option<Text>, receiptAt: Option<int>,
    lastError: Option<Text>, reconciledAt: Option<int>)

  const NOTHING := Patch(None, None, None, None, None)

  function Note(s: string): Patch { NOTHING.(lastError := Some(Lit(s))) }

  function Over<T>(new_: Option<T>, old_: Option<T>): Option<T> {
    if new_.Some? then new_ else old_
  }

  /** The record a transition writes: SUBMITTING counts a provider attempt. */
  function Moved(r: Record, to: ExecutionState, p: Patch, now: int): Record {
    r.(state := to, updatedAt := now,
       attempts := if to == SUBMITTING then r.attempts + 1 else r.attempts,
       externalRef := Over(p.externalRef, r.externalRef),
       receiptId := Over(p.receiptId, r.receiptId),
       receiptAt := Over(p.receiptAt, r.receiptAt),
       lastError := Over(p.lastError, r.lastError),
       reconciledAt := Over(p.reconciledAt, r.reconciledAt))
  }

  predicate PatchOk(p: Patch) { p.lastError.Some? ==> |p.lastError.value| <= 256 }

  predicate TransitionOk(r: Record, to: ExecutionState, p: Patch) {
    CanTransition(r.state, to) && PatchOk(p)
  }

  datatype NewExecution = NewExecution(
    executionId: Text, idempotencyKey: Text, capabilityId: Text, terms: Terms, maxAttempts: Option<int>)

  predicate NewExecutionOk(x: NewExecution) {
    && HexText(x.executionId, 32, 32)
    && OrElse(x.maxAttempts, 3) >= 1
    && x.idempotencyKey != [] && x.capabilityId != [] && x.terms.termsDigest != [] && x.terms.action != []
    && x.terms.recipient != [] && x.terms.resource != [] && x.terms.purpose != []
  }

  function Prepared(x: NewExecution, now: int): Record {
    Record(x.executionId, x.idempotencyKey, x.capabilityId, x.terms, PREPARED, now, now, 0, OrElse(x.maxAttempts, 3),
           None, None, None, None, None)
  }

  const RESTARTED := Note("restart during submission: effect unknown")

  /** Restart recovery of one record. */
  function Recovered(r: Record, now: int): Record {
    if r.state == SUBMITTING then Moved(r, SUBMITTED_UNKNOWN, RESTARTED, now) else r
  }

  function AllRecovered(rs: seq<Record>, now: int): (out: seq<Record>)
    ensures |out| == |rs|
  {
    seq(|rs|, i requires 0 <= i < |rs| => Recovered(rs[i], now))
  }

  function Unsettled(rs: seq<Record>): seq<Record> {
    if rs == [] then []
    else if rs[|rs| - 1].state == SUBMITTED_UNKNOWN then Unsettled(rs[..|rs| - 1]) + [rs[|rs| - 1]]
    else Unsettled(rs[..|rs| - 1])
  }

  function CaughtOne(r: Record): multiset<Text> {
    if r.state == SUBMITTING then multiset{r.idempotencyKey} else multiset{}
  }

  /** The keys of records caught in SUBMITTING. */
  function Caught(rs: seq<Record>): multiset<Text> {
    if rs == [] then multiset{} else Caught(rs[..|rs| - 1]) + CaughtOne(rs[|rs| - 1])
  }

  /** The directory can take one more record under this id. */
  predicate Room(rs: seq<Record>, id: Text) {
    |rs| < MAX_EXECUTION_RECORDS && ById(rs, id).None?
  }

  /** The directory with its first `n` records recovered. */
  function RecoveredUpTo(rs: seq<Record>, n: nat, now: int): seq<Record>
    requires n <= |rs|
  {
    seq(|rs|, i requires 0 <= i < |rs| => if i < n then Recovered(rs[i], now) else rs[i])
  }

  datatype AbortReason = Cancelled | Frozen

  function AbortNote(why: AbortReason): Patch {
    if why.Cancelled? then Note("aborted: cancelled") else Note("aborted: frozen")
  }

  // ---------------------------------------------------------------- the transition map

  /** The listed transitions. */
  const EDGES: set<(ExecutionState, ExecutionState)> :=
    {(PREPARED, AUTHORIZED), (PREPARED, FAILED_FINAL), (AUTHORIZED, SUBMITTING), (AUTHORIZED, FAILED_FINAL),
     (SUBMITTING, SUCCEEDED), (SUBMITTING, FAILED_FINAL), (SUBMITTING, SUBMITTED_UNKNOWN),
     (SUBMITTED_UNKNOWN, SUCCEEDED), (SUBMITTED_UNKNOWN, SUBMITTING), (SUBMITTED_UNKNOWN, RECONCILED)}

  /** The states a record goes through, from its creation on. */
  predicate Path(p: seq<ExecutionState>) {
    p != [] && p[0] == PREPARED && forall i :: 0 < i < |p| ==> CanTransition(p[i - 1], p[i])
  }

  lemma EdgesMean(from: ExecutionState, to: ExecutionState)
    ensures CanTransition(from, to) <==> (from, to) in EDGES
    ensures Terminal(from) <==> forall s :: (from, s) !in EDGES
  {
    if !Terminal(from) {
      var s := if from == PREPARED then AUTHORIZED else if from == AUTHORIZED then SUBMITTING else SUCCEEDED;
      assert (from, s) in EDGES;
    }
  }

  /**
   * Every path is cleared and submitted before anything can be known of an effect, ends where it is
   * final, and can fail for good only before a submission or straight out of one.
   */
  lemma {:induction false} PathsMean(p: seq<ExecutionState>, i: nat)
    requires Path(p) && i < |p|
    ensures Terminal(p[i]) ==> i == |p| - 1
    ensures p[i] != PREPARED && p[i] != AUTHORIZED && p[i] != FAILED_FINAL ==> i >= 2 && p[1] == AUTHORIZED && p[2] == SUBMITTING
    ensures p[i] == FAILED_FINAL ==> i > 0 && (p[i - 1] == SUBMITTING || i == 1 || (i == 2 && p[1] == AUTHORIZED))
    ensures p[i] == PREPARED ==> i == 0
    ensures p[i] == AUTHORIZED ==> i == 1
    decreases i
  {
    if i > 0 {
      PathsMean(p, i - 1);
      assert CanTransition(p[i - 1], p[i]);
    }
    if i + 1 < |p| { assert CanTransition(p[i], p[i + 1]); }
  }

  // ---------------------------------------------------------------- laws of the directory

  lemma {:induction false} FindIs(rs: seq<Record>, i: nat)
    requires Unique(rs) && i < |rs|
    ensures Find(rs, rs[i].idempotencyKey) == Some(rs[i])
    ensures ById(rs, rs[i].executionId) == Some(rs[i])
  {
    if i == 0 {
    } else {
      assert rs[0].idempotencyKey != rs[i].idempotencyKey && rs[0].executionId != rs[i].executionId;
      UniqueTail(rs);
      FindIs(rs[1..], i - 1);
    }
  }

  lemma UniqueTail(rs: seq<Record>)
    requires Unique(rs) && rs != []
    ensures Unique(rs[1..])
  {
    forall i, j | 0 <= i < j < |rs[1..]|
      ensures rs[1..][i].executionId != rs[1..][j].executionId && rs[1..][i].idempotencyKey != rs[1..][j].idempotencyKey
    {
      assert rs[i + 1].executionId != rs[j + 1].executionId;
    }
  }

  lemma {:induction false} FoundIn(rs: seq<Record>, key: Text)
    ensures Find(rs, key).Some? ==> Find(rs, key).value in rs && Find(rs, key).value.idempotencyKey == key
    ensures Find(rs, key).None? ==> forall r :: r in rs ==> r.idempotencyKey != key
  {
    if rs == [] {
    } else {
      FoundIn(rs[1..], key);
      assert rs == [rs[0]] + rs[1..];
    }
  }

  lemma {:induction false} ByIdIn(rs: seq<Record>, id: Text)
    ensures ById(rs, id).Some? ==> ById(rs, id).value in rs && ById(rs, id).value.executionId == id
    ensures ById(rs, id).None? ==> forall r :: r in rs ==> r.executionId != id
  {
    if rs == [] {
    } else {
      ByIdIn(rs[1..], id);
      assert rs == [rs[0]] + rs[1..];
    }
  }

  /** Where the record of a key sits, and that it is the only one. */
  lemma Locate(rs: seq<Record>, r: Record) returns (i: nat)
    requires r in rs
    ensures i < |rs| && rs[i] == r
  {
    i :| 0 <= i < |rs| && rs[i] == r;
  }

  lemma {:induction false} RewriteAt(rs: seq<Record>, i: nat, r: Record)
    requires Unique(rs) && i < |rs| && r.executionId == rs[i].executionId
    ensures Rewrite(rs, r) == rs[i := r]
  {
    if i == 0 {
    } else {
      assert rs[0].executionId != rs[i].executionId;
      UniqueTail(rs);
      RewriteAt(rs[1..], i - 1, r);
    }
  }

  lemma UniqueUpdate(rs: seq<Record>, i: nat, r: Record)
    requires Unique(rs) && i < |rs| && r.executionId == rs[i].executionId && r.idempotencyKey == rs[i].idempotencyKey
    ensures Unique(rs[i := r])
  {
    var s := rs[i := r];
    forall a, b | 0 <= a < b < |s|
      ensures s[a].executionId != s[b].executionId && s[a].idempotencyKey != s[b].idempotencyKey
    {
      assert rs[a].executionId != rs[b].executionId && rs[a].idempotencyKey != rs[b].idempotencyKey;
    }
  }

  lemma {:induction false} FindSame(rs: seq<Record>, ss: seq<Record>, key: Text)
    requires |rs| == |ss|
    requires forall i :: 0 <= i < |rs| ==> rs[i].idempotencyKey == ss[i].idempotencyKey
    requires forall i :: 0 <= i < |rs| && rs[i].idempotencyKey == key ==> rs[i] == ss[i]
    ensures Find(rs, key) == Find(ss, key)
  {
    if rs == [] {
    } else {
      assert forall i :: 0 <= i < |rs[1..]| ==> rs[1..][i] == rs[i + 1] && ss[1..][i] == ss[i + 1];
      FindSame(rs[1..], ss[1..], key);
    }
  }

  /** Rewriting one record changes what its key finds, and nothing else. */
  lemma RewriteFinds(rs: seq<Record>, old_: Record, r: Record)
    requires Unique(rs) && old_ in rs
    requires r.executionId == old_.executionId && r.idempotencyKey == old_.idempotencyKey
    ensures Unique(Rewrite(rs, r)) && |Rewrite(rs, r)| == |rs|
    ensures Find(Rewrite(rs, r), r.idempotencyKey) == Some(r)
    ensures forall k :: k != r.idempotencyKey ==> Find(Rewrite(rs, r), k) == Find(rs, k)
    ensures r in Rewrite(rs, r)
  {
    var i := Locate(rs, old_);
    RewriteAt(rs, i, r);
    UniqueUpdate(rs, i, r);
    FindIs(rs[i := r], i);
    assert rs[i := r][i] == r;
    forall k | k != r.idempotencyKey ensures Find(rs[i := r], k) == Find(rs, k) {
      FindSame(rs, rs[i := r], k);
    }
  }

  lemma {:induction false} FindAppend(rs: seq<Record>, r: Record, key: Text)
    ensures Find(rs + [r], key)
         == if Find(rs, key).Some? then Find(rs, key) else if r.idempotencyKey == key then Some(r) else None
  {
    if rs == [] {
    } else {
      assert (rs + [r])[1..] == rs[1..] + [r];
      FindAppend(rs[1..], r, key);
    }
  }

  lemma AppendUnique(rs: seq<Record>, r: Record)
    requires Unique(rs) && Find(rs, r.idempotencyKey).None? && ById(rs, r.executionId).None?
    ensures Unique(rs + [r])
  {
    FoundIn(rs, r.idempotencyKey);
    ByIdIn(rs, r.executionId);
    var s := rs + [r];
    forall i, j | 0 <= i < j < |s|
      ensures s[i].executionId != s[j].executionId && s[i].idempotencyKey != s[j].idempotencyKey
    {
      if j == |rs| { assert s[i] == rs[i] && rs[i] in rs; }
    }
  }

  // ---------------------------------------------------------------- what is written, field by field

  /** What a new execution must bring, and when the directory has room for it. */
  lemma CreationMeans(rs: seq<Record>, x: NewExecution)
    ensures NewExecutionOk(x) <==>
      && |x.executionId| == 32 && (forall c :: c in x.executionId ==> '0' as int <= c <= '9' as int || 'a' as int <= c <= 'f' as int)
      && (x.maxAttempts.Some? ==> x.maxAttempts.value >= 1)
      && x.idempotencyKey != [] && x.capabilityId != []
      && [] !in [x.terms.termsDigest, x.terms.action, x.terms.recipient, x.terms.resource, x.terms.purpose]
    ensures Room(rs, x.executionId) <==> |rs| < 5000 && forall r :: r in rs ==> r.executionId != x.executionId
  {
    ByIdIn(rs, x.executionId);
    var ts := [x.terms.termsDigest, x.terms.action, x.terms.recipient, x.terms.resource, x.terms.purpose];
    assert ts[0] in ts && ts[1] in ts && ts[2] in ts && ts[3] in ts && ts[4] in ts;
  }

  /** The field after a transition: the new value if one is given. */
  predicate Becomes<T(==)>(after: Option<T>, before: Option<T>, given: Option<T>) {
    if given.Some? then after == given else after == before
  }

  /** A transition keeps who and what the record is for, stamps state and time, and counts submissions. */
  lemma MovedMeans(r: Record, to: ExecutionState, p: Patch, now: int)
    ensures var m := Moved(r, to, p, now);
      && m.executionId == r.executionId && m.idempotencyKey == r.idempotencyKey && m.capabilityId == r.capabilityId
      && m.terms == r.terms && m.createdAt == r.createdAt && m.maxAttempts == r.maxAttempts
      && m.state == to && m.updatedAt == now && m.attempts == r.attempts + (if to == SUBMITTING then 1 else 0)
      && Becomes(m.externalRef, r.externalRef, p.externalRef) && Becomes(m.receiptId, r.receiptId, p.receiptId)
      && Becomes(m.receiptAt, r.receiptAt, p.receiptAt) && Becomes(m.lastError, r.lastError, p.lastError)
      && Becomes(m.reconciledAt, r.reconciledAt, p.reconciledAt)
  {}

  /** What an abort and a restart write. */
  lemma NotesMean(r: Record, now: int)
    ensures Moved(r, FAILED_FINAL, AbortNote(Cancelled), now)
         == r.(state := FAILED_FINAL, updatedAt := now, lastError := Some(Lit("aborted: cancelled")))
    ensures Moved(r, FAILED_FINAL, AbortNote(Frozen), now)
         == r.(state := FAILED_FINAL, updatedAt := now, lastError := Some(Lit("aborted: frozen")))
    ensures Recovered(r, now) == if r.state != SUBMITTING then r else
      r.(state := SUBMITTED_UNKNOWN, updatedAt := now, lastError := Some(Lit("restart during submission: effect unknown")))
  {}

  /** What the recovery loop has done after `n` records. */
  predicate RecoveredSoFar(
    rs: seq<Record>, n: nat, now: int, records: seq<Record>, out: seq<Record>, moved: multiset<Text>)
  {
    && n <= |rs|
    && records == RecoveredUpTo(rs, n, now)
    && out == Unsettled(AllRecovered(rs, now)[..n])
    && moved == Caught(rs[..n])
  }

  lemma RecoverTurn(rs: seq<Record>, n: nat, now: int, records: seq<Record>, out: seq<Record>, moved: multiset<Text>)
    requires RecoveredSoFar(rs, n, now, records, out, moved) && n < |rs|
    ensures records[n] == rs[n]
    ensures var r := Recovered(rs[n], now);
      RecoveredSoFar(rs, n + 1, now, records[n := r], out + if r.state == SUBMITTED_UNKNOWN then [r] else [],
                     moved + CaughtOne(rs[n]))
  {
    var all := AllRecovered(rs, now);
    assert rs[..n + 1][..n] == rs[..n] && all[..n + 1][..n] == all[..n];
  }

  lemma RecoverDone(
    rs: seq<Record>, now: int, records: seq<Record>, out: seq<Record>, moved: multiset<Text>)
    requires RecoveredSoFar(rs, |rs|, now, records, out, moved)
    ensures records == AllRecovered(rs, now) && out == Unsettled(records) && moved == Caught(rs)
  {
    assert AllRecovered(rs, now)[..|rs|] == AllRecovered(rs, now) && rs[..|rs|] == rs;
  }

  // ---------------------------------------------------------------- the store

  class JournalStore {
    var records: seq<Record>
    /** Transitions written so far, counted by idempotency key. */
    ghost var moves: multiset<Text>

    ghost predicate Valid()
      reads this
    {
      Unique(records)
    }

    constructor ()
      ensures Valid() && records == [] && moves == multiset{}
    {
      records := [];
      moves := multiset{};
    }

    /** One pass serves lookup and the capacity count. */
    method ScanExecutions(key: Text) returns (found: Option<Record>, count: nat)
      ensures found == Find(records, key) && count == |records|
    {
      found := None;
      count := 0;
      for i := 0 to |records|
        invariant count == i
        invariant found.Some? ==> found == Find(records, key)
        invariant found.None? ==> Find(records, key) == Find(records[i..], key)
      {
        count := count + 1;
        assert records[i..][1..] == records[i + 1..];
        if found.None? && records[i].idempotencyKey == key { found := Some(records[i]); }
      }
    }

    /** None is a throw. An existing record with the same key is returned instead of a duplicate. */
    method CreateExecution(x: NewExecution, now: int) returns (r: Option<Record>)
      requires Valid()
      modifies this
      ensures Valid() && moves == old(moves)
      ensures r.Some? <==>
        NewExecutionOk(x) && (old(Find(records, x.idempotencyKey)).Some? || old(Room(records, x.executionId)))
      ensures r.None? || old(Find(records, x.idempotencyKey)).Some? ==> records == old(records)
      ensures r.Some? && old(Find(records, x.idempotencyKey)).Some? ==> r == old(Find(records, x.idempotencyKey))
      ensures r.Some? && old(Find(records, x.idempotencyKey)).None? ==>
        r.value == Prepared(x, now) && records == old(records) + [Prepared(x, now)]
    {
      if !NewExecutionOk(x) { return None; }
      var found, count := ScanExecutions(x.idempotencyKey);
      if found.Some? { return found; }
      if count >= MAX_EXECUTION_RECORDS { return None; }
      if ById(records, x.executionId).Some? { return None; }
      var record := Prepared(x, now);
      AppendUnique(records, record);
      records := records + [record];
      return Some(record);
    }

    /** None is a throw: unknown id, illegal transition, oversized note. */
    method TransitionExecution(id: Text, to: ExecutionState, p: Patch, now: int) returns (r: Option<Record>)
      requires Valid()
      modifies this
      ensures Valid()
      ensures var current := old(ById(records, id));
        if current.Some? && TransitionOk(current.value, to, p)
        then && r == Some(Moved(current.value, to, p, now))
             && records == Rewrite(old(records), r.value)
             && moves == old(moves) + multiset{r.value.idempotencyKey}
        else r.None? && records == old(records) && moves == old(moves)
    {
      var current := ById(records, id);
      if current.None? { return None; }
      if !CanTransition(current.value.state, to) { return None; }
      if p.lastError.Some? && |p.lastError.value| > 256 { return None; }
      var next := Moved(current.value, to, p, now);
      ByIdIn(records, id);
      RewriteFinds(records, current.value, next);
      records := Rewrite(records, next);
      moves := moves + multiset{next.idempotencyKey};
      return Some(next);
    }

    /** One turn of the recovery loop; the record is returned when its outcome is unknown. */
    method RecoverAt(i: nat, now: int) returns (unknown: Option<Record>)
      requires Valid() && i < |records|
      modifies this
      ensures Valid()
      ensures records == old(records)[i := Recovered(old(records)[i], now)]
      ensures unknown == if records[i].state == SUBMITTED_UNKNOWN then Some(records[i]) else None
      ensures moves == old(moves) + CaughtOne(old(records)[i])
    {
      var r := records[i];
      if r.state == SUBMITTING {
        FindIs(records, i);
        assert PatchOk(RESTARTED);
        RewriteAt(records, i, Recovered(r, now));
        unknown := TransitionExecution(r.executionId, SUBMITTED_UNKNOWN, RESTARTED, now);
      } else if r.state == SUBMITTED_UNKNOWN {
        unknown := Some(r);
      } else {
        unknown := None;
      }
    }

    /** Leftover SUBMITTING records are crash evidence: mark them unknown, return every unknown one. */
    method RecoverUnsettled(now: int) returns (out: seq<Record>)
      requires Valid()
      modifies this
      ensures Valid()
      ensures records == AllRecovered(old(records), now)
      ensures out == Unsettled(records)
      ensures moves == old(moves) + Caught(old(records))
    {
      out := [];
      ghost var rs, moved := records, multiset{};
      assert RecoveredUpTo(rs, 0, now) == rs;
      for i := 0 to |records|
        invariant Valid() && |records| == |rs|
        invariant RecoveredSoFar(rs, i, now, records, out, moved) && moves == old(moves) + moved
      {
        RecoverTurn(rs, i, now, records, out, moved);
        var unknown := RecoverAt(i, now);
        if unknown.Some? { out := out + [unknown.value]; }
        moved := moved + CaughtOne(rs[i]);
      }
      RecoverDone(rs, now, records, out, moved);
    }

    /** Only records that never reached the submit boundary may be aborted. */
    method AbortExecution(id: Text, why: AbortReason, now: int) returns (r: Option<Record>)
      requires Valid()
      modifies this
      ensures Valid()
      ensures var current := old(ById(records, id));
        if current.Some? && (current.value.state == PREPARED || current.value.state == AUTHORIZED)
        then && r == Some(Moved(current.value, FAILED_FINAL, AbortNote(why), now))
             && records == Rewrite(old(records), r.value)
             && moves == old(moves) + multiset{r.value.idempotencyKey}
        else r.None? && records == old(records) && moves == old(moves)
    {
      var current := ById(records, id);
      if current.None? { return None; }
      if current.value.state != PREPARED && current.value.state != AUTHORIZED { return None; }
      assert PatchOk(AbortNote(why));
      r := TransitionExecution(id, FAILED_FINAL, AbortNote(why), now);
    }
  }
}
