/**
 * The durable authority store with optimistic concurrency (src/store/files.ts): the revision
 * rule, and save and load on instances.
 */
module AuthorityStore {
  import opened Basics
  import opened Canonical
  import Audit
  import opened AuthorityState
  import opened AuthorityEngine

  // ---------------------------------------------------------------- one save, one load

  /** The revision a save may write; None is a refusal. */
  function NextStoreRevision(file: Option<int>, loaded: int, lineage: bool): Option<int> {
    if file.None? then
      if loaded != 0 || lineage then None else Some(0)
    else if file.value < 0 then None
    else if file.value != loaded then None
    else if file.value == 0 && !lineage then None
    else Some(file.value + 1)
  }

  function RevisionOf(file: Option<Snapshot>): Option<int> {
    if file.Some? then Some(file.value.revision) else None
  }

  function Stamp(s: State, rev: int): State { s.(revision := rev, lineage := true) }

  /** A successful save leaves the stamped snapshot in the file and the stamp on the instance. */
  function Saved(file: Option<Snapshot>, s: State): Option<State> {
    var next := NextStoreRevision(RevisionOf(file), s.revision, s.lineage);
    if next.None? then None else Some(Stamp(s, next.value))
  }

  /** How the file write ends: stored, not stored with a throw, or stored with a throw. */
  datatype Write = Written | Lost | WrittenThenThrows

  // ---------------------------------------------------------------- rollback detection

  /** A revision under this key, if the value is a non-negative integer. */
  function RevisionAt(fields: map<Text, Val>, key: Text): seq<int> {
    if key in fields && fields[key].VNum? && fields[key].num >= 0 then [fields[key].num] else []
  }

  /** The authority revisions one parsed audit line was recorded under; None is a line that does not parse. */
  function References(line: Option<Val>): seq<int> {
    if line.None? || !line.value.VObj? then []
    else
      var fields := line.value.fields;
      RevisionAt(fields, Audit.AUTHORITY_REV)
      + if Audit.STATE_REVISIONS in fields && fields[Audit.STATE_REVISIONS].VObj?
        then RevisionAt(fields[Audit.STATE_REVISIONS].fields, Lit("authority")) else []
  }

  predicate Within(refs: seq<int>, rev: int) { forall v :: v in refs ==> v <= rev }

  /** No audit line was recorded under a later revision than this. */
  predicate Fresh(audit: Option<seq<Option<Val>>>, rev: int) {
    audit.Some? ==> forall line :: line in audit.value ==> Within(References(line), rev)
  }

  /** What loading demands of the file and of the audit history beside it. */
  predicate Loads(file: Option<Snapshot>, audit: Option<seq<Option<Val>>>) {
    file.Some? && Restore(file.value).Some? && Fresh(audit, Restore(file.value).value.revision)
  }

  function Later(a: Option<int>, v: int): Option<int> { Some(if a.None? || a.value < v then v else a.value) }

  predicate NotAfter(latest: Option<int>, rev: int) { latest.None? || latest.value <= rev }

  lemma WithinExtends(refs: seq<int>, v: int)
    ensures forall r :: Within(refs + [v], r) <==> Within(refs, r) && v <= r
  {
    forall r ensures Within(refs + [v], r) <==> Within(refs, r) && v <= r {
      assert v in refs + [v] && forall u :: u in refs + [v] <==> u in refs || u == v;
    }
  }

  method LatestOf(refs: seq<int>, before: Option<int>) returns (latest: Option<int>)
    ensures forall r :: NotAfter(latest, r) <==> NotAfter(before, r) && Within(refs, r)
  {
    latest := before;
    for i := 0 to |refs|
      invariant forall r :: NotAfter(latest, r) <==> NotAfter(before, r) && Within(refs[..i], r)
    {
      assert refs[..i + 1] == refs[..i] + [refs[i]];
      WithinExtends(refs[..i], refs[i]);
      latest := Later(latest, refs[i]);
    }
    assert refs[..|refs|] == refs;
  }

  method CheckFreshness(audit: Option<seq<Option<Val>>>, rev: int) returns (ok: bool)
    ensures ok <==> Fresh(audit, rev)
  {
    if audit.None? { return true; }
    var lines := audit.value;
    var latest: Option<int> := None;
    for i := 0 to |lines|
      invariant forall r :: NotAfter(latest, r) <==> Fresh(Some(lines[..i]), r)
    {
      assert lines[..i + 1] == lines[..i] + [lines[i]];
      latest := LatestOf(References(lines[i]), latest);
    }
    assert lines[..|lines|] == lines;
    ok := NotAfter(latest, rev);
  }

  /** A count under this key is no greater than `rev`; anything else under it says nothing. */
  predicate CountWithin(fields: map<Text, Val>, key: string, rev: int) {
    Lit(key) in fields && fields[Lit(key)].VNum? && fields[Lit(key)].num >= 0 ==> fields[Lit(key)].num <= rev
  }

  /** A line that parses was recorded under no later authority revision, in either of its two fields. */
  predicate LineWithin(line: Option<Val>, rev: int) {
    line.Some? && line.value.VObj? ==>
      && CountWithin(line.value.fields, "authorityRev", rev)
      && (Lit("stateRevisions") in line.value.fields && line.value.fields[Lit("stateRevisions")].VObj? ==>
            CountWithin(line.value.fields[Lit("stateRevisions")].fields, "authority", rev))
  }

  lemma RevisionWithin(fields: map<Text, Val>, key: string, rev: int)
    ensures Within(RevisionAt(fields, Lit(key)), rev) <==> CountWithin(fields, key, rev)
  {
    if Lit(key) in fields && fields[Lit(key)].VNum? && fields[Lit(key)].num >= 0 {
      assert fields[Lit(key)].num in RevisionAt(fields, Lit(key));
    }
  }

  lemma LineMeans(line: Option<Val>, rev: int)
    ensures Within(References(line), rev) <==> LineWithin(line, rev)
  {
    if line.Some? && line.value.VObj? {
      var m := line.value.fields;
      RevisionWithin(m, "authorityRev", rev);
      var first := RevisionAt(m, Audit.AUTHORITY_REV);
      if Lit("stateRevisions") in m && m[Lit("stateRevisions")].VObj? {
        var more := RevisionAt(m[Lit("stateRevisions")].fields, Lit("authority"));
        RevisionWithin(m[Lit("stateRevisions")].fields, "authority", rev);
        assert forall v :: v in first + more <==> v in first || v in more;
      } else {
        assert References(line) == first + [] == first;
      }
    }
  }

  /** The audit history allows a revision exactly when none of its lines was recorded under a later one. */
  lemma FreshMeans(audit: Option<seq<Option<Val>>>, rev: int)
    ensures Fresh(audit, rev) <==> (audit.Some? ==> forall line :: line in audit.value ==> LineWithin(line, rev))
  {
    if audit.Some? {
      forall line | line in audit.value ensures Within(References(line), rev) <==> LineWithin(line, rev) { LineMeans(line, rev); }
    }
  }

  // ---------------------------------------------------------------- the file

  class StoreFile {
    var content: Option<Snapshot>

    constructor ()
      ensures content == None
    {
      content := None;
    }

    /** The instance adopts the next revision before the file is written. */
    method SaveAuthority(auth: Authority, write: Write) returns (ok: bool)
      modifies this, auth
      ensures ok <==> Saved(old(content), old(auth.Value())).Some? && write.Written?
      ensures Saved(old(content), old(auth.Value())).None? ==> content == old(content) && auth.Value() == old(auth.Value())
      ensures Saved(old(content), old(auth.Value())).Some? ==>
        && auth.Value() == Saved(old(content), old(auth.Value())).value
        && content == if write.Lost? then old(content) else Some(AuthorityState.TakeSnapshot(auth.Value()))
    {
      var next := NextStoreRevision(RevisionOf(content), auth.snapshotRevision, auth.knownLineage);
      if next.None? { return false; }
      var snap := auth.TakeSnapshot();
      if next.value < 0 { return false; }
      var adopted := auth.AdoptRevision(next.value);
      if !write.Lost? { content := Some(snap.(revision := next.value)); }
      ok := write.Written?;
    }

    /** `audit` is None when there is no audit file; null is a throw. */
    method LoadAuthority(audit: Option<seq<Option<Val>>>) returns (auth: Authority?)
      ensures auth != null <==> Loads(content, audit)
      ensures auth != null ==> fresh(auth) && auth.Value() == Restore(content.value).value
    {
      if content.None? { return null; }
      auth := RestoreAuthority(content.value);
      if auth != null {
        var ok := CheckFreshness(audit, auth.snapshotRevision);
        if !ok { auth := null; }
      }
    }
  }

  // ---------------------------------------------------------------- a witness

  /**
   * The smallest lost update: an instance whose write was lost has already adopted the next
   * revision, so after anyone else stores that revision it passes the rule and overwrites their
   * commit. StoreRuns.NoLostUpdateExactly says exactly which runs are spared.
   */
  lemma ReuseAfterFailedWriteLosesUpdate(base: State, a: State, b: State)
    requires base.lineage && base.revision >= 0
    requires a.lineage && a.revision == base.revision && b.lineage && b.revision == base.revision
    ensures var file := Some(TakeSnapshot(base));
      var failed := Stamp(a, base.revision + 1);
      && Saved(file, b) == Some(Stamp(b, base.revision + 1))
      && Saved(Some(TakeSnapshot(Stamp(b, base.revision + 1))), failed) == Some(Stamp(a, base.revision + 2))
  {}
}
