/**
 * The hash-chained audit log (class `Audit`, src/core/execute.ts). An entry is the object that is
 * hashed and printed, unknown fields included. `hash` is SHA-256, or an HMAC under a fixed key, of
 * text; `parse` is JSON.parse; both are parameters.
 */
module Audit {
  import opened Basics
  import opened Canonical
  import opened CanonicalLaws
  import JsonReader

  type LogEntry = map<Text, Val>

  const SEQ := Lit("seq")
  const PREV_HASH := Lit("prevHash")
  const HASH := Lit("hash")
  const AT := Lit("at")
  const ACTOR := Lit("actor")
  const ACTION := Lit("action")
  const AUTHORITY_ID := Lit("authorityId")
  const CAPABILITY_ID := Lit("capabilityId")
  const DETAIL := Lit("detail")
  const AUTHORITY_REV := Lit("authorityRev")
  const REGISTRY_REV := Lit("registryRev")
  const VAULT_REV := Lit("vaultRev")
  const AGENT_REV := Lit("agentRev")
  const STATE_REVISIONS := Lit("stateRevisions")

  const GENESIS := Lit("GENESIS")

  /** The fields an entry is built from, in writing order; `hash` comes last. */
  const KEYS: seq<Text> := [SEQ, PREV_HASH, AT, ACTOR, ACTION, AUTHORITY_ID, CAPABILITY_ID, DETAIL,
                            AUTHORITY_REV, REGISTRY_REV, VAULT_REV, AGENT_REV, STATE_REVISIONS]

  /** No two field names coincide: they differ in length or in the first letter. */
  lemma KeysDiffer()
    ensures Distinct(KEYS) && HASH !in KEYS
  {
    assert |SEQ| == 3 && |HASH| == 4 && |AT| == 2 && |ACTOR| == 5 && |STATE_REVISIONS| == 14;
    assert |ACTION| == 6 == |DETAIL| && ACTION[0] == 97 && DETAIL[0] == 100;
    assert |PREV_HASH| == 8 == |VAULT_REV| == |AGENT_REV|;
    assert PREV_HASH[0] == 112 && VAULT_REV[0] == 118 && AGENT_REV[0] == 97;
    assert |AUTHORITY_ID| == 11 == |REGISTRY_REV| && AUTHORITY_ID[0] == 97 && REGISTRY_REV[0] == 114;
    assert |CAPABILITY_ID| == 12 == |AUTHORITY_REV| && CAPABILITY_ID[0] == 99 && AUTHORITY_REV[0] == 97;
  }

  // ---------------------------------------------------------------- objects with optional fields

  /** An object literal: absent values leave their key out. */
  function Object(keys: seq<Text>, values: seq<Option<Val>>): LogEntry
    requires |keys| == |values|
    decreases |keys|
  {
    if keys == [] then map[]
    else
      var e := Object(ButLast(keys), ButLast(values));
      if Last(values).Some? then e[Last(keys) := Last(values).value] else e
  }

  function Get(e: LogEntry, k: Text): Option<Val> { if k in e then Some(e[k]) else None }

  lemma {:induction false} ObjectKeys(keys: seq<Text>, values: seq<Option<Val>>, k: Text)
    requires |keys| == |values|
    ensures k in Object(keys, values) ==> k in keys
    decreases |keys|
  {
    if keys == [] {
    } else {
      ObjectKeys(ButLast(keys), ButLast(values), k);
      assert keys == ButLast(keys) + [Last(keys)];
    }
  }

  lemma {:induction false} ObjectAt(keys: seq<Text>, values: seq<Option<Val>>, i: nat)
    requires |keys| == |values| && i < |keys| && Distinct(keys)
    ensures Get(Object(keys, values), keys[i]) == values[i]
    decreases |keys|
  {
    if i == |keys| - 1 {
      ObjectKeys(ButLast(keys), ButLast(values), keys[i]);
    } else {
      ObjectAt(ButLast(keys), ButLast(values), i);
    }
  }

  // ---------------------------------------------------------------- the shape of an entry

  predicate IsText(e: LogEntry, k: Text) { k in e && e[k].VStr? }

  predicate IsNumber(e: LogEntry, k: Text) { k in e && e[k].VNum? }

  predicate TextIfPresent(e: LogEntry, k: Text) { k in e ==> e[k].VStr? }

  predicate CountIfPresent(e: LogEntry, k: Text) { k in e ==> e[k].VNum? && e[k].num >= 0 }

  /** At most 32 safe names, each with a non-negative revision. */
  predicate RevisionsOk(v: Val) {
    && v.VObj? && |v.fields| <= 32
    && forall name :: name in v.fields ==>
         1 <= |name| <= 64 && (forall c :: c in name ==> SafeChar(c)) && v.fields[name].VNum? && v.fields[name].num >= 0
  }

  predicate Shaped(e: LogEntry) {
    && IsText(e, HASH) && IsText(e, PREV_HASH) && IsNumber(e, SEQ) && IsNumber(e, AT)
    && IsText(e, ACTOR) && IsText(e, ACTION)
    && TextIfPresent(e, AUTHORITY_ID) && TextIfPresent(e, CAPABILITY_ID) && TextIfPresent(e, DETAIL)
    && CountIfPresent(e, AUTHORITY_REV) && CountIfPresent(e, REGISTRY_REV)
    && CountIfPresent(e, VAULT_REV) && CountIfPresent(e, AGENT_REV)
    && (STATE_REVISIONS in e ==> RevisionsOk(e[STATE_REVISIONS]))
  }

  predicate AllShaped(es: seq<LogEntry>) { forall e :: e in es ==> Shaped(e) }

  function HashOf(e: LogEntry): Text
    requires Shaped(e)
  {
    e[HASH].text
  }

  function Body(e: LogEntry): LogEntry { map k | k in e && k != HASH :: e[k] }

  /** A value is hashed as its canonical text. */
  function DigestOf(hash: Text -> Text): Val -> Text { v => hash(Print(v)) }

  /** The hash of a body under the hash that precedes it. */
  function EntryHash(digest: Val -> Text, prev: Text, body: LogEntry): Text {
    digest(VObj(body[PREV_HASH := VStr(prev)]))
  }

  // ---------------------------------------------------------------- the chain

  function LastHash(es: seq<LogEntry>): Text
    requires AllShaped(es)
  {
    if es == [] then GENESIS else HashOf(Last(es))
  }

  /** `e` is entry number `i` after an entry with hash `prev`. */
  predicate Linked(digest: Val -> Text, e: LogEntry, i: int, prev: Text)
    requires Shaped(e)
  {
    e[SEQ].num == i && e[PREV_HASH].text == prev && EntryHash(digest, prev, Body(e)) == HashOf(e)
  }

  predicate Chained(digest: Val -> Text, es: seq<LogEntry>)
    requires AllShaped(es)
    decreases |es|
  {
    es == [] || (Chained(digest, ButLast(es)) && Linked(digest, Last(es), |es| - 1, LastHash(ButLast(es))))
  }

  // ---------------------------------------------------------------- appending and ingesting

  datatype Event = Event(
    at: Option<int>, actor: Text, action: Text,
    authorityId: Option<Text>, capabilityId: Option<Text>, detail: Option<Text>,
    authorityRev: Option<int>, registryRev: Option<int>, vaultRev: Option<int>, agentRev: Option<int>,
    stateRevisions: Option<Val>)

  predicate CountOk(n: Option<int>) { n.Some? ==> n.value >= 0 }

  predicate EventOk(v: Event) {
    && CountOk(v.authorityRev) && CountOk(v.registryRev) && CountOk(v.vaultRev) && CountOk(v.agentRev)
    && (v.stateRevisions.Some? ==> RevisionsOk(v.stateRevisions.value))
  }

  function CountVal(n: Option<int>): Option<Val> { if n.Some? then Some(VNum(n.value)) else None }

  function Values(v: Event, seq_: int, prev: Text, now: int): (values: seq<Option<Val>>)
    ensures |values| == |KEYS|
  {
    [Some(VNum(seq_)), Some(VStr(prev)), Some(VNum(OrElse(v.at, now))), Some(VStr(v.actor)), Some(VStr(v.action)),
     TextVal(v.authorityId), TextVal(v.capabilityId), TextVal(v.detail),
     CountVal(v.authorityRev), CountVal(v.registryRev), CountVal(v.vaultRev), CountVal(v.agentRev), v.stateRevisions]
  }

  function BodyOf(v: Event, seq_: int, prev: Text, now: int): LogEntry { Object(KEYS, Values(v, seq_, prev, now)) }

  function Sealed(digest: Val -> Text, body: LogEntry, prev: Text): LogEntry {
    body[HASH := VStr(EntryHash(digest, prev, body))]
  }

  lemma BodyFields(v: Event, seq_: int, prev: Text, now: int)
    ensures var b, values := BodyOf(v, seq_, prev, now), Values(v, seq_, prev, now);
      HASH !in b && forall i :: 0 <= i < |KEYS| ==> Get(b, KEYS[i]) == values[i]
  {
    KeysDiffer();
    ObjectKeys(KEYS, Values(v, seq_, prev, now), HASH);
    forall i | 0 <= i < |KEYS| ensures Get(BodyOf(v, seq_, prev, now), KEYS[i]) == Values(v, seq_, prev, now)[i] {
      ObjectAt(KEYS, Values(v, seq_, prev, now), i);
    }
  }

  lemma SealedShape(v: Event, seq_: int, prev: Text, now: int, hash: Text)
    requires EventOk(v)
    ensures var b := BodyOf(v, seq_, prev, now);
      var e := b[HASH := VStr(hash)];
      && Shaped(e) && e[SEQ] == VNum(seq_) && e[PREV_HASH] == VStr(prev) && Body(e) == b
  {
    KeysDiffer();
    BodyFields(v, seq_, prev, now);
    var b := BodyOf(v, seq_, prev, now);
    var e := b[HASH := VStr(hash)];
    assert forall i :: 0 <= i < |KEYS| ==> Get(e, KEYS[i]) == Get(b, KEYS[i]);
    assert KEYS[0] == SEQ && KEYS[1] == PREV_HASH && KEYS[2] == AT && KEYS[3] == ACTOR && KEYS[4] == ACTION;
    assert KEYS[5] == AUTHORITY_ID && KEYS[6] == CAPABILITY_ID && KEYS[7] == DETAIL;
    assert KEYS[8] == AUTHORITY_REV && KEYS[9] == REGISTRY_REV && KEYS[10] == VAULT_REV && KEYS[11] == AGENT_REV;
    assert KEYS[12] == STATE_REVISIONS;
    assert Body(e) == b;
  }

  lemma SealedIsLinked(digest: Val -> Text, v: Event, seq_: int, prev: Text, now: int)
    requires EventOk(v)
    ensures var e := Sealed(digest, BodyOf(v, seq_, prev, now), prev);
      Shaped(e) && Linked(digest, e, seq_, prev)
  {
    SealedShape(v, seq_, prev, now, EntryHash(digest, prev, BodyOf(v, seq_, prev, now)));
  }

  // ---------------------------------------------------------------- the log

  function Appended(digest: Val -> Text, es: seq<LogEntry>, v: Event, now: int): seq<LogEntry>
    requires AllShaped(es)
  {
    if EventOk(v) then es + [Sealed(digest, BodyOf(v, |es|, LastHash(es), now), LastHash(es))] else es
  }

  /** What an ingested line must be: a shaped entry that continues the chain. */
  predicate Continues(digest: Val -> Text, es: seq<LogEntry>, raw: Option<Val>)
    requires AllShaped(es)
  {
    raw.Some? && raw.value.VObj? && Shaped(raw.value.fields) && Linked(digest, raw.value.fields, |es|, LastHash(es))
  }

  function Ingested(digest: Val -> Text, es: seq<LogEntry>, raw: Option<Val>): seq<LogEntry>
    requires AllShaped(es)
  {
    if Continues(digest, es, raw) then es + [raw.value.fields] else es
  }

  lemma AppendedIsChained(digest: Val -> Text, es: seq<LogEntry>, v: Event, now: int)
    requires AllShaped(es) && Chained(digest, es)
    ensures AllShaped(Appended(digest, es, v, now)) && Chained(digest, Appended(digest, es, v, now))
  {
    if EventOk(v) {
      SealedIsLinked(digest, v, |es|, LastHash(es), now);
      LinkedExtends(digest, es, Sealed(digest, BodyOf(v, |es|, LastHash(es), now), LastHash(es)));
    }
  }

  lemma LinkedExtends(digest: Val -> Text, es: seq<LogEntry>, e: LogEntry)
    requires AllShaped(es) && Chained(digest, es) && Shaped(e) && Linked(digest, e, |es|, LastHash(es))
    ensures AllShaped(es + [e]) && Chained(digest, es + [e])
  {
    ShapedExtends(es, e);
    ChainedExtends(digest, es, e, es + [e]);
  }

  lemma ShapedExtends(es: seq<LogEntry>, e: LogEntry)
    requires AllShaped(es) && Shaped(e)
    ensures AllShaped(es + [e])
  {}

  lemma ChainedExtends(digest: Val -> Text, es: seq<LogEntry>, e: LogEntry, longer: seq<LogEntry>)
    requires AllShaped(es) && AllShaped(longer) && longer == es + [e]
    requires Chained(digest, es) && Linked(digest, e, |es|, LastHash(es))
    ensures Chained(digest, longer)
  {
    assert ButLast(longer) == es && Last(longer) == e && longer != [];
  }

  const NEWLINE: CodeUnit := 10

  function Jsonl(es: seq<LogEntry>): Text {
    if es == [] then [] else Print(VObj(es[0])) + [NEWLINE] + Jsonl(es[1..])
  }

  lemma LineGrows(text: Text, line: Text, rest: Text)
    ensures (text + line + [NEWLINE]) + rest == text + (line + [NEWLINE] + rest)
  {}

  class AuditLog {
    const hash: Text -> Text
    const parse: Text -> Option<Val>
    var entries: seq<LogEntry>

    predicate Valid()
      reads this
    {
      AllShaped(entries) && Chained(DigestOf(hash), entries)
    }

    constructor (hash: Text -> Text, parse: Text -> Option<Val>)
      ensures Valid() && entries == [] && this.hash == hash && this.parse == parse
    {
      this.hash, this.parse := hash, parse;
      entries := [];
    }

    /** None is a throw: a malformed revision. */
    method Append(v: Event, now: int) returns (e: Option<LogEntry>)
      requires Valid()
      modifies this
      ensures Valid()
      ensures entries == Appended(DigestOf(hash), old(entries), v, now)
      ensures e == if EventOk(v) then Some(Last(entries)) else None
    {
      AppendedIsChained(DigestOf(hash), entries, v, now);
      if !CountOk(v.authorityRev) || !CountOk(v.registryRev) { return None; }
      if !CountOk(v.vaultRev) || !CountOk(v.agentRev) { return None; }
      if v.stateRevisions.Some? && !RevisionsOk(v.stateRevisions.value) { return None; }
      var prev := if |entries| == 0 then GENESIS else HashOf(entries[|entries| - 1]);
      var entry := Sealed(DigestOf(hash), BodyOf(v, |entries|, prev, now), prev);
      entries := entries + [entry];
      return Some(entry);
    }

    /** False is a throw; the log is then unchanged. */
    method Ingest(line: Text) returns (ok: bool)
      requires Valid()
      modifies this
      ensures Valid()
      ensures entries == Ingested(DigestOf(hash), old(entries), parse(line))
      ensures ok == Continues(DigestOf(hash), old(entries), parse(line))
    {
      var raw := parse(line);
      if raw.None? || !raw.value.VObj? || !Shaped(raw.value.fields) { return false; }
      var e := raw.value.fields;
      if e[SEQ].num != |entries| { return false; }
      var expectedPrev := if |entries| == 0 then GENESIS else HashOf(entries[|entries| - 1]);
      if e[PREV_HASH].text != expectedPrev { return false; }
      if EntryHash(DigestOf(hash), e[PREV_HASH].text, Body(e)) != HashOf(e) { return false; }
      LinkedExtends(DigestOf(hash), entries, e);
      entries := entries + [e];
      return true;
    }

    method VerifyChain() returns (ok: bool)
      requires AllShaped(entries)
      ensures ok == Chained(DigestOf(hash), entries)
    {
      var prev := GENESIS;
      for i := 0 to |entries|
        invariant Chained(DigestOf(hash), entries[..i]) && prev == LastHash(entries[..i])
      {
        var e := entries[i];
        assert e in entries;
        assert ButLast(entries[..i + 1]) == entries[..i] && Last(entries[..i + 1]) == e;
        var recomputed := EntryHash(DigestOf(hash), e[PREV_HASH].text, Body(e));
        if e[SEQ].num != i || e[PREV_HASH].text != prev || recomputed != HashOf(e) {
          PrefixChained(DigestOf(hash), entries, i + 1);
          return false;
        }
        prev := HashOf(e);
      }
      assert entries[..|entries|] == entries;
      return true;
    }

    method ToJsonl() returns (text: Text)
      ensures text == Jsonl(entries)
    {
      text := [];
      for i := 0 to |entries|
        invariant text + Jsonl(entries[i..]) == Jsonl(entries)
      {
        assert entries[i..][1..] == entries[i + 1..];
        var line := Print(VObj(entries[i]));
        LineGrows(text, line, Jsonl(entries[i + 1..]));
        text := text + line + [NEWLINE];
      }
    }
  }

  // ---------------------------------------------------------------- every built log verifies

  datatype Step = DoAppend(event: Event, now: int) | DoIngest(line: Text)

  function After(digest: Val -> Text, parse: Text -> Option<Val>, steps: seq<Step>): (es: seq<LogEntry>)
    ensures AllShaped(es) && Chained(digest, es)
    decreases |steps|
  {
    if steps == [] then []
    else
      var es := After(digest, parse, ButLast(steps));
      match Last(steps)
      case DoAppend(v, now) => AppendedIsChained(digest, es, v, now); Appended(digest, es, v, now)
      case DoIngest(line) =>
        if Continues(digest, es, parse(line)) then
          LinkedExtends(digest, es, parse(line).value.fields);
          Ingested(digest, es, parse(line))
        else es
  }

  lemma {:induction false} PrefixChained(digest: Val -> Text, es: seq<LogEntry>, n: nat)
    requires AllShaped(es) && n <= |es|
    ensures Chained(digest, es) ==> Chained(digest, es[..n])
    decreases |es|
  {
    if n == |es| {
      assert es[..n] == es;
    } else {
      PrefixChained(digest, ButLast(es), n);
      assert ButLast(es)[..n] == es[..n];
    }
  }

  // ---------------------------------------------------------------- the last hash fixes the history

  ghost predicate Injective(digest: Val -> Text) {
    forall a, b :: digest(a) == digest(b) ==> a == b
  }

  ghost predicate Collisionless(hash: Text -> Text) {
    forall s, t :: hash(s) == hash(t) ==> s == t
  }

  /** Because canonical text determines its value, hashing the text is as good as hashing the value. */
  lemma CanonicalHashInjective(hash: Text -> Text)
    requires Collisionless(hash)
    ensures Injective(DigestOf(hash))
  {
    forall a, b | DigestOf(hash)(a) == DigestOf(hash)(b) ensures a == b {
      assert hash(Print(a)) == hash(Print(b));
      PrintInjective(a, b);
    }
  }

  /** The hash of a linked entry is the digest of its printed body. */
  lemma HashIsOfBody(digest: Val -> Text, e: LogEntry)
    requires Shaped(e)
    ensures EntryHash(digest, e[PREV_HASH].text, Body(e)) == digest(VObj(Body(e)))
  {
    KeysDiffer();
    assert PREV_HASH == KEYS[1] && PREV_HASH in KEYS;
    assert Body(e)[PREV_HASH := VStr(e[PREV_HASH].text)] == Body(e);
  }

  lemma BodyAndHash(a: LogEntry, b: LogEntry)
    requires Shaped(a) && Shaped(b) && Body(a) == Body(b) && HashOf(a) == HashOf(b)
    ensures a == b
  {
    assert forall k :: k in a && k != HASH ==> k in Body(a);
    assert forall k :: k in b && k != HASH ==> k in Body(b);
    assert forall k :: k in a <==> k in b;
  }

  lemma SameDigestSameObject(digest: Val -> Text, x: LogEntry, y: LogEntry)
    requires Injective(digest) && digest(VObj(x)) == digest(VObj(y))
    ensures x == y
  {
    assert VObj(x) == VObj(y);
  }

  lemma SameHashSameEntry(digest: Val -> Text, a: LogEntry, b: LogEntry, i: int, j: int, p: Text, q: Text)
    requires Injective(digest) && Shaped(a) && Shaped(b) && HashOf(a) == HashOf(b)
    requires Linked(digest, a, i, p) && Linked(digest, b, j, q)
    ensures a == b
  {
    HashIsOfBody(digest, a);
    HashIsOfBody(digest, b);
    SameDigestSameObject(digest, Body(a), Body(b));
    BodyAndHash(a, b);
  }

  lemma PlacesDiffer(digest: Val -> Text, a: LogEntry, b: LogEntry, i: int, j: int, p: Text, q: Text)
    requires Injective(digest) && Shaped(a) && Shaped(b) && i != j
    requires Linked(digest, a, i, p) && Linked(digest, b, j, q)
    ensures HashOf(a) != HashOf(b)
  {
    if HashOf(a) == HashOf(b) { SameHashSameEntry(digest, a, b, i, j, p, q); }
  }

  /** No entry of a valid log shares its hash with a linked entry further on. */
  lemma {:induction false} HashesDiffer(digest: Val -> Text, es: seq<LogEntry>, b: LogEntry, j: int, q: Text)
    requires Injective(digest) && AllShaped(es) && Chained(digest, es)
    requires Shaped(b) && Linked(digest, b, j, q) && j >= |es|
    ensures forall i :: 0 <= i < |es| ==> HashOf(es[i]) != HashOf(b)
    decreases |es|
  {
    if es == [] {
    } else {
      PlacesDiffer(digest, Last(es), b, |es| - 1, j, LastHash(ButLast(es)), q);
      HashesDiffer(digest, ButLast(es), b, j, q);
      assert forall i :: 0 <= i < |es| - 1 ==> es[i] == ButLast(es)[i];
    }
  }

  /** Two valid non-empty logs with the same last hash are the same log. */
  lemma {:induction false} LastHashFixesTheLog(digest: Val -> Text, a: seq<LogEntry>, b: seq<LogEntry>)
    requires Injective(digest) && AllShaped(a) && AllShaped(b)
    requires a != [] && b != [] && Chained(digest, a) && Chained(digest, b)
    requires LastHash(a) == LastHash(b)
    ensures a == b
    decreases |a|
  {
    SameHashSameEntry(digest, Last(a), Last(b), |a| - 1, |b| - 1, LastHash(ButLast(a)), LastHash(ButLast(b)));
    assert |a| == |b|;
    if |a| > 1 { LastHashFixesTheLog(digest, ButLast(a), ButLast(b)); }
    assert a == ButLast(a) + [Last(a)] && b == ButLast(b) + [Last(b)];
  }

  // ---------------------------------------------------------------- an entry, field by field

  /** The key holds the value, or is left out. */
  predicate Holds(e: LogEntry, k: string, v: Option<Val>) {
    (Lit(k) in e <==> v.Some?) && (v.Some? ==> e[Lit(k)] == v.value)
  }

  /** What an entry says that records this event, as entry n after one with this hash. */
  predicate Says(e: LogEntry, v: Event, n: int, prev: Text, now: int) {
    && Holds(e, "seq", Some(VNum(n))) && Holds(e, "prevHash", Some(VStr(prev)))
    && Holds(e, "at", Some(VNum(if v.at.Some? then v.at.value else now)))
    && Holds(e, "actor", Some(VStr(v.actor))) && Holds(e, "action", Some(VStr(v.action)))
    && Holds(e, "authorityId", TextVal(v.authorityId)) && Holds(e, "capabilityId", TextVal(v.capabilityId))
    && Holds(e, "detail", TextVal(v.detail))
    && Holds(e, "authorityRev", CountVal(v.authorityRev)) && Holds(e, "registryRev", CountVal(v.registryRev))
    && Holds(e, "vaultRev", CountVal(v.vaultRev)) && Holds(e, "agentRev", CountVal(v.agentRev))
    && Holds(e, "stateRevisions", v.stateRevisions)
  }

  const FIELDS: set<Text> :=
    {Lit("seq"), Lit("prevHash"), Lit("hash"), Lit("at"), Lit("actor"), Lit("action"), Lit("authorityId"),
     Lit("capabilityId"), Lit("detail"), Lit("authorityRev"), Lit("registryRev"), Lit("vaultRev"), Lit("agentRev"),
     Lit("stateRevisions")}

  lemma BodySays(v: Event, n: int, prev: Text, now: int)
    ensures Says(BodyOf(v, n, prev, now), v, n, prev, now) && Lit("hash") !in BodyOf(v, n, prev, now)
  {
    var b, values := BodyOf(v, n, prev, now), Values(v, n, prev, now);
    BodyFields(v, n, prev, now);
    assert KEYS[0] == SEQ && KEYS[1] == PREV_HASH && KEYS[2] == AT && KEYS[3] == ACTOR && KEYS[4] == ACTION;
    assert KEYS[5] == AUTHORITY_ID && KEYS[6] == CAPABILITY_ID && KEYS[7] == DETAIL;
    assert KEYS[8] == AUTHORITY_REV && KEYS[9] == REGISTRY_REV && KEYS[10] == VAULT_REV && KEYS[11] == AGENT_REV;
    assert KEYS[12] == STATE_REVISIONS;
    assert forall i :: 0 <= i < |KEYS| ==> Get(b, KEYS[i]) == values[i];
  }

  lemma BodyHasNoMore(v: Event, n: int, prev: Text, now: int)
    ensures forall k :: k in BodyOf(v, n, prev, now) ==> k in FIELDS
  {
    forall k | k in BodyOf(v, n, prev, now) ensures k in FIELDS {
      ObjectKeys(KEYS, Values(v, n, prev, now), k);
    }
  }

  predicate Counted(n: Option<int>) { n.Some? ==> 0 <= n.value }

  /** Revisions are counts, and at most 32 stores report one under a short plain name. */
  predicate Recordable(v: Event) {
    && Counted(v.authorityRev) && Counted(v.registryRev) && Counted(v.vaultRev) && Counted(v.agentRev)
    && (v.stateRevisions.Some? ==>
          && v.stateRevisions.value.VObj? && |v.stateRevisions.value.fields| <= 32
          && forall k :: k in v.stateRevisions.value.fields ==>
               && 1 <= |k| <= 64 && (forall c :: c in k ==> SafeChar(c))
               && v.stateRevisions.value.fields[k].VNum? && 0 <= v.stateRevisions.value.fields[k].num)
  }

  /**
   * Appending refuses exactly the unrecordable events. Otherwise it adds one entry that says what
   * happened, has no other field, and bears the hash of the canonical text of its other fields.
   */
  lemma AppendMeans(hash: Text -> Text, es: seq<LogEntry>, v: Event, now: int)
    requires AllShaped(es)
    ensures !Recordable(v) ==> Appended(DigestOf(hash), es, v, now) == es
    ensures Recordable(v) ==>
      var out := Appended(DigestOf(hash), es, v, now);
      |out| == |es| + 1 && out[..|es|] == es && Recorded(hash, es, out[|es|], v, now)
  {
    RecordableMeans(v);
    if Recordable(v) { SealedSays(hash, v, |es|, LastHash(es), now); }
  }

  lemma RecordableMeans(v: Event)
    ensures EventOk(v) <==> Recordable(v)
  {}

  lemma SealedSays(hash: Text -> Text, v: Event, n: int, prev: Text, now: int)
    ensures var e := Sealed(DigestOf(hash), BodyOf(v, n, prev, now), prev);
      && Says(e, v, n, prev, now) && (forall k :: k in e ==> k in FIELDS)
      && Holds(e, "hash", Some(VStr(hash(Print(VObj(e - {Lit("hash")}))))))
  {
    BodySays(v, n, prev, now);
    BodyHasNoMore(v, n, prev, now);
    SealedFields(hash, BodyOf(v, n, prev, now), v, n, prev, now);
  }

  /** The new last entry of a log. */
  predicate Recorded(hash: Text -> Text, es: seq<LogEntry>, e: LogEntry, v: Event, now: int)
    requires AllShaped(es)
  {
    && Says(e, v, |es|, if es == [] then Lit("GENESIS") else HashOf(es[|es| - 1]), now)
    && (forall k :: k in e ==> k in FIELDS)
    && Holds(e, "hash", Some(VStr(hash(Print(VObj(e - {Lit("hash")}))))))
  }

  lemma SealedFields(hash: Text -> Text, b: LogEntry, v: Event, n: int, prev: Text, now: int)
    requires Says(b, v, n, prev, now) && Lit("hash") !in b && forall k :: k in b ==> k in FIELDS
    ensures var e := Sealed(DigestOf(hash), b, prev);
      && Says(e, v, n, prev, now) && (forall k :: k in e ==> k in FIELDS)
      && Holds(e, "hash", Some(VStr(hash(Print(VObj(e - {Lit("hash")}))))))
  {
    var e := Sealed(DigestOf(hash), b, prev);
    assert e - {Lit("hash")} == b;
    assert b[PREV_HASH := VStr(prev)] == b;
    HashIsNoField(b, e, v, n, prev, now);
  }

  lemma HashIsNoField(b: LogEntry, e: LogEntry, v: Event, n: int, prev: Text, now: int)
    requires Says(b, v, n, prev, now) && forall k :: k != Lit("hash") ==> Get(e, k) == Get(b, k)
    ensures Says(e, v, n, prev, now)
  {
    KeysDiffer();
    forall i | 0 <= i < |KEYS| ensures Get(e, KEYS[i]) == Get(b, KEYS[i]) { assert KEYS[i] in KEYS && KEYS[i] != HASH; }
    assert KEYS[0] == SEQ && KEYS[1] == PREV_HASH && KEYS[2] == AT && KEYS[3] == ACTOR && KEYS[4] == ACTION;
    assert KEYS[5] == AUTHORITY_ID && KEYS[6] == CAPABILITY_ID && KEYS[7] == DETAIL;
    assert KEYS[8] == AUTHORITY_REV && KEYS[9] == REGISTRY_REV && KEYS[10] == VAULT_REV && KEYS[11] == AGENT_REV;
    assert KEYS[12] == STATE_REVISIONS;
  }

  // ---------------------------------------------------------------- writing out and reading back

  /** Canonical JSON has no control character, hence no line break. */
  predicate Printable(t: Text) { forall c :: c in t ==> c >= 32 }

  lemma {:induction false} DigitsPrintable(n: nat)
    ensures Printable(Digits(n))
  {
    if n >= 10 { DigitsPrintable(n / 10); }
  }

  lemma {:induction false} EscapePrintable(afterHigh: bool, s: Text)
    ensures Printable(Escape(afterHigh, s))
    decreases |s|
  {
    if s == [] {
    } else {
      var paired := if High(s[0]) then |s| > 1 && Low(s[1]) else afterHigh;
      TokenStart(s[0], paired);
      EscapePrintable(High(s[0]), s[1..]);
    }
  }

  lemma LitPrintable(s: string)
    requires forall c :: c in s ==> ' ' <= c < '\U{80}'
    ensures Printable(Lit(s))
  {
    forall i | 0 <= i < |s| ensures Lit(s)[i] >= 32 { assert s[i] in s; }
  }

  lemma {:induction false} PrintPrintable(v: Val)
    ensures Printable(Print(v))
    decreases v, 1, 0
  {
    match v
    case VNull => LitPrintable("null");
    case VBool(_) => LitPrintable("true"); LitPrintable("false");
    case VNum(n) => DigitsPrintable(if n < 0 then -n else n);
    case VStr(s) => EscapePrintable(false, s);
    case VArr(items) => ItemsPrintable(items);
    case VObj(m) => FieldsPrintable(m, InOrder(m.Keys));
  }

  lemma {:induction false} ItemsPrintable(items: seq<Val>)
    ensures Printable(PrintItems(items))
    decreases items
  {
    if items == [] {
    } else {
      PrintPrintable(items[0]);
      ItemsPrintable(items[1..]);
    }
  }

  lemma {:induction false} FieldsPrintable(m: map<Text, Val>, ks: seq<Text>)
    requires forall k :: k in ks ==> k in m
    ensures Printable(PrintFields(m, ks))
    decreases VObj(m), 0, |ks|
  {
    if ks == [] {
    } else {
      EscapePrintable(false, ks[0]);
      PrintPrintable(m[ks[0]]);
      FieldsPrintable(m, ks[1..]);
    }
  }

  /** The position of the first line break. */
  function Break(t: Text): nat
    ensures Break(t) <= |t|
  {
    if t == [] || t[0] == NEWLINE then 0 else 1 + Break(t[1..])
  }

  /** The lines of a text; a final line break ends the last one. */
  function Lines(t: Text): seq<Text>
    decreases |t|
  {
    if t == [] then []
    else if Break(t) == |t| then [t]
    else [t[..Break(t)]] + Lines(t[Break(t) + 1..])
  }

  lemma {:induction false} BreakAfter(line: Text, rest: Text)
    requires Printable(line)
    ensures Break(line + [NEWLINE] + rest) == |line|
  {
    var t := line + [NEWLINE] + rest;
    if line == [] {
    } else {
      assert t[1..] == line[1..] + [NEWLINE] + rest && t[0] == line[0] && line[0] in line;
      assert forall c :: c in line[1..] ==> c in line;
      BreakAfter(line[1..], rest);
    }
  }

  lemma FirstLine(line: Text, rest: Text)
    requires Printable(line)
    ensures Lines(line + [NEWLINE] + rest) == [line] + Lines(rest)
  {
    var t := line + [NEWLINE] + rest;
    BreakAfter(line, rest);
    assert t[..|line|] == line && t[|line| + 1..] == rest;
  }

  function Prints(es: seq<LogEntry>): (lines: seq<Text>)
    ensures |lines| == |es|
  {
    seq(|es|, i requires 0 <= i < |es| => Print(VObj(es[i])))
  }

  lemma {:induction false} JsonlLines(es: seq<LogEntry>)
    ensures Lines(Jsonl(es)) == Prints(es)
  {
    if es == [] {
    } else {
      var line, rest := Print(VObj(es[0])), Jsonl(es[1..]);
      PrintPrintable(VObj(es[0]));
      FirstLine(line, rest);
      JsonlLines(es[1..]);
      assert Prints(es) == [line] + Prints(es[1..]);
    }
  }

  function Count(t: Text, c: CodeUnit): nat { if t == [] then 0 else (if t[0] == c then 1 else 0) + Count(t[1..], c) }

  lemma {:induction false} CountConcat(a: Text, b: Text, c: CodeUnit)
    ensures Count(a + b, c) == Count(a, c) + Count(b, c)
  {
    if a == [] {
      assert a + b == b;
    } else {
      assert (a + b)[1..] == a[1..] + b;
      CountConcat(a[1..], b, c);
    }
  }

  lemma {:induction false} NoneOf(t: Text, c: CodeUnit)
    requires c !in t
    ensures Count(t, c) == 0
  {
    if t != [] { NoneOf(t[1..], c); }
  }

  /** The export has one line feed for each entry, the last character is one, and there is no carriage return. */
  lemma {:induction false} LineFeeds(es: seq<LogEntry>)
    ensures Count(Jsonl(es), 10) == |es| && Count(Jsonl(es), 13) == 0
    ensures es != [] ==> Jsonl(es) != [] && Last(Jsonl(es)) == 10
    decreases |es|
  {
    if es != [] {
      var line, rest := Print(VObj(es[0])), Jsonl(es[1..]);
      PrintPrintable(VObj(es[0]));
      NoneOf(line, 10);
      NoneOf(line, 13);
      LineFeeds(es[1..]);
      CountConcat(line + [NEWLINE], rest, 10);
      CountConcat(line, [NEWLINE], 10);
      CountConcat(line + [NEWLINE], rest, 13);
      CountConcat(line, [NEWLINE], 13);
    }
  }

  function IngestSteps(lines: seq<Text>): (steps: seq<Step>)
    ensures |steps| == |lines|
  {
    seq(|lines|, i requires 0 <= i < |lines| => DoIngest(lines[i]))
  }

  /** What is needed of JSON.parse: it reads canonical JSON back. */
  ghost predicate Reads(parse: Text -> Option<Val>) {
    forall v :: parse(Print(v)) == Some(v)
  }

  lemma StepsOfLast(es: seq<LogEntry>)
    requires es != []
    ensures var steps := IngestSteps(Prints(es));
      ButLast(steps) == IngestSteps(Prints(ButLast(es))) && Last(steps) == DoIngest(Print(VObj(Last(es))))
  {}

  lemma ChainedFront(digest: Val -> Text, es: seq<LogEntry>)
    requires AllShaped(es) && Chained(digest, es) && es != []
    ensures AllShaped(ButLast(es)) && Chained(digest, ButLast(es)) && Shaped(Last(es))
    ensures Linked(digest, Last(es), |ButLast(es)|, LastHash(ButLast(es)))
  {}

  lemma IngestsNext(digest: Val -> Text, parse: Text -> Option<Val>, steps: seq<Step>, es: seq<LogEntry>, e: LogEntry)
    requires AllShaped(es) && Shaped(e) && Linked(digest, e, |es|, LastHash(es))
    requires steps != [] && After(digest, parse, ButLast(steps)) == es
    requires Last(steps) == DoIngest(Print(VObj(e))) && parse(Print(VObj(e))) == Some(VObj(e))
    ensures After(digest, parse, steps) == es + [e]
  {}

  lemma {:induction false} IngestRebuilds(digest: Val -> Text, parse: Text -> Option<Val>, es: seq<LogEntry>)
    requires AllShaped(es) && Chained(digest, es)
    requires Reads(parse)
    ensures After(digest, parse, IngestSteps(Prints(es))) == es
    decreases |es|
  {
    if es == [] {
      assert IngestSteps(Prints(es)) == [];
    } else {
      var front, e := ButLast(es), Last(es);
      ChainedFront(digest, es);
      StepsOfLast(es);
      IngestRebuilds(digest, parse, front);
      assert parse(Print(VObj(e))) == Some(VObj(e));
      IngestsNext(digest, parse, IngestSteps(Prints(es)), front, e);
      assert es == front + [e];
    }
  }

  /** Ingesting the lines of an exported log into an empty one rebuilds it, unknown fields included. */
  lemma ReingestRebuilds(digest: Val -> Text, parse: Text -> Option<Val>, es: seq<LogEntry>)
    requires AllShaped(es) && Chained(digest, es)
    requires Reads(parse)
    ensures After(digest, parse, IngestSteps(Lines(Jsonl(es)))) == es
  {
    JsonlLines(es);
    IngestRebuilds(digest, parse, es);
  }

  /** A reader by RFC 8259 is such a parser, so its round trip needs no assumption. */
  lemma ReadBackRebuilds(digest: Val -> Text, es: seq<LogEntry>)
    requires AllShaped(es) && Chained(digest, es)
    ensures Reads(JsonReader.ReadText)
    ensures After(digest, JsonReader.ReadText, IngestSteps(Lines(Jsonl(es)))) == es
  {
    forall v ensures JsonReader.ReadText(Print(v)) == Some(v) { JsonReader.CanonicalTextReads(v); }
    ReingestRebuilds(digest, JsonReader.ReadText, es);
  }
}
