/** A JavaScript Map keyed by text: entries in insertion order, at most one per key. */
module OrderedMap {
  import opened Basics

  type OMap<V> = seq<(Text, V)>

  predicate Has<V>(m: OMap<V>, k: Text) {
    exists i :: 0 <= i < |m| && m[i].0 == k
  }

  predicate WellKeyed<V>(m: OMap<V>) {
    forall i, j :: 0 <= i < j < |m| ==> m[i].0 != m[j].0
  }

  /** `get(k) ?? default`. */
  function Get<V>(m: OMap<V>, k: Text, default: V): V {
    if m == [] then default else if m[0].0 == k then m[0].1 else Get(m[1..], k, default)
  }

  /** `set(k, v)`: an existing key keeps its place. */
  function Put<V>(m: OMap<V>, k: Text, v: V): OMap<V> {
    if m == [] then [(k, v)]
    else if m[0].0 == k then [(k, v)] + m[1..]
    else [m[0]] + Put(m[1..], k, v)
  }

  function Drop<V>(m: OMap<V>, k: Text): OMap<V> {
    if m == [] then []
    else if m[0].0 == k then Drop(m[1..], k)
    else [m[0]] + Drop(m[1..], k)
  }

  lemma {:induction false} PutFresh<V>(m: OMap<V>, k: Text, v: V)
    requires !Has(m, k)
    ensures Put(m, k, v) == m + [(k, v)]
  {
    if m == [] {
    } else {
      assert m[0].0 != k;
      forall i | 0 <= i < |m[1..]| ensures m[1..][i].0 != k { assert m[i + 1].0 != k; }
      PutFresh(m[1..], k, v);
    }
  }

  lemma {:induction false} PutKeys<V>(m: OMap<V>, k: Text, v: V)
    ensures forall x :: Has(Put(m, k, v), x) <==> x == k || Has(m, x)
    ensures WellKeyed(m) ==> WellKeyed(Put(m, k, v))
  {
    var r := Put(m, k, v);
    if m == [] {
      assert r[0].0 == k;
    } else if m[0].0 == k {
      assert |r| == |m| && forall i :: 0 <= i < |m| ==> r[i].0 == m[i].0;
      forall x ensures Has(r, x) <==> x == k || Has(m, x) { SameKeys(m, r, x); }
    } else {
      PutKeys(m[1..], k, v);
      forall x ensures Has(r, x) <==> x == k || Has(m, x) {
        ConsHas(m[0], Put(m[1..], k, v), x);
        ConsHas(m[0], m[1..], x);
        assert m == [m[0]] + m[1..];
      }
      if WellKeyed(m) {
        TailWellKeyed(m);
        ConsWellKeyed(m[0], Put(m[1..], k, v));
      }
    }
  }

  lemma SameKeys<V>(m: OMap<V>, r: OMap<V>, x: Text)
    requires |r| == |m| && forall i :: 0 <= i < |m| ==> r[i].0 == m[i].0
    ensures Has(r, x) <==> Has(m, x)
  {
    if i :| 0 <= i < |m| && m[i].0 == x { assert r[i].0 == x; }
    if i :| 0 <= i < |r| && r[i].0 == x { assert m[i].0 == x; }
  }

  lemma ConsHas<V>(e: (Text, V), m: OMap<V>, x: Text)
    ensures Has([e] + m, x) <==> e.0 == x || Has(m, x)
  {
    var r := [e] + m;
    assert r[0].0 == e.0;
    if i :| 0 <= i < |m| && m[i].0 == x { assert r[i + 1].0 == x; }
    if i :| 0 <= i < |r| && r[i].0 == x { if i > 0 { assert m[i - 1].0 == x; } }
  }

  lemma TailWellKeyed<V>(m: OMap<V>)
    requires m != [] && WellKeyed(m)
    ensures WellKeyed(m[1..]) && !Has(m[1..], m[0].0)
  {
    var t := m[1..];
    forall i, j | 0 <= i < j < |t| ensures t[i].0 != t[j].0 { assert m[i + 1].0 != m[j + 1].0; }
    forall i | 0 <= i < |t| ensures t[i].0 != m[0].0 { assert m[0].0 != m[i + 1].0; }
  }

  lemma ConsWellKeyed<V>(e: (Text, V), m: OMap<V>)
    requires WellKeyed(m) && !Has(m, e.0)
    ensures WellKeyed([e] + m)
  {
    var r := [e] + m;
    forall i, j | 0 <= i < j < |r| ensures r[i].0 != r[j].0 {
      assert r[j] == m[j - 1];
      if i > 0 { assert m[i - 1].0 != m[j - 1].0; }
    }
  }

  lemma {:induction false} PutGet<V>(m: OMap<V>, k: Text, v: V, x: Text, default: V)
    ensures Get(Put(m, k, v), x, default) == if x == k then v else Get(m, x, default)
  {
    if m == [] {
    } else {
      PutGet(m[1..], k, v, x, default);
      if m[0].0 == k {
        assert Put(m, k, v)[1..] == m[1..];
      } else {
        assert Put(m, k, v)[1..] == Put(m[1..], k, v);
      }
    }
  }

  lemma {:induction false} DropKeys<V>(m: OMap<V>, k: Text)
    ensures forall x :: Has(Drop(m, k), x) <==> x != k && Has(m, x)
    ensures WellKeyed(m) ==> WellKeyed(Drop(m, k))
    ensures forall e :: e in Drop(m, k) ==> e in m
  {
    if m == [] {
    } else {
      DropKeys(m[1..], k);
      assert m == [m[0]] + m[1..];
      forall x ensures Has(Drop(m, k), x) <==> x != k && Has(m, x) {
        ConsHas(m[0], m[1..], x);
        ConsHas(m[0], Drop(m[1..], k), x);
      }
      if WellKeyed(m) {
        TailWellKeyed(m);
        if m[0].0 != k { ConsWellKeyed(m[0], Drop(m[1..], k)); }
      }
    }
  }

  lemma {:induction false} AbsentGet<V>(m: OMap<V>, k: Text, default: V)
    requires !Has(m, k)
    ensures Get(m, k, default) == default
  {
    if m == [] {
    } else {
      assert m[0].0 != k;
      forall i | 0 <= i < |m[1..]| ensures m[1..][i].0 != k { assert m[i + 1].0 != k; }
      AbsentGet(m[1..], k, default);
    }
  }

  lemma {:induction false} EntryGet<V>(m: OMap<V>, i: nat, default: V)
    requires i < |m| && WellKeyed(m)
    ensures Get(m, m[i].0, default) == m[i].1
  {
    if i == 0 {
    } else {
      assert m[0].0 != m[i].0;
      TailWellKeyed(m);
      EntryGet(m[1..], i - 1, default);
    }
  }
}
