/**
 * Merkle anchors for the audit log (src/store/anchor.ts). A digest is a free constructor term:
 * the hash is injective, and leaf and node inputs carry different prefixes.
 */
module Anchor {
  import opened Basics
  import opened Canonical
  import opened CanonicalLaws

  datatype Digest = NoRoot | LeafHash(entry: Text) | NodeHash(left: Digest, right: Digest)

  // ---------------------------------------------------------------- the tree as a function

  function Leaves(entries: seq<Text>): (level: seq<Digest>)
    ensures |level| == |entries|
  {
    seq(|entries|, i requires 0 <= i < |entries| => LeafHash(entries[i]))
  }

  /** An odd last node is paired with itself. */
  function NextLevel(level: seq<Digest>): (next: seq<Digest>)
    ensures |next| == (|level| + 1) / 2
  {
    if level == [] then []
    else if |level| == 1 then [NodeHash(level[0], level[0])]
    else [NodeHash(level[0], level[1])] + NextLevel(level[2..])
  }

  function RootOf(level: seq<Digest>): Digest
    decreases |level|
  {
    if level == [] then NoRoot
    else if |level| == 1 then level[0]
    else RootOf(NextLevel(level))
  }

  function Root(entries: seq<Text>): Digest { RootOf(Leaves(entries)) }

  datatype PathStep = PathStep(sibling: Digest, left: bool)

  datatype Proof = Proof(leaf: Digest, leafIndex: int, path: seq<PathStep>, root: Digest, count: nat)

  function PathFrom(level: seq<Digest>, i: nat): seq<PathStep>
    requires i < |level|
    decreases |level|
  {
    if |level| == 1 then [] else [StepAt(level, i)] + PathFrom(NextLevel(level), i / 2)
  }

  /** The sibling of node `i`; a last node without a partner is its own. */
  function StepAt(level: seq<Digest>, i: nat): PathStep
    requires i < |level|
  {
    if i % 2 == 1 then PathStep(level[i - 1], true)
    else PathStep(level[if i + 1 < |level| then i + 1 else i], false)
  }

  function Climb(acc: Digest, step: PathStep): Digest {
    if step.left then NodeHash(step.sibling, acc) else NodeHash(acc, step.sibling)
  }

  /** The path folded upwards from a node. */
  function Fold(acc: Digest, path: seq<PathStep>): Digest
    decreases |path|
  {
    if path == [] then acc else Fold(Climb(acc, path[0]), path[1..])
  }

  lemma PathGrows(path: seq<PathStep>, level: seq<Digest>, i: nat)
    requires i < |level| && |level| > 1
    ensures (path + [StepAt(level, i)]) + PathFrom(NextLevel(level), i / 2) == path + PathFrom(level, i)
  {}

  // ---------------------------------------------------------------- the loops

  /** One round of both loops: the next level, pair by pair. */
  method Pair(level: seq<Digest>) returns (next: seq<Digest>)
    ensures next == NextLevel(level)
  {
    next := [];
    var i := 0;
    while i < |level|
      invariant 0 <= i <= |level| + 1
      invariant next + NextLevel(level[if i < |level| then i else |level|..]) == NextLevel(level)
    {
      var left := level[i];
      var right := if i + 1 < |level| then level[i + 1] else left;
      assert i + 1 < |level| ==> level[i..][2..] == level[i + 2..];
      next := next + [NodeHash(left, right)];
      i := i + 2;
    }
  }

  method MerkleRoot(entries: seq<Text>) returns (root: Digest)
    ensures root == Root(entries)
  {
    if |entries| == 0 { return NoRoot; }
    var level := Leaves(entries);
    while |level| > 1
      invariant level != [] && RootOf(level) == Root(entries)
      decreases |level|
    {
      level := Pair(level);
    }
    root := level[0];
  }

  /** None is a throw: the index is out of range. */
  method InclusionProof(entries: seq<Text>, index: int) returns (proof: Option<Proof>)
    ensures proof.Some? <==> 0 <= index < |entries|
    ensures proof.Some? ==>
      proof.value == Proof(LeafHash(entries[index]), index, PathFrom(Leaves(entries), index), Root(entries), |entries|)
  {
    if index < 0 || index >= |entries| { return None; }
    var leaf := LeafHash(entries[index]);
    var path: seq<PathStep> := [];
    var level := Leaves(entries);
    var idx: nat := index;
    while |level| > 1
      invariant idx < |level| && RootOf(level) == Root(entries)
      invariant path + PathFrom(level, idx) == PathFrom(Leaves(entries), index)
      decreases |level|
    {
      var isRight := idx % 2 == 1;
      var sibIdx := if isRight then idx - 1 else if idx + 1 < |level| then idx + 1 else idx;
      PathGrows(path, level, idx);
      path := path + [PathStep(level[sibIdx], isRight)];
      level := Pair(level);
      idx := idx / 2;
    }
    return Some(Proof(leaf, index, path, level[0], |entries|));
  }

  predicate Accepts(proof: Proof, root: Digest) { proof.root == root && Fold(proof.leaf, proof.path) == root }

  method VerifyInclusion(proof: Proof, root: Digest) returns (ok: bool)
    ensures ok == Accepts(proof, root)
  {
    if proof.root != root { return false; }
    var acc := proof.leaf;
    for i := 0 to |proof.path|
      invariant Fold(acc, proof.path[i..]) == Fold(proof.leaf, proof.path)
    {
      assert proof.path[i..][1..] == proof.path[i + 1..];
      acc := Climb(acc, proof.path[i]);
    }
    ok := acc == root;
  }

  // ---------------------------------------------------------------- equal roots

  lemma {:induction false} NextLevelInjective(a: seq<Digest>, b: seq<Digest>)
    requires |a| == |b| && NextLevel(a) == NextLevel(b)
    ensures a == b
  {
    if |a| > 1 {
      assert NextLevel(a)[0] == NextLevel(b)[0];
      assert NextLevel(a)[1..] == NextLevel(a[2..]) && NextLevel(b)[1..] == NextLevel(b[2..]);
      NextLevelInjective(a[2..], b[2..]);
      assert a == [a[0], a[1]] + a[2..] && b == [b[0], b[1]] + b[2..];
    } else if |a| == 1 {
      assert NextLevel(a)[0] == NextLevel(b)[0];
    }
  }

  lemma {:induction false} RootOfInjective(a: seq<Digest>, b: seq<Digest>)
    requires |a| == |b| && RootOf(a) == RootOf(b)
    ensures a == b
    decreases |a|
  {
    if |a| <= 1 {
    } else {
      RootOfInjective(NextLevel(a), NextLevel(b));
      NextLevelInjective(a, b);
    }
  }

  /** Root and count together fix the log, odd levels notwithstanding. */
  lemma RootAndCountFixTheLog(a: seq<Text>, b: seq<Text>)
    requires |a| == |b| && Root(a) == Root(b)
    ensures a == b
  {
    RootOfInjective(Leaves(a), Leaves(b));
    forall i | 0 <= i < |a| ensures a[i] == b[i] { assert Leaves(a)[i] == Leaves(b)[i]; }
  }

  lemma {:induction false} OddDuplicate(level: seq<Digest>)
    requires |level| % 2 == 1
    ensures NextLevel(level + [Last(level)]) == NextLevel(level)
  {
    if |level| <= 1 {
    } else {
      assert (level + [Last(level)])[2..] == level[2..] + [Last(level[2..])];
      OddDuplicate(level[2..]);
    }
  }

  /** The count is needed: repeating the last entry of any odd log of three or more keeps the root. */
  lemma RootAloneIsNotEnough(entries: seq<Text>)
    requires |entries| % 2 == 1 && |entries| >= 3
    ensures Root(entries + [Last(entries)]) == Root(entries)
  {
    OddDuplicate(Leaves(entries));
    assert Leaves(entries + [Last(entries)]) == Leaves(entries) + [Last(Leaves(entries))];
  }

  // ---------------------------------------------------------------- what a root alone fixes

  function Pow2(k: nat): (p: nat)
    ensures p >= 1
  {
    if k == 0 then 1 else 2 * Pow2(k - 1)
  }

  /** How many levels are folded over n leaves. */
  function Depth(n: nat): nat { if n <= 1 then 0 else 1 + Depth((n + 1) / 2) }

  /** Which of n entries stands at position i of the full tree. */
  function Source(n: nat, i: nat): (k: nat)
    requires n >= 1
    ensures k < n
    decreases n
  {
    if n == 1 then 0
    else
      var p := Source((n + 1) / 2, i / 2);
      if 2 * p + i % 2 < n then 2 * p + i % 2 else 2 * p
  }

  /** The log as the full tree sees it: last nodes of odd levels repeated. */
  function Padded<T>(xs: seq<T>): (ps: seq<T>)
    requires xs != []
    ensures |ps| == Pow2(Depth(|xs|))
  {
    seq(Pow2(Depth(|xs|)), i requires 0 <= i < Pow2(Depth(|xs|)) => xs[Source(|xs|, i)])
  }

  lemma {:induction false} NextLevelAt(level: seq<Digest>, j: nat)
    requires j < |NextLevel(level)|
    ensures NextLevel(level)[j] == NodeHash(level[2 * j], level[if 2 * j + 1 < |level| then 2 * j + 1 else 2 * j])
  {
    if j > 0 { NextLevelAt(level[2..], j - 1); }
  }

  /** Two neighbouring positions come from one node of the next level. */
  lemma SourcePair(n: nat, j: nat)
    requires n > 1
    ensures var p := Source((n + 1) / 2, j);
      Source(n, 2 * j) == 2 * p && Source(n, 2 * j + 1) == if 2 * p + 1 < n then 2 * p + 1 else 2 * p
  {
    assert 2 * j / 2 == j && (2 * j + 1) / 2 == j;
  }

  /** What the next level is, node by node. */
  predicate IsNext(level: seq<Digest>, next: seq<Digest>) {
    && |next| == (|level| + 1) / 2
    && forall j :: 0 <= j < |next| ==>
         next[j] == NodeHash(level[2 * j], level[if 2 * j + 1 < |level| then 2 * j + 1 else 2 * j])
  }

  lemma NextLevelIs(level: seq<Digest>, next: seq<Digest>)
    ensures IsNext(level, next) <==> next == NextLevel(level)
  {
    forall j | 0 <= j < |NextLevel(level)|
      ensures NextLevel(level)[j] == NodeHash(level[2 * j], level[if 2 * j + 1 < |level| then 2 * j + 1 else 2 * j])
    {
      NextLevelAt(level, j);
    }
  }

  /** Padding and pairing up commute. */
  lemma PaddedNext(level: seq<Digest>, next: seq<Digest>)
    requires |level| > 1 && IsNext(level, next)
    ensures IsNext(Padded(level), Padded(next))
  {
    var ps, qs, n := Padded(level), Padded(next), |level|;
    assert |ps| == 2 * |qs|;
    forall j | 0 <= j < |qs| ensures qs[j] == NodeHash(ps[2 * j], ps[2 * j + 1]) {
      SourcePair(n, j);
      assert qs[j] == next[Source(|next|, j)];
      assert ps[2 * j] == level[Source(n, 2 * j)] && ps[2 * j + 1] == level[Source(n, 2 * j + 1)];
    }
  }

  lemma {:induction false} RootOfPadded(level: seq<Digest>)
    requires level != []
    ensures RootOf(Padded(level)) == RootOf(level)
    decreases |level|
  {
    if |level| == 1 {
      assert Padded(level) == level;
    } else {
      var next := NextLevel(level);
      NextLevelIs(level, next);
      PaddedNext(level, next);
      NextLevelIs(Padded(level), Padded(next));
      RootOfPadded(next);
    }
  }

  /** The number of node hashes above the leftmost leaf. */
  function Spine(d: Digest): nat { if d.NodeHash? then 1 + Spine(d.left) else 0 }

  lemma {:induction false} SpineOfRoot(level: seq<Digest>, h: nat)
    requires level != [] && Spine(level[0]) == h
    ensures Spine(RootOf(level)) == h + Depth(|level|)
    decreases |level|
  {
    if |level| <= 1 {
    } else {
      NextLevelAt(level, 0);
      SpineOfRoot(NextLevel(level), h + 1);
    }
  }

  lemma PaddedLeaves(entries: seq<Text>)
    requires entries != []
    ensures Padded(Leaves(entries)) == Leaves(Padded(entries))
  {}

  /** Without the count, a root fixes exactly the padded log. */
  lemma RootFixesPaddedLog(a: seq<Text>, b: seq<Text>)
    requires a != [] && b != []
    ensures Root(a) == Root(b) <==> Padded(a) == Padded(b)
  {
    PaddedLeaves(a);
    PaddedLeaves(b);
    RootOfPadded(Leaves(a));
    RootOfPadded(Leaves(b));
    if Root(a) == Root(b) {
      SpineOfRoot(Leaves(a), 0);
      SpineOfRoot(Leaves(b), 0);
      RootAndCountFixTheLog(Padded(a), Padded(b));
    }
  }

  // ---------------------------------------------------------------- accepted proofs

  /** `leaf` occurs in the tree below `d`. */
  predicate Below(leaf: Digest, d: Digest) {
    leaf == d || (d.NodeHash? && (Below(leaf, d.left) || Below(leaf, d.right)))
  }

  lemma {:induction false} FoldKeepsBelow(leaf: Digest, acc: Digest, path: seq<PathStep>)
    requires Below(leaf, acc)
    ensures Below(leaf, Fold(acc, path))
    decreases |path|
  {
    if path != [] { FoldKeepsBelow(leaf, Climb(acc, path[0]), path[1..]); }
  }

  /** Leaf hashes below the next level are below this one. */
  lemma {:induction false} BelowNextLevel(x: Text, level: seq<Digest>, d: Digest)
    requires d in NextLevel(level) && Below(LeafHash(x), d)
    ensures exists c :: c in level && Below(LeafHash(x), c)
  {
    if |level| > 1 && d != NodeHash(level[0], level[1]) {
      BelowNextLevel(x, level[2..], d);
      var c :| c in level[2..] && Below(LeafHash(x), c);
      assert c in level;
    } else {
      assert level[0] in level;
      if |level| > 1 { assert level[1] in level; }
    }
  }

  lemma {:induction false} BelowRoot(x: Text, level: seq<Digest>)
    requires level != [] && Below(LeafHash(x), RootOf(level))
    ensures exists c :: c in level && Below(LeafHash(x), c)
    decreases |level|
  {
    if |level| > 1 {
      BelowRoot(x, NextLevel(level));
      var d :| d in NextLevel(level) && Below(LeafHash(x), d);
      BelowNextLevel(x, level, d);
    } else {
      assert level[0] in level;
    }
  }

  /** Whatever path is presented: if it climbs from the leaf hash of x to the root, x is in the log. */
  lemma AcceptedProofIsInclusion(entries: seq<Text>, proof: Proof, x: Text)
    requires Accepts(proof, Root(entries)) && proof.leaf == LeafHash(x)
    ensures x in entries
  {
    FoldKeepsBelow(LeafHash(x), LeafHash(x), proof.path);
    if entries != [] {
      BelowRoot(x, Leaves(entries));
      var c :| c in Leaves(entries) && Below(LeafHash(x), c);
      var i :| 0 <= i < |entries| && Leaves(entries)[i] == c;
    }
  }

  // ---------------------------------------------------------------- produced proofs

  lemma {:induction false} PathClimbs(level: seq<Digest>, i: nat)
    requires i < |level|
    ensures Fold(level[i], PathFrom(level, i)) == RootOf(level)
    decreases |level|
  {
    if |level| <= 1 {
    } else {
      StepClimbs(level, i);
      assert PathFrom(level, i)[1..] == PathFrom(NextLevel(level), i / 2);
      PathClimbs(NextLevel(level), i / 2);
    }
  }

  lemma StepClimbs(level: seq<Digest>, i: nat)
    requires i < |level| && |level| > 1
    ensures i / 2 < |NextLevel(level)| && Climb(level[i], StepAt(level, i)) == NextLevel(level)[i / 2]
  {
    PairClimbs(level, i / 2, i);
  }

  lemma PairClimbs(level: seq<Digest>, j: nat, i: nat)
    requires i < |level| && (i == 2 * j || i == 2 * j + 1)
    ensures j < |NextLevel(level)| && Climb(level[i], StepAt(level, i)) == NextLevel(level)[j]
  {
    NextLevelAt(level, j);
  }

  /** `k` is the logarithm of n to base two, rounded up. */
  predicate CeilLog2(k: nat, n: nat) {
    n <= Pow2(k) && (k > 0 ==> Pow2(k - 1) < n)
  }

  lemma {:induction false} PathLength(level: seq<Digest>, i: nat)
    requires i < |level|
    ensures CeilLog2(|PathFrom(level, i)|, |level|)
    decreases |level|
  {
    if |level| > 1 { PathLength(NextLevel(level), i / 2); }
  }

  /** Every entry of every log has a proof that verifies, of exactly ceil(log2 n) steps. */
  lemma ProducedProofVerifies(entries: seq<Text>, index: nat)
    requires index < |entries|
    ensures Accepts(Proof(LeafHash(entries[index]), index, PathFrom(Leaves(entries), index), Root(entries), |entries|),
                    Root(entries))
    ensures CeilLog2(|PathFrom(Leaves(entries), index)|, |entries|)
  {
    PathClimbs(Leaves(entries), index);
    PathLength(Leaves(entries), index);
  }

  // ---------------------------------------------------------------- checkpoints

  datatype Checkpoint = Checkpoint(root: Digest, count: nat, at: int)

  function Canonicals(entries: seq<Val>): (texts: seq<Text>)
    ensures |texts| == |entries|
  {
    seq(|entries|, i requires 0 <= i < |entries| => Print(entries[i]))
  }

  function CheckpointOf(entries: seq<Val>, at: int): Checkpoint {
    Checkpoint(Root(Canonicals(entries)), |entries|, at)
  }

  /** The later log extends the earlier one, and both reproduce their checkpoints. */
  predicate Consistent(earlier: Checkpoint, later: Checkpoint, es: seq<Val>, fs: seq<Val>) {
    && earlier.count <= later.count && earlier.count <= |es| && later.count <= |fs|
    && es[..earlier.count] == fs[..earlier.count]
    && Root(Canonicals(es[..earlier.count])) == earlier.root
    && Root(Canonicals(fs[..later.count])) == later.root
  }

  method VerifyConsistency(earlier: Checkpoint, later: Checkpoint, es: seq<Val>, fs: seq<Val>) returns (ok: bool)
    ensures ok == Consistent(earlier, later, es, fs)
  {
    if later.count < earlier.count { return false; }
    if |es| < earlier.count || |fs| < later.count { return false; }
    for i := 0 to earlier.count
      invariant es[..i] == fs[..i]
    {
      if Print(es[i]) != Print(fs[i]) {
        assert es[..earlier.count][i] != fs[..earlier.count][i];
        return false;
      }
      PrintInjective(es[i], fs[i]);
    }
    var a := MerkleRoot(Canonicals(es[..earlier.count]));
    var b := MerkleRoot(Canonicals(fs[..later.count]));
    ok := a == earlier.root && b == later.root;
  }

  lemma CanonicalsInjective(a: seq<Val>, b: seq<Val>)
    requires Canonicals(a) == Canonicals(b)
    ensures a == b
  {
    assert |a| == |Canonicals(a)| == |Canonicals(b)| == |b|;
    forall i | 0 <= i < |a| ensures a[i] == b[i] {
      assert Canonicals(a)[i] == Canonicals(b)[i];
      PrintInjective(a[i], b[i]);
    }
  }

  /**
   * Whatever entries are presented against checkpoints of two real logs: acceptance means that
   * they are those logs (up to later appends) and that the later log extends the earlier one.
   */
  lemma ConsistencyIsExtension(log: seq<Val>, grown: seq<Val>, at: int, later: int, es: seq<Val>, fs: seq<Val>)
    ensures Consistent(CheckpointOf(log, at), CheckpointOf(grown, later), es, fs)
      <==> log <= es && grown <= fs && log <= grown
  {
    var a, b := CheckpointOf(log, at), CheckpointOf(grown, later);
    if Consistent(a, b, es, fs) {
      RootAndCountFixTheLog(Canonicals(es[..a.count]), Canonicals(log));
      CanonicalsInjective(es[..a.count], log);
      RootAndCountFixTheLog(Canonicals(fs[..b.count]), Canonicals(grown));
      CanonicalsInjective(fs[..b.count], grown);
      assert fs[..b.count][..a.count] == fs[..a.count];
    }
    if log <= es && grown <= fs && log <= grown {
      assert es[..a.count] == log && fs[..b.count] == grown && grown[..a.count] == log;
      assert fs[..b.count][..a.count] == fs[..a.count];
    }
  }
}
