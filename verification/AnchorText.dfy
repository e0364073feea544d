/**
 * The Merkle anchor over hash text (src/store/anchor.ts): digests are strings, the two children of a
 * node are joined without a separator, and a presented path may hold any strings. Nothing is assumed
 * of the hash but that its outputs have one length: every result names the collision that breaks it.
 */
module AnchorText {
  import opened Basics
  import opened Anchor

  type Hash = Text -> Text

  const LEAF := Lit("leaf:")
  const NODE := Lit("node:")

  ghost predicate FixedLength(hash: Hash, m: nat) { m > 0 && forall t :: |hash(t)| == m }

  function LeafText(hash: Hash, entry: Text): Text { hash(LEAF + entry) }

  function NodeText(hash: Hash, left: Text, right: Text): Text { hash(NODE + left + right) }

  // ---------------------------------------------------------------- the text of a tree

  /** The string a digest term stands for. */
  function Render(hash: Hash, d: Digest): Text {
    match d
    case NoRoot => []
    case LeafHash(entry) => LeafText(hash, entry)
    case NodeHash(left, right) => NodeText(hash, Render(hash, left), Render(hash, right))
  }

  predicate Whole(d: Digest) {
    match d
    case NoRoot => false
    case LeafHash(_) => true
    case NodeHash(left, right) => Whole(left) && Whole(right)
  }

  /** The text hashed at the top of a tree. */
  function InputOf(hash: Hash, d: Digest): Text
    requires !d.NoRoot?
  {
    match d
    case LeafHash(entry) => LEAF + entry
    case NodeHash(left, right) => NODE + Render(hash, left) + Render(hash, right)
  }

  /** Every text hashed to build a tree. */
  function Inputs(hash: Hash, d: Digest): set<Text> {
    match d
    case NoRoot => {}
    case LeafHash(entry) => {LEAF + entry}
    case NodeHash(left, right) => {InputOf(hash, d)} + Inputs(hash, left) + Inputs(hash, right)
  }

  predicate Collides(hash: Hash, a: set<Text>, b: set<Text>) {
    exists x, y :: x in a && y in b && x != y && hash(x) == hash(y)
  }

  lemma CollidesMore(hash: Hash, a: set<Text>, b: set<Text>, more: set<Text>, others: set<Text>)
    requires Collides(hash, a, b) && a <= more && b <= others
    ensures Collides(hash, more, others)
  {}

  lemma TagsDiffer(t: Text, u: Text, v: Text)
    ensures LEAF + t != NODE + u + v
  {
    assert (LEAF + t)[0] == LEAF[0] == 'l' as int && (NODE + u + v)[0] == NODE[0] == 'n' as int;
  }

  lemma RenderedLength(hash: Hash, m: nat, d: Digest)
    requires FixedLength(hash, m) && !d.NoRoot?
    ensures |Render(hash, d)| == m && Render(hash, d) == hash(InputOf(hash, d)) && InputOf(hash, d) in Inputs(hash, d)
  {}

  /** Joined halves of which one has a known length are fixed by their text. */
  lemma HalvesSplit(a: Text, b: Text, c: Text, d: Text)
    requires a + b == c + d && (|a| == |c| || |b| == |d|)
    ensures a == c && b == d
  {
    assert |a| + |b| == |a + b| == |c + d| == |c| + |d|;
    assert a == (a + b)[..|a|] && c == (c + d)[..|a|] && b == (a + b)[|a|..] && d == (c + d)[|a|..];
  }

  lemma NodeInputSplits(a: Text, b: Text, c: Text, d: Text)
    requires NODE + a + b == NODE + c + d && (|a| == |c| || |b| == |d|)
    ensures a == c && b == d
  {
    assert NODE + (a + b) == NODE + a + b && NODE + (c + d) == NODE + c + d;
    HalvesSplit(NODE, a + b, NODE, c + d);
    HalvesSplit(a, b, c, d);
  }

  /** Two trees of equal text are equal, or building them hashes a collision. */
  lemma {:induction false} RenderDetermines(hash: Hash, m: nat, d: Digest, e: Digest)
    requires FixedLength(hash, m) && Whole(d) && Whole(e) && Render(hash, d) == Render(hash, e)
    ensures d == e || Collides(hash, Inputs(hash, d), Inputs(hash, e))
  {
    RenderedLength(hash, m, d);
    RenderedLength(hash, m, e);
    if InputOf(hash, d) == InputOf(hash, e) {
      if d.NodeHash? && e.NodeHash? {
        RenderedLength(hash, m, d.left);
        RenderedLength(hash, m, e.left);
        NodeInputSplits(Render(hash, d.left), Render(hash, d.right), Render(hash, e.left), Render(hash, e.right));
        RenderDetermines(hash, m, d.left, e.left);
        RenderDetermines(hash, m, d.right, e.right);
        if d.left != e.left {
          CollidesMore(hash, Inputs(hash, d.left), Inputs(hash, e.left), Inputs(hash, d), Inputs(hash, e));
        } else if d.right != e.right {
          CollidesMore(hash, Inputs(hash, d.right), Inputs(hash, e.right), Inputs(hash, d), Inputs(hash, e));
        }
      } else if d.LeafHash? && e.LeafHash? {
        HalvesSplit(LEAF, d.entry, LEAF, e.entry);
      } else if d.LeafHash? {
        TagsDiffer(d.entry, Render(hash, e.left), Render(hash, e.right));
      } else {
        TagsDiffer(e.entry, Render(hash, d.left), Render(hash, d.right));
      }
    }
  }

  // ---------------------------------------------------------------- presented paths

  /** One step of a presented path: any string at all. */
  datatype TextStep = TextStep(sibling: Text, left: bool)

  datatype TextProof = TextProof(leaf: Text, leafIndex: int, path: seq<TextStep>, root: Text, count: nat)

  function StepInput(acc: Text, step: TextStep): Text {
    if step.left then NODE + step.sibling + acc else NODE + acc + step.sibling
  }

  function FoldText(hash: Hash, leaf: Text, path: seq<TextStep>): Text {
    if path == [] then leaf else hash(StepInput(FoldText(hash, leaf, ButLast(path)), Last(path)))
  }

  predicate AcceptsText(hash: Hash, proof: TextProof, root: Text) {
    proof.root == root && FoldText(hash, proof.leaf, proof.path) == root
  }

  method VerifyInclusionText(hash: Hash, proof: TextProof, root: Text) returns (ok: bool)
    ensures ok == AcceptsText(hash, proof, root)
  {
    if proof.root != root { return false; }
    var acc := proof.leaf;
    for i := 0 to |proof.path|
      invariant acc == FoldText(hash, proof.leaf, proof.path[..i])
    {
      var step := proof.path[i];
      assert ButLast(proof.path[..i + 1]) == proof.path[..i] && Last(proof.path[..i + 1]) == step;
      acc := if step.left then NodeText(hash, step.sibling, acc) else NodeText(hash, acc, step.sibling);
    }
    assert proof.path[..|proof.path|] == proof.path;
    ok := acc == root;
  }

  /** Every text hashed while a path is verified, from the leaf's own. */
  function PathInputs(hash: Hash, x: Text, path: seq<TextStep>): set<Text> {
    if path == [] then {LEAF + x}
    else PathInputs(hash, x, ButLast(path)) + {StepInput(FoldText(hash, LeafText(hash, x), ButLast(path)), Last(path))}
  }

  lemma FoldedLength(hash: Hash, m: nat, x: Text, path: seq<TextStep>)
    requires FixedLength(hash, m)
    ensures |FoldText(hash, LeafText(hash, x), path)| == m
  {}

  /** A step that lands on a tree's text came from the text of one of its children. */
  lemma StepDescends(hash: Hash, m: nat, d: Digest, acc: Text, step: TextStep)
    requires FixedLength(hash, m) && Whole(d) && |acc| == m && StepInput(acc, step) == InputOf(hash, d)
    ensures d.NodeHash? && acc == Render(hash, if step.left then d.right else d.left)
  {
    if d.LeafHash? {
      TagsDiffer(d.entry, if step.left then step.sibling else acc, if step.left then acc else step.sibling);
    } else {
      RenderedLength(hash, m, d.left);
      RenderedLength(hash, m, d.right);
      if step.left {
        NodeInputSplits(step.sibling, acc, Render(hash, d.left), Render(hash, d.right));
      } else {
        NodeInputSplits(acc, step.sibling, Render(hash, d.left), Render(hash, d.right));
      }
    }
  }

  /** A path that climbs from the leaf of x to the text of a tree, or a collision on the way. */
  lemma {:induction false} PathIsBelow(hash: Hash, m: nat, d: Digest, x: Text, path: seq<TextStep>)
    requires FixedLength(hash, m) && Whole(d) && FoldText(hash, LeafText(hash, x), path) == Render(hash, d)
    ensures Below(LeafHash(x), d) || Collides(hash, Inputs(hash, d), PathInputs(hash, x, path))
    decreases |path|
  {
    RenderedLength(hash, m, d);
    if path == [] {
      RenderDetermines(hash, m, d, LeafHash(x));
    } else {
      var acc, step := FoldText(hash, LeafText(hash, x), ButLast(path)), Last(path);
      if StepInput(acc, step) == InputOf(hash, d) {
        FoldedLength(hash, m, x, ButLast(path));
        StepDescends(hash, m, d, acc, step);
        var child := if step.left then d.right else d.left;
        PathIsBelow(hash, m, child, x, ButLast(path));
        if !Below(LeafHash(x), child) {
          CollidesMore(hash, Inputs(hash, child), PathInputs(hash, x, ButLast(path)),
                       Inputs(hash, d), PathInputs(hash, x, path));
        }
      }
    }
  }

  // ---------------------------------------------------------------- the log's root

  lemma {:induction false} NextIsWhole(level: seq<Digest>)
    requires forall d :: d in level ==> Whole(d)
    ensures forall d :: d in NextLevel(level) ==> Whole(d)
  {
    if |level| >= 2 {
      NextIsWhole(level[2..]);
      assert Whole(level[0]) && Whole(level[1]);
    } else if |level| == 1 {
      assert Whole(level[0]);
    }
  }

  lemma {:induction false} RootOfIsWhole(level: seq<Digest>)
    requires level != [] && forall d :: d in level ==> Whole(d)
    ensures Whole(RootOf(level))
    decreases |level|
  {
    if |level| == 1 {
      assert Whole(level[0]);
    } else {
      NextIsWhole(level);
      RootOfIsWhole(NextLevel(level));
    }
  }

  lemma RootIsWhole(entries: seq<Text>)
    requires entries != []
    ensures Whole(Root(entries))
  {
    RootOfIsWhole(Leaves(entries));
  }

  function RootText(hash: Hash, entries: seq<Text>): Text { Render(hash, Root(entries)) }

  /** Whatever strings a path holds: an accepted proof for the leaf of x is inclusion, or a collision. */
  lemma AcceptedTextIsInclusion(hash: Hash, m: nat, entries: seq<Text>, proof: TextProof, x: Text)
    requires FixedLength(hash, m)
    requires AcceptsText(hash, proof, RootText(hash, entries)) && proof.leaf == LeafText(hash, x)
    ensures x in entries || Collides(hash, Inputs(hash, Root(entries)), PathInputs(hash, x, proof.path))
  {
    FoldedLength(hash, m, x, proof.path);
    if entries != [] {
      RootIsWhole(entries);
      PathIsBelow(hash, m, Root(entries), x, proof.path);
      if Below(LeafHash(x), Root(entries)) {
        BelowRoot(x, Leaves(entries));
        var c :| c in Leaves(entries) && Below(LeafHash(x), c);
        var i :| 0 <= i < |entries| && Leaves(entries)[i] == c;
      }
    }
  }

  /** Equal root strings and equal counts: equal logs, or a collision. */
  lemma TextRootAndCountFixTheLog(hash: Hash, m: nat, a: seq<Text>, b: seq<Text>)
    requires FixedLength(hash, m) && |a| == |b| && RootText(hash, a) == RootText(hash, b)
    ensures a == b || Collides(hash, Inputs(hash, Root(a)), Inputs(hash, Root(b)))
  {
    if a != [] {
      RootIsWhole(a);
      RootIsWhole(b);
      RenderDetermines(hash, m, Root(a), Root(b));
      if Root(a) == Root(b) { RootAndCountFixTheLog(a, b); }
    }
  }

  // ---------------------------------------------------------------- produced proofs as strings

  function RenderPath(hash: Hash, path: seq<PathStep>): (texts: seq<TextStep>)
    ensures |texts| == |path|
  {
    seq(|path|, i requires 0 <= i < |path| => TextStep(Render(hash, path[i].sibling), path[i].left))
  }

  lemma {:induction false} FoldFromFront(hash: Hash, leaf: Text, path: seq<TextStep>)
    requires path != []
    ensures FoldText(hash, leaf, path) == FoldText(hash, hash(StepInput(leaf, path[0])), path[1..])
    decreases |path|
  {
    if |path| == 1 {
      assert ButLast(path) == [] && path[1..] == [];
      assert FoldText(hash, leaf, ButLast(path)) == leaf;
    } else {
      FoldFromFront(hash, leaf, ButLast(path));
      assert ButLast(path)[1..] == ButLast(path[1..]) && Last(path) == Last(path[1..]);
    }
  }

  lemma {:induction false} FoldRenders(hash: Hash, acc: Digest, path: seq<PathStep>)
    ensures FoldText(hash, Render(hash, acc), RenderPath(hash, path)) == Render(hash, Fold(acc, path))
    decreases |path|
  {
    if path == [] {
    } else {
      FoldFromFront(hash, Render(hash, acc), RenderPath(hash, path));
      assert RenderPath(hash, path)[1..] == RenderPath(hash, path[1..]);
      FoldRenders(hash, Climb(acc, path[0]), path[1..]);
    }
  }

  /** The proof the log produces for an entry, as strings, is accepted against the root string. */
  lemma ProducedTextVerifies(hash: Hash, entries: seq<Text>, index: nat)
    requires index < |entries|
    ensures AcceptsText(
      hash,
      TextProof(LeafText(hash, entries[index]), index, RenderPath(hash, PathFrom(Leaves(entries), index)),
                RootText(hash, entries), |entries|),
      RootText(hash, entries))
  {
    PathClimbs(Leaves(entries), index);
    FoldRenders(hash, LeafHash(entries[index]), PathFrom(Leaves(entries), index));
  }

  // ---------------------------------------------------------------- the root, halved

  lemma {:induction false} LevelSplits(a: seq<Digest>, b: seq<Digest>)
    requires |a| % 2 == 0
    ensures NextLevel(a + b) == NextLevel(a) + NextLevel(b)
    decreases |a|
  {
    if a == [] {
      assert a + b == b;
    } else {
      assert (a + b)[2..] == a[2..] + b;
      LevelSplits(a[2..], b);
    }
  }

  lemma {:induction false} RootSplits(a: seq<Digest>, b: seq<Digest>, k: nat)
    requires |a| == Pow2(k) && |b| == Pow2(k)
    ensures RootOf(a + b) == NodeHash(RootOf(a), RootOf(b))
    decreases k
  {
    if k == 0 {
      assert NextLevel(a + b) == [NodeHash(a[0], b[0])];
    } else {
      LevelSplits(a, b);
      RootSplits(NextLevel(a), NextLevel(b), k - 1);
    }
  }

  /**
   * What the root string is: empty for no entry, the tagged hash of one entry, for two full halves the
   * tagged hash of their roots one after the other, and otherwise that of the padded log.
   */
  lemma RootTextMeans(hash: Hash, x: Text, xs: seq<Text>, ys: seq<Text>, k: nat)
    requires |xs| == Pow2(k) && |ys| == Pow2(k)
    ensures RootText(hash, []) == [] && RootText(hash, [x]) == hash(Lit("leaf:") + x)
    ensures RootText(hash, xs + ys) == hash(Lit("node:") + RootText(hash, xs) + RootText(hash, ys))
  {
    assert Leaves(xs + ys) == Leaves(xs) + Leaves(ys);
    RootSplits(Leaves(xs), Leaves(ys), k);
  }

  lemma RootOfPaddedText(hash: Hash, entries: seq<Text>)
    requires entries != []
    ensures RootText(hash, entries) == RootText(hash, Padded(entries)) && |Padded(entries)| == Pow2(Depth(|entries|))
  {
    PaddedLeaves(entries);
    RootOfPadded(Leaves(entries));
  }
}
