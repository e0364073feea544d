/**
 * What grants and capabilities share: path coverage between actions (`isCovered` in
 * src/core/authority.ts) and the skew of time windows.
 */
module Coverage {
  import opened Basics

  const SLASH: CodeUnit := 47

  /** Seconds of clock skew every time window tolerates. */
  const SKEW := 60

  /** An expiry is past, skew included: the entry may be pruned. */
  predicate Stale(exp: Option<int>, now: int) {
    exp.Some? && now > exp.value + SKEW
  }

  predicate EndsWithSlash(t: Text) {
    t != [] && t[|t| - 1] == SLASH
  }

  function Folder(broad: Text): Text {
    if EndsWithSlash(broad) then broad else broad + [SLASH]
  }

  predicate IsCovered(broad: Text, narrow: Text) {
    narrow == broad || StartsWith(narrow, Folder(broad))
  }

  lemma CoveredTransitive(a: Text, b: Text, c: Text)
    requires IsCovered(a, b) && IsCovered(b, c)
    ensures IsCovered(a, c)
  {
    if a != b && b != c {
      assert b <= Folder(b);
      PrefixTransitive(Folder(a), b, Folder(b));
      PrefixTransitive(Folder(a), Folder(b), c);
    }
  }

  lemma PrefixTransitive(a: Text, b: Text, c: Text)
    requires a <= b && b <= c
    ensures a <= c
  {}

  /** A command family: the root command and everything under it. */
  predicate InFamily(root: Text, cmd: Text) {
    cmd == root || StartsWith(cmd, root + [SLASH])
  }

  lemma FamilyCovers(root: Text, broad: Text, narrow: Text)
    requires root != [] && !EndsWithSlash(root)
    requires InFamily(root, broad) && IsCovered(broad, narrow)
    ensures InFamily(root, narrow)
  {
    if narrow != broad && broad != root {
      assert broad <= Folder(broad);
      PrefixTransitive(root + [SLASH], broad, Folder(broad));
      PrefixTransitive(root + [SLASH], Folder(broad), narrow);
    }
  }
}
