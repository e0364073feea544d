/** Vocabulary shared by every module: options, results and JavaScript text. */
module Basics {
  datatype Option<+T> = None | Some(value: T)

  function OrElse<T>(o: Option<T>, default: T): T {
    if o.Some? then o.value else default
  }

  datatype Result<+T, +E> = Ok(value: T) | Err(error: E)

  function ButLast<T>(xs: seq<T>): seq<T>
    requires xs != []
  {
    xs[..|xs| - 1]
  }

  function Last<T>(xs: seq<T>): T
    requires xs != []
  {
    xs[|xs| - 1]
  }

  /** One UTF-16 code unit. Lone surrogates are ordinary values, as in a JavaScript string. */
  type CodeUnit = u: int | 0 <= u < 0x1_0000

  /** A JavaScript string. */
  type Text = seq<CodeUnit>

  /** The JavaScript string spelled by an ASCII literal. */
  function Lit(s: string): Text {
    seq(|s|, i requires 0 <= i < |s| => (s[i] as int) % 0x1_0000)
  }

  predicate Ascii(s: string) {
    forall c :: c in s ==> c < '\U{80}'
  }

  lemma LitInjective(s: string, t: string)
    requires Ascii(s) && Ascii(t)
    requires Lit(s) == Lit(t)
    ensures s == t
  {
    assert |s| == |Lit(s)| == |Lit(t)| == |t|;
    forall i | 0 <= i < |s|
      ensures s[i] == t[i]
    {
      assert Lit(s)[i] == Lit(t)[i] && s[i] in s && t[i] in t;
    }
  }

  /** A letter, a digit, `_`, `.`, `:` or `-`. */
  predicate SafeChar(c: CodeUnit) {
    48 <= c < 58 || 65 <= c <= 90 || 97 <= c <= 122 || c == 95 || c == 46 || c == 58 || c == 45
  }

  predicate StartsWith(s: Text, prefix: Text) {
    prefix <= s
  }

  predicate Distinct<T(==)>(s: seq<T>) {
    forall i, j :: 0 <= i < j < |s| ==> s[i] != s[j]
  }
}
