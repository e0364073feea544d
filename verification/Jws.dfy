/**
 * ES256 signature encodings (src/adapters/jws.ts): raw R||S of section 3.4 of RFC 7518 and the
 * DER sequence of two INTEGERs of section 8.3 of X.690.
 */
module Jws {
  import opened Basics

  type Byte = b: int | 0 <= b < 256

  type Bytes = seq<Byte>

  // ---------------------------------------------------------------- raw to DER

  function Minimal(b: Bytes): Bytes {
    if |b| > 1 && b[0] == 0 && b[1] < 0x80 then Minimal(b[1..]) else b
  }

  /** The contents octets of an INTEGER: never negative. */
  function Contents(b: Bytes): Bytes {
    var v := Minimal(b);
    if v != [] && v[0] >= 0x80 then [0] + v else v
  }

  function Integer(b: Bytes): Bytes
    requires |Contents(b)| < 256
  {
    [2, |Contents(b)|] + Contents(b)
  }

  lemma {:induction false} MinimalLength(b: Bytes)
    ensures |Minimal(b)| <= |b| && (b != [] ==> Minimal(b) != [])
  {
    if |b| > 1 && b[0] == 0 && b[1] < 0x80 { MinimalLength(b[1..]); }
  }

  /** Short or long form. */
  function LengthOctets(total: nat): Bytes
    requires total < 256
  {
    if total < 128 then [total] else [0x81, total]
  }

  /** The sequence of two INTEGERs. */
  function Der(raw: Bytes): Bytes
    requires |raw| == 64
  {
    MinimalLength(raw[..32]);
    MinimalLength(raw[32..]);
    var r, s := Integer(raw[..32]), Integer(raw[32..]);
    [0x30] + LengthOctets(|r| + |s|) + r + s
  }

  method MinimalBytes(b: Bytes) returns (v: Bytes)
    ensures v == Minimal(b)
  {
    v := b;
    while |v| > 1 && v[0] == 0 && v[1] < 0x80
      invariant Minimal(v) == Minimal(b)
    {
      v := v[1..];
    }
  }

  method EncodeInteger(b: Bytes) returns (out: Bytes)
    requires |b| == 32
    ensures |Contents(b)| < 256 && out == Integer(b)
  {
    MinimalLength(b);
    var v := MinimalBytes(b);
    var p := if v[0] >= 0x80 then [0] + v else v;
    out := [2, |p|] + p;
  }

  /** None is a throw: the signature is not 64 bytes long. */
  method RawToDer(raw: Bytes) returns (der: Option<Bytes>)
    ensures der.Some? <==> |raw| == 64
    ensures der.Some? ==> der.value == Der(raw)
  {
    if |raw| != 64 { return None; }
    var r := EncodeInteger(raw[..32]);
    var s := EncodeInteger(raw[32..]);
    MinimalLength(raw[..32]);
    MinimalLength(raw[32..]);
    return Some([0x30] + LengthOctets(|r| + |s|) + r + s);
  }

  // ---------------------------------------------------------------- DER to raw

  /** Buffer indexing: None is `undefined`. */
  function At(b: Bytes, i: Option<nat>): Option<Byte> {
    if i.Some? && i.value < |b| then Some(b[i.value]) else None
  }

  function Clip(b: Bytes, i: nat): nat { if i <= |b| then i else |b| }

  /** Buffer.slice for non-negative bounds. */
  function Slice(b: Bytes, from: nat, to: nat): Bytes {
    if Clip(b, from) <= Clip(b, to) then b[Clip(b, from)..Clip(b, to)] else []
  }

  function Zeros(n: nat): Bytes { seq(n, _ => 0) }

  /** One zero octet of sign is dropped; short values are padded on the left. */
  function Padded(v: Bytes): Bytes {
    var t := if v != [] && v[0] == 0 then v[1..] else v;
    if |t| < 32 then Zeros(32 - |t|) + t else t
  }

  /** The value read and the next offset; an offset None is NaN, a result None is a throw. */
  datatype Read = Read(value: Bytes, next: Option<nat>)

  function ReadInteger(der: Bytes, o: Option<nat>): Option<Read> {
    if At(der, o) != Some(2) then None
    else
      var length := At(der, Some(o.value + 1));
      if length.None? then Some(Read(Padded([]), None))
      else Some(Read(Padded(Slice(der, o.value + 2, o.value + 2 + length.value)), Some(o.value + 2 + length.value)))
  }

  function HeaderEnd(der: Bytes): nat {
    var length := At(der, Some(1));
    if length.Some? && length.value >= 0x80 then 2 + (length.value - 0x80) else 2
  }

  function Raw(der: Bytes): Option<Bytes> {
    if At(der, Some(0)) != Some(0x30) then None
    else
      var r := ReadInteger(der, Some(HeaderEnd(der)));
      if r.None? then None
      else
        var s := ReadInteger(der, r.value.next);
        if s.None? then None else Some(r.value.value + s.value.value)
  }

  /** None is a throw. */
  method EsDerToRaw(der: Bytes) returns (raw: Option<Bytes>)
    ensures raw == Raw(der)
  {
    var o := 0;
    if At(der, Some(o)) != Some(0x30) { return None; }
    o := o + 1;
    var len := At(der, Some(o));
    o := o + 1;
    if len.Some? && len.value >= 0x80 {
      var count := len.value - 0x80;
      o := o + count;
    }
    var r := ReadInteger(der, Some(o));
    if r.None? { return None; }
    var s := ReadInteger(der, r.value.next);
    if s.None? { return None; }
    return Some(r.value.value + s.value.value);
  }

  // ---------------------------------------------------------------- laws

  function BigEndian(b: Bytes): nat {
    if b == [] then 0 else BigEndian(b[..|b| - 1]) * 256 + b[|b| - 1]
  }

  lemma {:induction false} LeadingZero(b: Bytes)
    ensures BigEndian([0] + b) == BigEndian(b)
  {
    if b != [] {
      assert ([0] + b)[..|b|] == [0] + b[..|b| - 1];
      LeadingZero(b[..|b| - 1]);
    } else {
      assert ([0] + b)[..0] == [];
    }
  }

  lemma OneMoreZero(n: nat, m: Bytes)
    requires n > 0
    ensures [0] + (Zeros(n - 1) + m) == Zeros(n) + m
  {
    assert Zeros(n) == [0] + Zeros(n - 1);
  }

  /** Stripping removes zeros only. */
  lemma {:induction false} MinimalIs(b: Bytes)
    ensures |Minimal(b)| <= |b| && b == Zeros(|b| - |Minimal(b)|) + Minimal(b)
    ensures BigEndian(Minimal(b)) == BigEndian(b)
  {
    MinimalLength(b);
    if |b| > 1 && b[0] == 0 && b[1] < 0x80 {
      MinimalIs(b[1..]);
      assert b == [0] + b[1..];
      LeadingZero(b[1..]);
      OneMoreZero(|b| - |Minimal(b)|, Minimal(b));
    } else {
      assert Zeros(0) + b == b;
    }
  }

  /** The first nine bits are not all zero, and the value is not negative: section 8.3 of X.690. */
  predicate MinimalNonNegative(p: Bytes) {
    && p != [] && p[0] < 0x80
    && (|p| > 1 && p[0] == 0 ==> p[1] >= 0x80)
  }

  lemma {:induction false} MinimalStops(b: Bytes)
    ensures var v := Minimal(b); |v| > 1 && v[0] == 0 ==> v[1] >= 0x80
  {
    if |b| > 1 && b[0] == 0 && b[1] < 0x80 { MinimalStops(b[1..]); }
  }

  /** Each INTEGER is the shortest non-negative encoding of the same number. */
  lemma ContentsMinimal(b: Bytes)
    requires b != []
    ensures MinimalNonNegative(Contents(b)) && BigEndian(Contents(b)) == BigEndian(b) && |Contents(b)| <= |b| + 1
  {
    MinimalLength(b);
    MinimalIs(b);
    MinimalStops(b);
    LeadingZero(Minimal(b));
  }

  /** Reading back the contents of a 32-byte half gives the half. */
  lemma ContentsRead(b: Bytes)
    requires |b| == 32
    ensures Padded(Contents(b)) == b && 1 <= |Contents(b)| <= 33
  {
    MinimalLength(b);
    MinimalIs(b);
    var m := Minimal(b);
    if m[0] == 0 {
      assert Contents(b) == m;
      assert Zeros(33 - |m|) == Zeros(32 - |m|) + [0] && m == [0] + m[1..];
      assert Zeros(32 - |m|) + m == (Zeros(32 - |m|) + [0]) + m[1..];
    } else if m[0] >= 0x80 {
      assert Contents(b)[1..] == m;
    }
  }

  /** The shape of an encoded signature: always the short length form. */
  lemma DerShape(raw: Bytes)
    requires |raw| == 64
    ensures var c, d := Contents(raw[..32]), Contents(raw[32..]);
      && |c| <= 33 && |d| <= 33
      && Der(raw) == [0x30, 4 + |c| + |d|, 2, |c|] + c + [2, |d|] + d
      && Der(raw)[1] <= 70
  {
    ContentsRead(raw[..32]);
    ContentsRead(raw[32..]);
    var c, d := Contents(raw[..32]), Contents(raw[32..]);
    assert [0x30] + [4 + |c| + |d|] + ([2, |c|] + c) + ([2, |d|] + d) == [0x30, 4 + |c| + |d|, 2, |c|] + c + [2, |d|] + d;
  }

  /** Two INTEGERs in a row, at any offset, are read one after the other. */
  lemma IntegerRead(before: Bytes, b: Bytes, after: Bytes)
    requires |b| == 32
    ensures |Contents(b)| <= 33
    ensures ReadInteger(before + [2, |Contents(b)|] + Contents(b) + after, Some(|before|))
         == Some(Read(b, Some(|before| + 2 + |Contents(b)|)))
  {
    ContentsRead(b);
    var c := Contents(b);
    var der := before + [2, |c|] + c + after;
    assert der[|before|] == 2 && der[|before| + 1] == |c|;
    assert der[|before| + 2..|before| + 2 + |c|] == c;
  }

  lemma Regroup(a: Bytes, b: Bytes, c: Bytes, d: Bytes, e: Bytes)
    ensures (a + b) + c + d + e == a + b + c + (d + e)
  {}

  lemma FirstHalfRead(raw: Bytes)
    requires |raw| == 64
    ensures var c := Contents(raw[..32]);
      |c| <= 33 && ReadInteger(Der(raw), Some(2)) == Some(Read(raw[..32], Some(4 + |c|)))
  {
    DerShape(raw);
    var c, d := Contents(raw[..32]), Contents(raw[32..]);
    var head: Bytes := [0x30, 4 + |c| + |d|];
    IntegerRead(head, raw[..32], [2, |d|] + d);
    assert head + [2, |c|] == [0x30, 4 + |c| + |d|, 2, |c|];
    Regroup(head, [2, |c|], c, [2, |d|], d);
  }

  lemma SecondHalfRead(raw: Bytes)
    requires |raw| == 64
    ensures var c, d := Contents(raw[..32]), Contents(raw[32..]);
      |d| <= 33 && ReadInteger(Der(raw), Some(4 + |c|)) == Some(Read(raw[32..], Some(6 + |c| + |d|)))
  {
    DerShape(raw);
    var c, d := Contents(raw[..32]), Contents(raw[32..]);
    var before: Bytes := [0x30, 4 + |c| + |d|, 2, |c|] + c;
    IntegerRead(before, raw[32..], []);
    assert Der(raw) == before + [2, |d|] + d + [];
  }

  /** Encoding and decoding is the identity on every 64-byte signature. */
  lemma RawRoundTrips(raw: Bytes)
    requires |raw| == 64
    ensures Raw(Der(raw)) == Some(raw)
  {
    DerShape(raw);
    FirstHalfRead(raw);
    SecondHalfRead(raw);
    assert raw == raw[..32] + raw[32..];
  }

  // ---------------------------------------------------------------- what is read

  /** The length octets of the sequence: one below 128, or a count and that many. */
  predicate Header(h: Bytes) { h != [] && (if h[0] < 128 then |h| == 1 else |h| == 1 + (h[0] - 128)) }

  /** `w` is `v` without one leading zero octet, filled up with zeros to 32 octets. */
  predicate Fitted(v: Bytes, w: Bytes) {
    var t := if v != [] && v[0] == 0 then v[1..] else v;
    && |w| == (if |t| < 32 then 32 else |t|)
    && w[|w| - |t|..] == t && forall i :: 0 <= i < |w| - |t| ==> w[i] == 0
  }

  lemma FittedMeans(v: Bytes)
    ensures Fitted(v, Padded(v))
  {}

  lemma AnyIntegerRead(before: Bytes, c: Bytes, after: Bytes)
    requires |c| < 256
    ensures ReadInteger(before + [2, |c|] + c + after, Some(|before|)) == Some(Read(Padded(c), Some(|before| + 2 + |c|)))
  {
    var der := before + [2, |c|] + c + after;
    assert der[|before|] == 2 && der[|before| + 1] == |c|;
    assert der[|before| + 2..|before| + 2 + |c|] == c;
  }

  lemma HeaderEnds(h: Bytes, rest: Bytes, der: Bytes)
    requires Header(h) && der == [48] + h + rest
    ensures der[0] == 48 && HeaderEnd(der) == 1 + |h| && der[1 + |h|..] == rest
  {
    assert der[1] == h[0];
  }

  lemma BothRead(der: Bytes, r: Read, s: Read)
    requires At(der, Some(0)) == Some(48) && ReadInteger(der, Some(HeaderEnd(der))) == Some(r)
    requires ReadInteger(der, r.next) == Some(s)
    ensures Raw(der) == Some(r.value + s.value)
  {}

  /** Two INTEGERs that lie one after the other. */
  lemma ReadTwo(der: Bytes, x: Bytes, c: Bytes, mid: Bytes, y: Bytes, d: Bytes, tail: Bytes)
    requires |c| < 256 && |d| < 256 && der != [] && der[0] == 48 && HeaderEnd(der) == |x| && |y| == |x| + 2 + |c|
    requires der == x + [2, |c|] + c + mid && der == y + [2, |d|] + d + tail
    ensures Raw(der) == Some(Padded(c) + Padded(d))
  {
    AnyIntegerRead(x, c, mid);
    AnyIntegerRead(y, d, tail);
    BothRead(der, Read(Padded(c), Some(|y|)), Read(Padded(d), Some(|y| + 2 + |d|)));
  }

  /** The text around each INTEGER. */
  lemma Around(h: Bytes, c: Bytes, d: Bytes, tail: Bytes, i: Bytes, j: Bytes, der: Bytes)
    requires |c| < 256 && |d| < 256 && i == [2, |c|] + c && j == [2, |d|] + d && der == [48] + h + i + j + tail
    ensures der == [48] + h + (i + j + tail)
    ensures der == ([48] + h) + [2, |c|] + c + (j + tail)
    ensures der == ([48] + h + i) + [2, |d|] + d + tail
  {
    assert i + (j + tail) == [2, |c|] + c + (j + tail);
    assert j + tail == [2, |d|] + d + tail;
  }

  /** A sequence of two INTEGERs is read whatever its length octets say and whatever follows. */
  lemma SequenceRead(h: Bytes, c: Bytes, d: Bytes, tail: Bytes) returns (r: Bytes, s: Bytes)
    requires Header(h) && |c| < 256 && |d| < 256
    ensures Fitted(c, r) && Fitted(d, s)
    ensures Raw([48] + h + ([2, |c|] + c) + ([2, |d|] + d) + tail) == Some(r + s)
  {
    var i: Bytes, j: Bytes := [2, |c|] + c, [2, |d|] + d;
    var der := [48] + h + i + j + tail;
    r, s := Padded(c), Padded(d);
    FittedMeans(c);
    FittedMeans(d);
    Around(h, c, d, tail, i, j, der);
    HeaderEnds(h, i + j + tail, der);
    ReadTwo(der, [48] + h, c, j + tail, [48] + h + i, d, tail);
  }

  /** Nothing is read without the tag of the sequence, or of the INTEGER that must follow its length octets. */
  lemma TagsAreNeeded(h: Bytes, rest: Bytes, der: Bytes)
    requires Header(h) && (rest == [] || rest[0] != 2)
    ensures Raw([48] + h + rest).None?
    ensures der == [] || der[0] != 48 ==> Raw(der).None?
  {
    var t := [48] + h + rest;
    HeaderEnds(h, rest, t);
    if rest != [] { assert t[1 + |h|] == rest[0]; }
  }
}
