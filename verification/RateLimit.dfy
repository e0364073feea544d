/** The token bucket of the decision server (`checkRate`, src/pdp-server.ts). Times are milliseconds. */
module RateLimit {
  import opened Basics

  datatype Bucket = Bucket(tokens: real, last: int)

  datatype Verdict = Admitted | Limited(retryAfterSec: int)

  function Ceil(x: real): int { -((-x).Floor) }

  function MaxInt(a: int, b: int): int { if a >= b then a else b }

  function MinReal(a: real, b: real): real { if a <= b then a else b }

  /** What an interval adds at `rpm` tokens a minute. */
  function Gain(rpm: nat, ms: int): real { ms as real * rpm as real / 60000.0 }

  function Refilled(rpm: nat, b: Bucket, now: int): Bucket {
    Bucket(MinReal(rpm as real, b.tokens + Gain(rpm, MaxInt(0, now - b.last))), now)
  }

  /** Whole seconds until a bucket holds a token again. */
  function RetryAfter(rpm: nat, tokens: real): int
    requires rpm > 0
  {
    MaxInt(1, Ceil((1.0 - tokens) * 60000.0 / rpm as real / 1000.0))
  }

  function Fresh(rpm: nat, now: int): Bucket { Bucket(rpm as real, now) }

  /** One request against a bucket. */
  function Use(rpm: nat, b: Bucket, now: int): (Bucket, Verdict)
    requires rpm > 0
  {
    var r := Refilled(rpm, b, now);
    if r.tokens >= 1.0 then (Bucket(r.tokens - 1.0, now), Admitted) else (r, Limited(RetryAfter(rpm, r.tokens)))
  }

  class Limiter {
    const rpm: nat
    var buckets: map<Text, Bucket>

    predicate Valid()
      reads this
    {
      rpm > 0 && forall k :: k in buckets ==> Sound(rpm, buckets[k])
    }

    constructor (rpm: nat)
      requires rpm > 0
      ensures Valid() && this.rpm == rpm && buckets == map[]
    {
      this.rpm := rpm;
      buckets := map[];
    }

    method CheckRate(key: Text, now: int) returns (v: Verdict)
      requires Valid()
      modifies this
      ensures Valid()
      ensures var b := old(if key in buckets then buckets[key] else Fresh(rpm, now));
        v == Use(rpm, b, now).1 && buckets == old(buckets)[key := Use(rpm, b, now).0]
    {
      var b := if key in buckets then buckets[key] else Fresh(rpm, now);
      var elapsed := MaxInt(0, now - b.last);
      var tokens := MinReal(rpm as real, b.tokens + Gain(rpm, elapsed));
      UseSound(rpm, b, now);
      if tokens >= 1.0 {
        tokens := tokens - 1.0;
        v := Admitted;
      } else {
        v := Limited(RetryAfter(rpm, tokens));
      }
      buckets := buckets[key := Bucket(tokens, now)];
    }
  }

  predicate Sound(rpm: nat, b: Bucket) { 0.0 <= b.tokens <= rpm as real }

  lemma GainMonotone(rpm: nat, a: int, b: int)
    requires a <= b
    ensures Gain(rpm, a) <= Gain(rpm, b) && Gain(rpm, b) == Gain(rpm, a) + Gain(rpm, b - a)
    ensures a >= 0 ==> Gain(rpm, a) >= 0.0
  {
    var x, y, r := a as real, b as real, rpm as real;
    assert (y - x) * r >= 0.0;
    assert y * r == x * r + (y - x) * r;
    assert a >= 0 ==> x * r >= 0.0;
  }

  lemma UseSound(rpm: nat, b: Bucket, now: int)
    requires rpm > 0 && Sound(rpm, b)
    ensures Sound(rpm, Use(rpm, b, now).0)
  {
    GainMonotone(rpm, 0, MaxInt(0, now - b.last));
  }

  // ---------------------------------------------------------------- one key over time

  predicate Ordered(times: seq<int>) { forall i, j :: 0 <= i <= j < |times| ==> times[i] <= times[j] }

  /** The bucket after requests at these times. */
  function After(rpm: nat, b: Bucket, times: seq<int>): Bucket
    requires rpm > 0
  {
    if times == [] then b else Use(rpm, After(rpm, b, ButLast(times)), Last(times)).0
  }

  function Admissions(rpm: nat, b: Bucket, times: seq<int>): nat
    requires rpm > 0
  {
    if times == [] then 0
    else
      Admissions(rpm, b, ButLast(times))
      + if Use(rpm, After(rpm, b, ButLast(times)), Last(times)).1.Admitted? then 1 else 0
  }

  /** Every admission was paid for: by the tokens at the first request or by time since then. */
  lemma {:induction false} Paid(rpm: nat, b: Bucket, times: seq<int>)
    requires rpm > 0 && Sound(rpm, b) && Ordered(times) && times != []
    ensures Sound(rpm, After(rpm, b, times)) && After(rpm, b, times).last == Last(times)
    ensures Admissions(rpm, b, times) as real + After(rpm, b, times).tokens
         <= rpm as real + Gain(rpm, Last(times) - times[0])
    decreases |times|
  {
    var front := ButLast(times);
    if front == [] {
      UseSound(rpm, b, times[0]);
    } else {
      Paid(rpm, b, front);
      UseSound(rpm, After(rpm, b, front), Last(times));
      assert Last(front) <= Last(times);
      GainMonotone(rpm, Last(front) - times[0], Last(times) - times[0]);
    }
  }

  lemma {:induction false} AfterSound(rpm: nat, b: Bucket, times: seq<int>)
    requires rpm > 0 && Sound(rpm, b)
    ensures Sound(rpm, After(rpm, b, times))
    decreases |times|
  {
    if times == [] {
    } else {
      AfterSound(rpm, b, ButLast(times));
      UseSound(rpm, After(rpm, b, ButLast(times)), Last(times));
    }
  }

  lemma {:induction false} AfterConcat(rpm: nat, b: Bucket, xs: seq<int>, ys: seq<int>)
    requires rpm > 0
    ensures After(rpm, b, xs + ys) == After(rpm, After(rpm, b, xs), ys)
    ensures Admissions(rpm, b, xs + ys) == Admissions(rpm, b, xs) + Admissions(rpm, After(rpm, b, xs), ys)
    decreases |ys|
  {
    if ys == [] {
      assert xs + ys == xs;
    } else {
      assert ButLast(xs + ys) == xs + ButLast(ys) && Last(xs + ys) == Last(ys);
      AfterConcat(rpm, b, xs, ButLast(ys));
    }
  }

  /**
   * Over any stretch of a key's history, however long it ran before, the requests admitted number
   * at most the bucket size plus what the stretch's duration refills.
   */
  lemma WindowBound(rpm: nat, start: int, before: seq<int>, window: seq<int>)
    requires rpm > 0 && window != [] && Ordered(before + window)
    ensures var all := Admissions(rpm, Fresh(rpm, start), before + window);
      (all - Admissions(rpm, Fresh(rpm, start), before)) as real <= rpm as real + Gain(rpm, Last(window) - window[0])
  {
    var b := Fresh(rpm, start);
    AfterConcat(rpm, b, before, window);
    AfterSound(rpm, b, before);
    forall i, j | 0 <= i <= j < |window| ensures window[i] <= window[j] {
      assert (before + window)[|before| + i] <= (before + window)[|before| + j];
    }
    Paid(rpm, After(rpm, b, before), window);
  }

  // ---------------------------------------------------------------- retrying

  lemma CeilIs(x: real)
    ensures x <= Ceil(x) as real < x + 1.0
  {}

  /** Seconds that buy a deficit back, and no fewer do. */
  lemma SecondsBuy(rpm: nat, deficit: real, seconds: int)
    requires rpm > 0
    ensures deficit * 60000.0 / rpm as real / 1000.0 <= seconds as real <==> deficit <= Gain(rpm, 1000 * seconds)
  {
    var r, x, s := rpm as real, deficit * 60000.0 / rpm as real / 1000.0, seconds as real;
    assert x * r == deficit * 60.0;
    assert Gain(rpm, 1000 * seconds) == s * r / 60.0;
    if x <= s { assert x * r <= s * r; } else { assert s * r < x * r; }
  }

  /**
   * A denied caller that waits the advertised time, with no other use of its key, is admitted; and
   * the advertised time is the least whole number of seconds for which this is so.
   */
  lemma WaitingIsEnough(rpm: nat, b: Bucket, now: int, later: int)
    requires rpm > 0 && Sound(rpm, b) && Use(rpm, b, now).1.Limited?
    ensures var (after, verdict) := Use(rpm, b, now);
      && (later >= now + 1000 * verdict.retryAfterSec ==> Use(rpm, after, later).1.Admitted?)
      && (now <= later <= now + 1000 * (verdict.retryAfterSec - 1) ==> Use(rpm, after, later).1.Limited?)
  {
    var (after, verdict) := Use(rpm, b, now);
    var deficit, wait := 1.0 - after.tokens, verdict.retryAfterSec;
    var need := deficit * 60000.0 / rpm as real / 1000.0;
    UseSound(rpm, b, now);
    CeilIs(need);
    SecondsBuy(rpm, deficit, wait);
    SecondsBuy(rpm, deficit, wait - 1);
    SecondsBuy(rpm, deficit, 0);
    if later >= now + 1000 * wait { GainMonotone(rpm, 1000 * wait, later - now); }
    if now <= later <= now + 1000 * (wait - 1) { GainMonotone(rpm, later - now, 1000 * (wait - 1)); }
  }

  // ---------------------------------------------------------------- the limit in requests a minute

  lemma Scaled(rpm: nat, extra: int, ms: int)
    requires extra as real <= Gain(rpm, ms)
    ensures 60000 * extra <= rpm * ms
  {
    var bought := (rpm * ms) as real;
    assert bought == ms as real * rpm as real;
    assert (60000 * extra) as real <= bought;
  }

  /** Sixty thousand milliseconds buy `rpm` requests, on top of a full bucket. */
  lemma MinuteBound(rpm: nat, start: int, before: seq<int>, window: seq<int>)
    requires rpm > 0 && window != [] && Ordered(before + window)
    ensures var all := Admissions(rpm, Fresh(rpm, start), before + window) - Admissions(rpm, Fresh(rpm, start), before);
      60000 * (all - rpm) <= rpm * (Last(window) - window[0])
  {
    WindowBound(rpm, start, before, window);
    var all := Admissions(rpm, Fresh(rpm, start), before + window) - Admissions(rpm, Fresh(rpm, start), before);
    Scaled(rpm, all - rpm, Last(window) - window[0]);
  }

  /** Requests that keep a distance of a minute over `rpm`. */
  predicate Paced(rpm: nat, times: seq<int>) {
    forall i :: 0 < i < |times| ==> rpm * (times[i] - times[i - 1]) >= 60000
  }

  lemma OneMore(rpm: nat, ms: int)
    requires rpm > 0 && rpm * ms >= 60000
    ensures ms > 0 && Gain(rpm, ms) >= 1.0
  {
    assert (rpm * ms) as real == ms as real * rpm as real;
  }

  /** Such a caller is never refused. */
  lemma {:induction false} PacedIsAdmitted(rpm: nat, start: int, times: seq<int>)
    requires rpm > 0 && Paced(rpm, times)
    ensures Admissions(rpm, Fresh(rpm, start), times) == |times|
    ensures var b := After(rpm, Fresh(rpm, start), times);
      Sound(rpm, b) && (times != [] ==> b.last == Last(times)) && (times == [] ==> b == Fresh(rpm, start))
    decreases |times|
  {
    if times == [] {
    } else {
      PacedIsAdmitted(rpm, start, ButLast(times));
      var b := After(rpm, Fresh(rpm, start), ButLast(times));
      UseSound(rpm, b, Last(times));
      if |times| > 1 {
        assert times[|times| - 2] == Last(ButLast(times));
        OneMore(rpm, Last(times) - b.last);
      } else {
        GainMonotone(rpm, 0, MaxInt(0, Last(times) - start));
      }
    }
  }
}
