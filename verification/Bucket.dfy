/** The token bucket behind both rate limiters, and the per-connection message limiter
    (internal/server/msg_rate_limiter.go, internal/server/ratelimit.go).  Times are in seconds. */
module Buckets {

  datatype Bucket = Bucket(tokens: real, maxTokens: real, refillRate: real, lastRefill: real)

  function Full(capacity: real, refillRate: real, start: real): Bucket {
    Bucket(capacity, capacity, refillRate, start)
  }

  /** Tokens gained from time s to time t. */
  function Gain(rate: real, s: real, t: real): real { (t - s) * rate }

  /** Lazy refill: tokens for the time since the last refill, up to the capacity. */
  function Refill(b: Bucket, now: real): Bucket {
    var tokens := b.tokens + Gain(b.refillRate, b.lastRefill, now);
    b.(tokens := if tokens > b.maxTokens then b.maxTokens else tokens, lastRefill := now)
  }

  /** A call refills the bucket and is admitted when a whole token can be taken. */
  function Take(b: Bucket, now: real): (Bucket, bool) {
    var refilled := Refill(b, now);
    if refilled.tokens < 1.0 then (refilled, false)
    else (refilled.(tokens := refilled.tokens - 1.0), true)
  }

  /** The bucket after calls at the given times. */
  function After(b: Bucket, times: seq<real>): Bucket {
    if times == [] then b else Take(After(b, times[..|times| - 1]), times[|times| - 1]).0
  }

  function Answers(b: Bucket, times: seq<real>): (answers: seq<bool>)
    ensures |answers| == |times|
  {
    if times == [] then []
    else Answers(b, times[..|times| - 1]) + [Take(After(b, times[..|times| - 1]), times[|times| - 1]).1]
  }

  function Admitted(answers: seq<bool>): nat {
    if answers == [] then 0
    else Admitted(answers[..|answers| - 1]) + if answers[|answers| - 1] then 1 else 0
  }

  // ----- what a call's answer depends on -----

  /** The refill instants: instant 0 is the creation, instant k the k-th call. */
  function Instant(start: real, times: seq<real>, k: nat): real
    requires k <= |times|
  {
    if k == 0 then start else times[k - 1]
  }

  /** How many of the calls from instant k on, that call included, were admitted. */
  function AdmittedSince(answers: seq<bool>, k: nat): nat
    requires k <= |answers|
  {
    Admitted(answers[if k == 0 then 0 else k - 1..])
  }

  // ----- the same history with what was refilled between calls, in tokens -----

  function Topped(capacity: real, level: real, gain: real): real {
    if level + gain > capacity then capacity else level + gain
  }

  function Cost(admitted: bool): real { if admitted then 1.0 else 0.0 }

  /** The level after calls that followed refills by `gains`, starting full. */
  function Level(capacity: real, gains: seq<real>): real {
    if gains == [] then capacity
    else
      var level := Topped(capacity, Level(capacity, gains[..|gains| - 1]), gains[|gains| - 1]);
      level - Cost(level >= 1.0)
  }

  function Grants(capacity: real, gains: seq<real>): (answers: seq<bool>)
    ensures |answers| == |gains|
  {
    if gains == [] then []
    else Grants(capacity, gains[..|gains| - 1])
         + [Topped(capacity, Level(capacity, gains[..|gains| - 1]), gains[|gains| - 1]) >= 1.0]
  }

  function Sum(gains: seq<real>): real {
    if gains == [] then 0.0 else Sum(gains[..|gains| - 1]) + gains[|gains| - 1]
  }

  /** `more` further admissions after a refill by `gain` would stay within capacity and refill, counted from
      instant k. */
  ghost predicate Fits(capacity: real, gains: seq<real>, answers: seq<bool>, gain: real, more: real, k: nat)
    requires k <= |gains| == |answers|
  {
    AdmittedSince(answers, k) as real + more <= capacity + Sum(gains[k..]) + gain
  }

  ghost predicate FitsEverywhere(capacity: real, gains: seq<real>, answers: seq<bool>, gain: real, more: real)
    requires |gains| == |answers|
  {
    more <= capacity && forall k: nat :: k <= |gains| ==> Fits(capacity, gains, answers, gain, more, k)
  }

  lemma AdmittedExtends(answers: seq<bool>, a: bool, k: nat)
    requires k <= |answers|
    ensures AdmittedSince(answers + [a], k) as real == AdmittedSince(answers, k) as real + Cost(a)
  {
    var i := if k == 0 then 0 else k - 1;
    assert (answers + [a])[i..] == answers[i..] + [a];
    assert (answers[i..] + [a])[..|answers[i..]|] == answers[i..];
  }

  lemma AdmittedLast(answers: seq<bool>, a: bool)
    ensures AdmittedSince(answers + [a], |answers| + 1) as real == Cost(a)
  {
    assert (answers + [a])[|answers|..] == [a];
    AdmittedExtends([], a, 0);
    assert [] + [a] == [a];
  }

  lemma SumExtends(gains: seq<real>, g: real, k: nat)
    requires k <= |gains|
    ensures Sum((gains + [g])[k..]) == Sum(gains[k..]) + g
  {
    assert (gains + [g])[k..] == gains[k..] + [g];
    assert (gains[k..] + [g])[..|gains[k..]|] == gains[k..];
  }

  /** One more call moves every earlier instant's account on. */
  lemma FitsCarries(capacity: real, gains: seq<real>, answers: seq<bool>, g: real, a: bool, gain: real, more: real,
                    k: nat)
    requires k <= |gains| == |answers|
    ensures Fits(capacity, gains + [g], answers + [a], gain, more, k)
            <==> Fits(capacity, gains, answers, g, more + Cost(a) - gain, k)
  {
    AdmittedExtends(answers, a, k);
    SumExtends(gains, g, k);
  }

  lemma FitsEverywhereCarries(capacity: real, gains: seq<real>, answers: seq<bool>, g: real, a: bool, gain: real,
                              more: real)
    requires |gains| == |answers|
    ensures FitsEverywhere(capacity, gains + [g], answers + [a], gain, more)
            <==> more <= capacity && FitsEverywhere(capacity, gains, answers, g, more + Cost(a) - gain)
  {
    var more' := more + Cost(a) - gain;
    forall k: nat | k <= |gains|
      ensures Fits(capacity, gains + [g], answers + [a], gain, more, k) <==> Fits(capacity, gains, answers, g, more', k)
    {
      FitsCarries(capacity, gains, answers, g, a, gain, more, k);
    }
    AdmittedLast(answers, a);
    assert (gains + [g])[|gains| + 1..] == [];
    assert Fits(capacity, gains + [g], answers + [a], gain, more, |gains| + 1) <==> more' <= capacity;
  }

  /** The refilled level is the least, over all refill instants, of what capacity and refill leave: a level
      is reached exactly when every instant's account has room for it. */
  lemma {:induction false} LevelIsLeast(capacity: real, gains: seq<real>, gain: real, more: real)
    ensures more <= Topped(capacity, Level(capacity, gains), gain)
            <==> FitsEverywhere(capacity, gains, Grants(capacity, gains), gain, more)
  {
    if gains == [] {
      assert Fits(capacity, gains, [], gain, more, 0) <==> more <= capacity + gain;
    } else {
      var earlier, g := gains[..|gains| - 1], gains[|gains| - 1];
      assert gains == earlier + [g];
      var a := Topped(capacity, Level(capacity, earlier), g) >= 1.0;
      LevelIsLeast(capacity, earlier, g, more + Cost(a) - gain);
      FitsEverywhereCarries(capacity, earlier, Grants(capacity, earlier), g, a, gain, more);
    }
  }

  // ----- back to clock times -----

  function Gains(rate: real, start: real, times: seq<real>): (gains: seq<real>)
    ensures |gains| == |times|
  {
    if times == [] then []
    else
      var n := |times| - 1;
      Gains(rate, start, times[..n]) + [Gain(rate, Instant(start, times, n), times[n])]
  }

  lemma GainsExtend(rate: real, start: real, times: seq<real>, t: real)
    ensures Gains(rate, start, times + [t])
            == Gains(rate, start, times) + [Gain(rate, Instant(start, times, |times|), t)]
  {
    assert (times + [t])[..|times|] == times;
  }

  lemma RefillsAdd(rate: real, s: real, t: real, now: real)
    ensures Gain(rate, s, t) + Gain(rate, t, now) == Gain(rate, s, now)
  {
  }

  /** Refills between calls add up to the refill over the whole stretch. */
  lemma {:induction false} GainsTelescope(rate: real, start: real, times: seq<real>, k: nat)
    requires k <= |times|
    ensures Sum(Gains(rate, start, times)[k..]) == Gain(rate, Instant(start, times, k), Instant(start, times, |times|))
  {
    var n := |times|;
    if k < n {
      var earlier, t := times[..n - 1], times[n - 1];
      assert times == earlier + [t];
      GainsExtend(rate, start, earlier, t);
      GainsTelescope(rate, start, earlier, k);
      SumExtends(Gains(rate, start, earlier), Gain(rate, Instant(start, earlier, n - 1), t), k);
      RefillsAdd(rate, Instant(start, times, k), Instant(start, earlier, n - 1), t);
    }
  }

  lemma {:induction false} AfterKeepsSettings(b: Bucket, times: seq<real>)
    ensures After(b, times).maxTokens == b.maxTokens && After(b, times).refillRate == b.refillRate
    ensures After(b, times).lastRefill == Instant(b.lastRefill, times, |times|)
  {
    if times == [] {
    } else {
      AfterKeepsSettings(b, times[..|times| - 1]);
    }
  }

  lemma TakeIsTopped(b: Bucket, capacity: real, rate: real, last: real, now: real)
    requires b.maxTokens == capacity && b.refillRate == rate && b.lastRefill == last
    ensures var level := Topped(capacity, b.tokens, Gain(rate, last, now));
            Take(b, now).1 == (level >= 1.0) && Take(b, now).0.tokens == level - Cost(level >= 1.0)
  {
  }

  /** A bucket that starts full, told by the clock, is the same bucket told by its refills. */
  lemma {:induction false} BucketIsLevel(capacity: real, rate: real, start: real, times: seq<real>)
    ensures var b, gains := Full(capacity, rate, start), Gains(rate, start, times);
            After(b, times).tokens == Level(capacity, gains) && Answers(b, times) == Grants(capacity, gains)
  {
    if times == [] {
    } else {
      var b, earlier, t := Full(capacity, rate, start), times[..|times| - 1], times[|times| - 1];
      assert times == earlier + [t];
      BucketIsLevel(capacity, rate, start, earlier);
      AfterKeepsSettings(b, earlier);
      GainsExtend(rate, start, earlier, t);
      TakeIsTopped(After(b, earlier), capacity, rate, Instant(start, earlier, |earlier|), t);
    }
  }

  /** One more admission at `now` stays within capacity and refill, counted from instant k. */
  ghost predicate Affords(b: Bucket, times: seq<real>, now: real, k: nat)
    requires k <= |times|
  {
    AdmittedSince(Answers(b, times), k) as real + 1.0
    <= b.maxTokens + Gain(b.refillRate, Instant(b.lastRefill, times, k), now)
  }

  lemma AffordsIsFits(capacity: real, rate: real, start: real, times: seq<real>, now: real, k: nat)
    requires k <= |times|
    ensures var last := Instant(start, times, |times|);
            Affords(Full(capacity, rate, start), times, now, k)
            <==> Fits(capacity, Gains(rate, start, times), Answers(Full(capacity, rate, start), times),
                      Gain(rate, last, now), 1.0, k)
  {
    GainsTelescope(rate, start, times, k);
    RefillsAdd(rate, Instant(start, times, k), Instant(start, times, |times|), now);
  }

  /** A call is admitted exactly when, from every earlier refill instant on, the admitted calls and this one
      stay within the capacity plus what was refilled since.  Nothing is asked of clock, rate or capacity. */
  lemma AdmittedIffAffordable(capacity: real, rate: real, start: real, times: seq<real>, now: real)
    ensures var b := Full(capacity, rate, start);
            Take(After(b, times), now).1
            <==> 1.0 <= capacity && forall k: nat :: k <= |times| ==> Affords(b, times, now, k)
  {
    var b, last := Full(capacity, rate, start), Instant(start, times, |times|);
    BucketIsLevel(capacity, rate, start, times);
    AfterKeepsSettings(b, times);
    TakeIsTopped(After(b, times), capacity, rate, last, now);
    LevelIsLeast(capacity, Gains(rate, start, times), Gain(rate, last, now), 1.0);
    forall k: nat | k <= |times|
      ensures Affords(b, times, now, k)
              <==> Fits(capacity, Gains(rate, start, times), Answers(b, times), Gain(rate, last, now), 1.0, k)
    {
      AffordsIsFits(capacity, rate, start, times, now, k);
    }
  }

  // ----- what callers see -----

  ghost predicate NonDecreasing(start: real, times: seq<real>) {
    forall i: nat :: i < |times| ==> Instant(start, times, i) <= times[i]
  }

  lemma {:induction false} InstantsAreOrdered(start: real, times: seq<real>, i: nat, j: nat)
    requires NonDecreasing(start, times) && i <= j <= |times|
    ensures Instant(start, times, i) <= Instant(start, times, j)
    decreases j - i
  {
    if i < j {
      InstantsAreOrdered(start, times, i, j - 1);
    }
  }

  lemma {:induction false} AnswersOfPrefix(b: Bucket, times: seq<real>, n: nat)
    requires n <= |times|
    ensures Answers(b, times[..n]) == Answers(b, times)[..n]
    decreases |times|
  {
    if n == |times| {
      assert times[..n] == times;
    } else {
      var earlier := times[..|times| - 1];
      AnswersOfPrefix(b, earlier, n);
      assert earlier[..n] == times[..n];
    }
  }

  lemma AnswerAt(b: Bucket, times: seq<real>, n: nat)
    requires n < |times|
    ensures Answers(b, times)[n] == Take(After(b, times[..n]), times[n]).1
  {
    AnswersOfPrefix(b, times, n + 1);
    assert times[..n + 1][..n] == times[..n];
    assert Answers(b, times)[n] == Answers(b, times[..n + 1])[n];
  }

  lemma MoreTimeRefillsMore(rate: real, s: real, t: real, u: real)
    requires rate >= 0.0 && t <= u
    ensures Gain(rate, s, t) <= Gain(rate, s, u)
  {
  }

  lemma AdmittedInWindow(answers: seq<bool>, i: nat, j: nat)
    requires i < j <= |answers|
    ensures Admitted(answers[i..j]) as real == Admitted(answers[i..j - 1]) as real + Cost(answers[j - 1])
    ensures i < j - 1 ==> Admitted(answers[i..j - 1]) == AdmittedSince(answers[..j - 1], i + 1)
  {
    assert answers[i..j][..j - 1 - i] == answers[i..j - 1];
    assert answers[..j - 1][i..] == answers[i..j - 1];
  }

  lemma AdmittedAffords(capacity: real, rate: real, start: real, times: seq<real>, now: real, k: nat)
    requires k <= |times| && Take(After(Full(capacity, rate, start), times), now).1
    ensures AdmittedSince(Answers(Full(capacity, rate, start), times), k) as real + 1.0
            <= capacity + Gain(rate, Instant(start, times, k), now)
  {
    AdmittedIffAffordable(capacity, rate, start, times, now);
    assert Affords(Full(capacity, rate, start), times, now, k);
  }

  lemma NothingGainedAtOnce(rate: real, t: real)
    ensures Gain(rate, t, t) == 0.0
  {
  }

  /** A stretch that ends with an admitted call. */
  lemma WindowBoundAtAdmission(capacity: real, rate: real, start: real, times: seq<real>, i: nat, j: nat)
    requires i < j <= |times| && Answers(Full(capacity, rate, start), times)[j - 1]
    ensures Admitted(Answers(Full(capacity, rate, start), times)[i..j]) as real
            <= capacity + Gain(rate, times[i], times[j - 1])
  {
    var b, earlier, now := Full(capacity, rate, start), times[..j - 1], times[j - 1];
    AnswerAt(b, times, j - 1);
    AnswersOfPrefix(b, times, j - 1);
    AdmittedInWindow(Answers(b, times), i, j);
    if i < j - 1 {
      AdmittedAffords(capacity, rate, start, earlier, now, i + 1);
    } else {
      AdmittedIffAffordable(capacity, rate, start, earlier, now);
      NothingGainedAtOnce(rate, now);
    }
  }

  /** In any stretch of calls, the number admitted is at most the capacity plus what is refilled meanwhile. */
  lemma {:induction false} WindowBound(capacity: real, rate: real, start: real, times: seq<real>, i: nat, j: nat)
    requires rate >= 0.0 && NonDecreasing(start, times) && i < j <= |times|
    ensures var admitted := Admitted(Answers(Full(capacity, rate, start), times)[i..j]);
            admitted > 0 ==> admitted as real <= capacity + Gain(rate, times[i], times[j - 1])
    decreases j
  {
    var answers := Answers(Full(capacity, rate, start), times);
    if answers[j - 1] {
      WindowBoundAtAdmission(capacity, rate, start, times, i, j);
    } else {
      AdmittedInWindow(answers, i, j);
      if i < j - 1 {
        WindowBound(capacity, rate, start, times, i, j - 1);
        InstantsAreOrdered(start, times, j - 1, j);
        MoreTimeRefillsMore(rate, times[i], times[j - 2], times[j - 1]);
      }
    }
  }

  lemma {:induction false} AmpleRefillsGrantAll(capacity: real, gains: seq<real>)
    requires capacity >= 1.0 && (gains != [] ==> gains[0] >= 0.0)
    requires forall i :: 1 <= i < |gains| ==> gains[i] >= 1.0
    ensures gains != [] ==> 0.0 <= Level(capacity, gains)
    ensures forall i :: 0 <= i < |gains| ==> Grants(capacity, gains)[i]
  {
    if gains == [] {
    } else {
      AmpleRefillsGrantAll(capacity, gains[..|gains| - 1]);
    }
  }

  lemma {:induction false} GainAt(rate: real, start: real, times: seq<real>, i: nat)
    requires i < |times|
    ensures Gains(rate, start, times)[i] == Gain(rate, Instant(start, times, i), times[i])
  {
    if i < |times| - 1 {
      GainAt(rate, start, times[..|times| - 1], i);
    }
  }

  /** Callers that leave at least 1/rate between calls are never refused. */
  lemma SpacedCallsAreAdmitted(capacity: real, rate: real, start: real, times: seq<real>)
    requires capacity >= 1.0 && rate > 0.0 && (times != [] ==> start <= times[0])
    requires forall i: nat :: 1 <= i < |times| ==> times[i] - Instant(start, times, i) >= 1.0 / rate
    ensures forall i :: 0 <= i < |times| ==> Answers(Full(capacity, rate, start), times)[i]
  {
    var gains := Gains(rate, start, times);
    forall i: nat | i < |times|
      ensures gains[i] >= if i == 0 then 0.0 else 1.0
    {
      GainAt(rate, start, times, i);
      EnoughTimeRefillsOne(rate, Instant(start, times, i), times[i], i > 0);
    }
    AmpleRefillsGrantAll(capacity, gains);
    BucketIsLevel(capacity, rate, start, times);
  }

  lemma EnoughTimeRefillsOne(rate: real, s: real, t: real, spaced: bool)
    requires rate > 0.0 && t - s >= if spaced then 1.0 / rate else 0.0
    ensures Gain(rate, s, t) >= if spaced then 1.0 else 0.0
  {
    if spaced {
      assert (1.0 / rate) * rate == 1.0;
    }
  }

  lemma AfterExtends(b: Bucket, times: seq<real>, t: real)
    ensures After(b, times + [t]) == Take(After(b, times), t).0
  {
    assert (times + [t])[..|times|] == times;
  }

  /** The per-connection limiter.  `calls` is the history of its calls. */
  class MsgRateLimiter {
    var tokens: real
    const maxTokens: real
    const refillRate: real
    var lastRefill: real
    ghost const start: real
    ghost var calls: seq<real>

    constructor (capacity: real, refillRate: real, now: real)
      ensures maxTokens == capacity && this.refillRate == refillRate && start == now && calls == [] && Valid()
    {
      tokens, maxTokens, this.refillRate, lastRefill := capacity, capacity, refillRate, now;
      start, calls := now, [];
    }

    function Value(): Bucket
      reads this
    {
      Bucket(tokens, maxTokens, refillRate, lastRefill)
    }

    ghost predicate Valid()
      reads this
    {
      Value() == After(Full(maxTokens, refillRate, start), calls)
    }

    /** The arithmetic of Allow. */
    method TakeToken(now: real) returns (ok: bool)
      modifies this`tokens, this`lastRefill
      ensures (Value(), ok) == Take(old(Value()), now)
    {
      var elapsed := now - lastRefill;
      tokens := tokens + elapsed * refillRate;
      assert elapsed * refillRate == Gain(refillRate, old(lastRefill), now);
      if tokens > maxTokens {
        tokens := maxTokens;
      }
      lastRefill := now;
      if tokens < 1.0 {
        return false;
      }
      tokens := tokens - 1.0;
      return true;
    }

    /** Admits a message exactly when the whole history of calls affords it. */
    method Allow(now: real) returns (ok: bool)
      requires Valid()
      modifies this
      ensures Valid() && calls == old(calls) + [now]
      ensures ok <==> 1.0 <= maxTokens
                      && forall k: nat :: k <= |old(calls)| ==>
                           Affords(Full(maxTokens, refillRate, start), old(calls), now, k)
    {
      AdmittedIffAffordable(maxTokens, refillRate, start, calls, now);
      ok := TakeToken(now);
      AfterExtends(Full(maxTokens, refillRate, start), calls, now);
      calls := calls + [now];
    }
  }
}
