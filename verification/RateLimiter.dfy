/** The limiter shared by all addresses: one bucket per kind of request and address, idle buckets deleted
    by a background sweep (internal/server/ratelimit.go). */
module RateLimiting {
  import opened Buckets

  datatype Kind = RoomCreation | WSConnection

  datatype Config = Config(roomCreationsPerMin: int, wsConnectionsPerMin: int)

  type BucketMap = map<string, Bucket>

  function Key(kind: Kind, ip: string): string {
    (match kind case RoomCreation => "room:" case WSConnection => "ws:") + ip
  }

  function Limit(c: Config, kind: Kind): real {
    match kind
    case RoomCreation => c.roomCreationsPerMin as real
    case WSConnection => c.wsConnectionsPerMin as real
  }

  function Rate(c: Config, kind: Kind): real { Limit(c, kind) / 60.0 }

  /** Five minutes. */
  const IDLE_SECONDS := 300.0

  /** The answer to one request.  A missing bucket is created one token short and admits the request. */
  function Ask(buckets: BucketMap, key: string, maxTokens: real, refillRate: real, now: real): (BucketMap, bool) {
    if key !in buckets then (buckets[key := Bucket(maxTokens - 1.0, maxTokens, refillRate, now)], true)
    else (buckets[key := Take(buckets[key], now).0], Take(buckets[key], now).1)
  }

  predicate Stale(b: Bucket, now: real) { now - b.lastRefill > IDLE_SECONDS }

  function Sweep(buckets: BucketMap, now: real): BucketMap {
    map k | k in buckets && !Stale(buckets[k], now) :: buckets[k]
  }

  datatype Event = Request(kind: Kind, ip: string, at: real) | Cleanup(at: real)

  function Step(c: Config, buckets: BucketMap, e: Event): (BucketMap, bool) {
    match e
    case Request(kind, ip, now) => Ask(buckets, Key(kind, ip), Limit(c, kind), Rate(c, kind), now)
    case Cleanup(now) => (Sweep(buckets, now), true)
  }

  function Run(c: Config, events: seq<Event>): BucketMap {
    if events == [] then map[] else Step(c, Run(c, events[..|events| - 1]), events[|events| - 1]).0
  }

  predicate IsCall(e: Event, kind: Kind, ip: string) { e.Request? && e.kind == kind && e.ip == ip }

  /** When requests of one kind came from one address. */
  function CallTimes(events: seq<Event>, kind: Kind, ip: string): seq<real> {
    if events == [] then []
    else
      var earlier, e := CallTimes(events[..|events| - 1], kind, ip), events[|events| - 1];
      if IsCall(e, kind, ip) then earlier + [e.at] else earlier
  }

  /** What the limiter answered them. */
  function Given(c: Config, events: seq<Event>, kind: Kind, ip: string): seq<bool> {
    if events == [] then []
    else
      var earlier, e := Given(c, events[..|events| - 1], kind, ip), events[|events| - 1];
      if IsCall(e, kind, ip) then earlier + [Step(c, Run(c, events[..|events| - 1]), e).1] else earlier
  }

  /** A bucket of one's own that is never deleted: created a token short by the request it admits. */
  function Created(c: Config, kind: Kind, at: real): Bucket {
    Bucket(Limit(c, kind) - 1.0, Limit(c, kind), Rate(c, kind), at)
  }

  function OwnAnswers(c: Config, kind: Kind, times: seq<real>): seq<bool> {
    if times == [] then [] else [true] + Answers(Created(c, kind, times[0]), times[1..])
  }

  /** The same bucket thought of as full when its first request arrives. */
  function Own(c: Config, kind: Kind, times: seq<real>): Bucket
    requires times != []
  {
    Full(Limit(c, kind), Rate(c, kind), times[0])
  }

  // ----- many keys, one clock -----

  lemma KeysNeverCollide(k1: Kind, ip1: string, k2: Kind, ip2: string)
    ensures Key(k1, ip1) == Key(k2, ip2) <==> k1 == k2 && ip1 == ip2
  {
    if k1 == k2 {
      var p := if k1 == RoomCreation then "room:" else "ws:";
      assert Key(k1, ip1)[|p|..] == ip1 && Key(k2, ip2)[|p|..] == ip2;
    } else {
      assert Key(RoomCreation, ip1)[0] == 'r' && Key(RoomCreation, ip2)[0] == 'r';
      assert Key(WSConnection, ip1)[0] == 'w' && Key(WSConnection, ip2)[0] == 'w';
    }
  }

  ghost predicate ClockNeverGoesBack(events: seq<Event>) {
    forall i, j :: 0 <= i < j < |events| ==> events[i].at <= events[j].at
  }

  /** The stored bucket of one address is its own bucket, or was deleted after five idle minutes. */
  ghost predicate Tracks(c: Config, events: seq<Event>, kind: Kind, ip: string) {
    var times, buckets, key := CallTimes(events, kind, ip), Run(c, events), Key(kind, ip);
    if times == [] then key !in buckets
    else
      var own := After(Own(c, kind, times), times);
      && own.tokens >= 0.0 && own.maxTokens == Limit(c, kind) && own.refillRate == Rate(c, kind)
      && events != [] && own.lastRefill <= events[|events| - 1].at
      && if key in buckets then buckets[key] == own else Stale(own, events[|events| - 1].at)
  }

  lemma MinuteRefillsAll(limit: real, s: real, t: real)
    requires limit >= 1.0 && s <= t
    ensures Gain(limit / 60.0, s, t) >= 0.0
    ensures t - s >= 60.0 ==> Gain(limit / 60.0, s, t) >= limit
  {
    var d, rate := t - s, limit / 60.0;
    assert rate > 0.0 && rate * 60.0 == limit;
    assert d * rate >= 0.0;
    if d >= 60.0 {
      assert (d - 60.0) * rate >= 0.0;
    }
  }

  /** A request to a bucket that has been idle for a minute meets a full bucket, as a new one is. */
  lemma IdleBucketIsNew(b: Bucket, limit: real, now: real)
    requires limit >= 1.0 && b.maxTokens == limit && b.refillRate == limit / 60.0 && b.tokens >= 0.0
    requires b.lastRefill <= now
    ensures Take(b, now).0.tokens >= 0.0
    ensures now - b.lastRefill >= 60.0 || b.tokens == limit ==>
              Take(b, now) == (Bucket(limit - 1.0, limit, limit / 60.0, now), true)
  {
    MinuteRefillsAll(limit, b.lastRefill, now);
  }

  /** The request that arrives meets its own bucket's answer, and leaves its own bucket. */
  lemma RequestTracks(c: Config, events: seq<Event>, kind: Kind, ip: string, now: real)
    requires Limit(c, kind) >= 1.0 && Tracks(c, events, kind, ip)
    requires events != [] ==> events[|events| - 1].at <= now
    ensures Tracks(c, events + [Request(kind, ip, now)], kind, ip)
    ensures var times := CallTimes(events, kind, ip) + [now];
            Step(c, Run(c, events), Request(kind, ip, now)).1
            == Take(After(Own(c, kind, times), times[..|times| - 1]), now).1
  {
    var times, e := CallTimes(events, kind, ip), Request(kind, ip, now);
    assert (events + [e])[..|events|] == events;
    assert (times + [now])[..|times|] == times;
    var own := Own(c, kind, times + [now]);
    IdleBucketIsNew(After(own, times), Limit(c, kind), now);
  }

  /** Other requests and sweeps leave an address's bucket alone, but for deleting it when stale. */
  lemma OthersTrack(c: Config, events: seq<Event>, e: Event, kind: Kind, ip: string)
    requires Tracks(c, events, kind, ip) && !IsCall(e, kind, ip)
    requires events != [] ==> events[|events| - 1].at <= e.at
    ensures Tracks(c, events + [e], kind, ip)
  {
    assert (events + [e])[..|events|] == events;
    if e.Request? {
      KeysNeverCollide(kind, ip, e.kind, e.ip);
    }
  }

  lemma {:induction false} CreatedIsFullLessOne(c: Config, kind: Kind, times: seq<real>)
    requires Limit(c, kind) >= 1.0 && times != []
    ensures After(Own(c, kind, times), times) == After(Created(c, kind, times[0]), times[1..])
    ensures Answers(Own(c, kind, times), times) == OwnAnswers(c, kind, times)
  {
    var n := |times| - 1;
    if n == 0 {
      NothingGainedAtOnce(Rate(c, kind), times[0]);
      assert times[..0] == [];
    } else {
      CreatedIsFullLessOne(c, kind, times[..n]);
      assert times[1..][..n - 1] == times[..n][1..];
    }
  }

  /** Whatever requests come from other addresses, and whenever idle buckets are swept away, each address
      is answered as by a bucket of its own that is never deleted. */
  lemma {:induction false} LimiterIsOneBucketEach(c: Config, events: seq<Event>, kind: Kind, ip: string)
    requires Limit(c, kind) >= 1.0 && ClockNeverGoesBack(events)
    ensures Given(c, events, kind, ip) == OwnAnswers(c, kind, CallTimes(events, kind, ip))
    ensures Tracks(c, events, kind, ip)
  {
    if events == [] {
    } else {
      var earlier, e := events[..|events| - 1], events[|events| - 1];
      assert events == earlier + [e];
      LimiterIsOneBucketEach(c, earlier, kind, ip);
      if IsCall(e, kind, ip) {
        RequestTracks(c, earlier, kind, ip, e.at);
        OwnAnswersExtend(c, kind, CallTimes(earlier, kind, ip), e.at);
      } else {
        OthersTrack(c, earlier, e, kind, ip);
      }
    }
  }

  lemma OwnAnswersExtend(c: Config, kind: Kind, times: seq<real>, t: real)
    requires Limit(c, kind) >= 1.0
    ensures OwnAnswers(c, kind, times + [t])
            == OwnAnswers(c, kind, times) + [Take(After(Own(c, kind, times + [t]), times), t).1]
  {
    CreatedIsFullLessOne(c, kind, times + [t]);
    assert (times + [t])[..|times|] == times;
    if times != [] {
      CreatedIsFullLessOne(c, kind, times);
    }
  }

  // ----- which limit applies to which request -----

  /** Calls at one instant take the whole tokens one by one. */
  lemma {:induction false} BurstTakesTokens(b: Bucket, limit: int, times: seq<real>)
    requires limit >= 1 && b == Full(limit as real, b.refillRate, b.lastRefill)
    requires forall i :: 0 <= i < |times| ==> times[i] == b.lastRefill
    ensures After(b, times) == b.(tokens := (if |times| < limit then limit - |times| else 0) as real)
    ensures forall i :: 0 <= i < |times| ==> (Answers(b, times)[i] <==> i < limit)
  {
    if times == [] {
    } else {
      var n := |times| - 1;
      BurstTakesTokens(b, limit, times[..n]);
      NothingGainedAtOnce(b.refillRate, b.lastRefill);
      assert Answers(b, times) == Answers(b, times[..n]) + [Take(After(b, times[..n]), times[n]).1];
    }
  }

  lemma {:induction false} EveryCallIsAnswered(c: Config, events: seq<Event>, kind: Kind, ip: string)
    ensures |Given(c, events, kind, ip)| == |CallTimes(events, kind, ip)|
  {
    if events == [] {
    } else {
      EveryCallIsAnswered(c, events[..|events| - 1], kind, ip);
    }
  }

  lemma BurstIsLimited(c: Config, events: seq<Event>, kind: Kind, ip: string, limit: int, at: real)
    requires limit >= 1 && Limit(c, kind) == limit as real && ClockNeverGoesBack(events)
    requires forall t :: t in CallTimes(events, kind, ip) ==> t == at
    ensures var answers := Given(c, events, kind, ip);
            && |answers| == |CallTimes(events, kind, ip)|
            && forall i :: 0 <= i < |answers| ==> (answers[i] <==> i < limit)
  {
    var times := CallTimes(events, kind, ip);
    EveryCallIsAnswered(c, events, kind, ip);
    LimiterIsOneBucketEach(c, events, kind, ip);
    if times != [] {
      assert forall i :: 0 <= i < |times| ==> times[i] in times;
      CreatedIsFullLessOne(c, kind, times);
      BurstTakesTokens(Own(c, kind, times), limit, times);
    }
  }

  /** Of the room creations asked for from one address at one instant, on a limiter that had none from it before,
      exactly the first `roomCreationsPerMin` are admitted, whatever else is asked of the limiter. */
  lemma CreationsAtOnce(c: Config, events: seq<Event>, ip: string, at: real)
    requires c.roomCreationsPerMin >= 1 && ClockNeverGoesBack(events)
    requires forall t :: t in CallTimes(events, RoomCreation, ip) ==> t == at
    ensures var answers := Given(c, events, RoomCreation, ip);
            && |answers| == |CallTimes(events, RoomCreation, ip)|
            && forall i :: 0 <= i < |answers| ==> (answers[i] <==> i < c.roomCreationsPerMin)
  {
    BurstIsLimited(c, events, RoomCreation, ip, c.roomCreationsPerMin, at);
  }

  /** And of the connections the first `wsConnectionsPerMin`. */
  lemma ConnectionsAtOnce(c: Config, events: seq<Event>, ip: string, at: real)
    requires c.wsConnectionsPerMin >= 1 && ClockNeverGoesBack(events)
    requires forall t :: t in CallTimes(events, WSConnection, ip) ==> t == at
    ensures var answers := Given(c, events, WSConnection, ip);
            && |answers| == |CallTimes(events, WSConnection, ip)|
            && forall i :: 0 <= i < |answers| ==> (answers[i] <==> i < c.wsConnectionsPerMin)
  {
    BurstIsLimited(c, events, WSConnection, ip, c.wsConnectionsPerMin, at);
  }

  lemma NonDecreasingExtends(times: seq<real>, t: real)
    requires times != [] ==> NonDecreasing(times[0], times) && times[|times| - 1] <= t
    ensures NonDecreasing((times + [t])[0], times + [t])
  {
    forall i: nat | i < |times + [t]|
      ensures Instant((times + [t])[0], times + [t], i) <= (times + [t])[i]
    {
      if 0 < i < |times| {
        assert Instant(times[0], times, i) <= times[i];
      }
    }
  }

  lemma {:induction false} CallTimesAreOrdered(events: seq<Event>, kind: Kind, ip: string)
    requires ClockNeverGoesBack(events)
    ensures var times := CallTimes(events, kind, ip);
            times != [] ==> && NonDecreasing(times[0], times)
                            && events != [] && times[|times| - 1] <= events[|events| - 1].at
  {
    if events == [] {
    } else {
      var earlier, e := events[..|events| - 1], events[|events| - 1];
      CallTimesAreOrdered(earlier, kind, ip);
      if IsCall(e, kind, ip) {
        NonDecreasingExtends(CallTimes(earlier, kind, ip), e.at);
      }
    }
  }

  lemma OwnStretchIsLimited(limit: real, times: seq<real>, i: nat, j: nat)
    requires limit >= 1.0 && i < j <= |times| && NonDecreasing(times[0], times)
    ensures Admitted(Answers(Full(limit, limit / 60.0, times[0]), times)[i..j]) as real
            <= limit + Gain(limit / 60.0, times[i], times[j - 1])
  {
    WindowBound(limit, limit / 60.0, times[0], times, i, j);
    InstantsAreOrdered(times[0], times, i + 1, j);
    MinuteRefillsAll(limit, times[i], times[j - 1]);
  }

  /** In any stretch of requests from one address, at most `roomCreationsPerMin` room creations are admitted, and as
      many more for every minute it lasts. */
  lemma CreationsInStretch(c: Config, events: seq<Event>, ip: string, i: nat, j: nat)
    requires c.roomCreationsPerMin >= 1 && ClockNeverGoesBack(events)
    requires i < j <= |CallTimes(events, RoomCreation, ip)|
    ensures var times, answers := CallTimes(events, RoomCreation, ip), Given(c, events, RoomCreation, ip);
            && |answers| == |times|
            && Admitted(answers[i..j]) as real
               <= c.roomCreationsPerMin as real + Gain(c.roomCreationsPerMin as real / 60.0, times[i], times[j - 1])
  {
    StretchIsOwn(c, events, RoomCreation, ip);
    OwnStretchIsLimited(c.roomCreationsPerMin as real, CallTimes(events, RoomCreation, ip), i, j);
  }

  /** Likewise for connections. */
  lemma ConnectionsInStretch(c: Config, events: seq<Event>, ip: string, i: nat, j: nat)
    requires c.wsConnectionsPerMin >= 1 && ClockNeverGoesBack(events)
    requires i < j <= |CallTimes(events, WSConnection, ip)|
    ensures var times, answers := CallTimes(events, WSConnection, ip), Given(c, events, WSConnection, ip);
            && |answers| == |times|
            && Admitted(answers[i..j]) as real
               <= c.wsConnectionsPerMin as real + Gain(c.wsConnectionsPerMin as real / 60.0, times[i], times[j - 1])
  {
    StretchIsOwn(c, events, WSConnection, ip);
    OwnStretchIsLimited(c.wsConnectionsPerMin as real, CallTimes(events, WSConnection, ip), i, j);
  }

  lemma StretchIsOwn(c: Config, events: seq<Event>, kind: Kind, ip: string)
    requires Limit(c, kind) >= 1.0 && ClockNeverGoesBack(events) && CallTimes(events, kind, ip) != []
    ensures var times := CallTimes(events, kind, ip);
            && NonDecreasing(times[0], times)
            && Given(c, events, kind, ip) == Answers(Full(Limit(c, kind), Rate(c, kind), times[0]), times)
  {
    LimiterIsOneBucketEach(c, events, kind, ip);
    CreatedIsFullLessOne(c, kind, CallTimes(events, kind, ip));
    CallTimesAreOrdered(events, kind, ip);
  }

  lemma SmallBucketRefuses(b: Bucket, now: real)
    requires b.maxTokens < 1.0
    ensures !Take(b, now).1
  {
  }

  /** A limit below one per minute is where this ends: an undeleted bucket admits only its first request,
      while a sweep lets the next one in too. */
  lemma SweepShowsBelowOne(c: Config, kind: Kind, ip: string)
    requires Limit(c, kind) < 1.0
    ensures var events := [Request(kind, ip, 0.0), Cleanup(301.0), Request(kind, ip, 301.0)];
            ClockNeverGoesBack(events) && Given(c, events, kind, ip) == [true, true]
            && OwnAnswers(c, kind, CallTimes(events, kind, ip)) == [true, false]
  {
    var first, sweep, second := Request(kind, ip, 0.0), Cleanup(301.0), Request(kind, ip, 301.0);
    OneMoreEvent(c, [], first, kind, ip);
    OneMoreEvent(c, [first], sweep, kind, ip);
    OneMoreEvent(c, [first, sweep], second, kind, ip);
    assert [] + [first] == [first] && [first] + [sweep] == [first, sweep];
    assert [first, sweep] + [second] == [first, sweep, second];
    var bucket := Created(c, kind, 0.0);
    assert Run(c, [first]) == map[Key(kind, ip) := bucket];
    assert Run(c, [first, sweep]) == map[];
    assert [0.0, 301.0][1..] == [301.0] && [301.0][..0] == [];
    SmallBucketRefuses(bucket, 301.0);
    assert Answers(bucket, [301.0]) == [false];
  }

  lemma OneMoreEvent(c: Config, earlier: seq<Event>, e: Event, kind: Kind, ip: string)
    ensures Run(c, earlier + [e]) == Step(c, Run(c, earlier), e).0
    ensures CallTimes(earlier + [e], kind, ip)
            == CallTimes(earlier, kind, ip) + if IsCall(e, kind, ip) then [e.at] else []
    ensures Given(c, earlier + [e], kind, ip)
            == Given(c, earlier, kind, ip) + if IsCall(e, kind, ip) then [Step(c, Run(c, earlier), e).1] else []
  {
    assert (earlier + [e])[..|earlier|] == earlier;
  }

  // ----- the limiter in place -----

  class TokenBucket {
    var tokens: real
    const maxTokens: real
    const refillRate: real
    var lastRefill: real

    constructor (tokens: real, maxTokens: real, refillRate: real, now: real)
      ensures Value() == Bucket(tokens, maxTokens, refillRate, now)
    {
      this.tokens, this.maxTokens, this.refillRate, lastRefill := tokens, maxTokens, refillRate, now;
    }

    function Value(): Bucket
      reads this
    {
      Bucket(tokens, maxTokens, refillRate, lastRefill)
    }

    method TakeToken(now: real) returns (ok: bool)
      modifies this
      ensures (Value(), ok) == Take(old(Value()), now)
    {
      var elapsed := now - lastRefill;
      tokens := tokens + elapsed * refillRate;
      assert elapsed * refillRate == Gain(refillRate, old(lastRefill), now);
      if tokens > maxTokens {
        tokens := maxTokens;
      }
      lastRefill := now;
      if tokens < 1.0 {
        return false;
      }
      tokens := tokens - 1.0;
      return true;
    }
  }

  class RateLimiter {
    var buckets: map<string, TokenBucket>
    const config: Config

    constructor (config: Config)
      ensures Valid() && this.config == config && View() == map[]
    {
      this.config, buckets := config, map[];
    }

    ghost predicate Valid()
      reads this
    {
      forall k, l :: k in buckets && l in buckets && k != l ==> buckets[k] != buckets[l]
    }

    function View(): BucketMap
      reads this, buckets.Values
    {
      map k | k in buckets :: buckets[k].Value()
    }

    method Allow(key: string, maxTokens: real, refillRate: real, now: real) returns (ok: bool)
      requires Valid()
      modifies this, buckets.Values
      ensures Valid() && forall k :: k in buckets && k !in old(buckets) ==> fresh(buckets[k])
      ensures forall k :: k in buckets && k in old(buckets) ==> buckets[k] == old(buckets)[k]
      ensures (View(), ok) == Ask(old(View()), key, maxTokens, refillRate, now)
    {
      if key !in buckets {
        var bucket := new TokenBucket(maxTokens - 1.0, maxTokens, refillRate, now);
        buckets := buckets[key := bucket];
        assert View() == old(View())[key := Bucket(maxTokens - 1.0, maxTokens, refillRate, now)];
        return true;
      }
      ok := buckets[key].TakeToken(now);
      assert View() == old(View())[key := Take(old(View())[key], now).0];
    }

    method AllowRoomCreation(ip: string, now: real) returns (ok: bool)
      requires Valid()
      modifies this, buckets.Values
      ensures Valid()
      ensures (View(), ok) == Step(config, old(View()), Request(RoomCreation, ip, now))
    {
      var max := config.roomCreationsPerMin as real;
      ok := Allow("room:" + ip, max, max / 60.0, now);
    }

    method AllowWSConnection(ip: string, now: real) returns (ok: bool)
      requires Valid()
      modifies this, buckets.Values
      ensures Valid()
      ensures (View(), ok) == Step(config, old(View()), Request(WSConnection, ip, now))
    {
      var max := config.wsConnectionsPerMin as real;
      ok := Allow("ws:" + ip, max, max / 60.0, now);
    }

    /** One tick of the background sweep. */
    method CleanUp(now: real)
      requires Valid()
      modifies this`buckets
      ensures Valid()
      ensures View() == Step(config, old(View()), Cleanup(now)).0
      ensures forall k :: k in View() <==> k in old(View()) && now - old(View())[k].lastRefill <= 300.0
    {
      var remaining := buckets.Keys;
      while remaining != {}
        invariant remaining <= buckets.Keys <= old(buckets).Keys
        invariant forall k :: k in buckets ==> buckets[k] == old(buckets)[k]
        invariant forall k :: k in old(buckets) && k !in remaining ==>
                    (k in buckets <==> !Stale(old(buckets)[k].Value(), now))
      {
        var key :| key in remaining;
        remaining := remaining - {key};
        if now - buckets[key].lastRefill > IDLE_SECONDS {
          buckets := buckets - {key};
        }
      }
    }
  }
}
