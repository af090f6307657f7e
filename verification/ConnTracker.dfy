/** Counting open connections per address and in all (internal/server/conntracker.go), and the connection
    handlers that take and return a place (internal/server/ws.go). */
module ConnTracking {

  datatype Limits = Limits(maxPerIP: int, maxTotal: int)

  datatype Counts = Counts(perIP: map<string, int>, total: int)

  function CountOf(c: Counts, ip: string): int { if ip in c.perIP then c.perIP[ip] else 0 }

  function Added(l: Limits, c: Counts, ip: string): (Counts, bool) {
    if c.total >= l.maxTotal || CountOf(c, ip) >= l.maxPerIP then (c, false)
    else (Counts(c.perIP[ip := CountOf(c, ip) + 1], c.total + 1), true)
  }

  function Removed(c: Counts, ip: string): Counts {
    if CountOf(c, ip) <= 0 then c
    else if c.perIP[ip] == 1 then Counts(c.perIP - {ip}, c.total - 1)
    else Counts(c.perIP[ip := c.perIP[ip] - 1], c.total - 1)
  }

  /** A handler that got a place, with its address. */
  type HandlerId = nat
  type Live = map<HandlerId, string>

  /** Opening calls TryAdd; a handler that got a place calls Remove when it ends, however it ends. */
  datatype Event = Open(handler: HandlerId, ip: string) | End(handler: HandlerId)

  datatype State = State(counts: Counts, live: Live)

  function Step(l: Limits, s: State, e: Event): State {
    match e
    case Open(h, ip) =>
      if h in s.live then s
      else
        var (counts, ok) := Added(l, s.counts, ip);
        State(counts, if ok then s.live[h := ip] else s.live)
    case End(h) =>
      if h in s.live then State(Removed(s.counts, s.live[h]), s.live - {h}) else s
  }

  function Run(l: Limits, events: seq<Event>): State {
    if events == [] then State(Counts(map[], 0), map[])
    else Step(l, Run(l, events[..|events| - 1]), events[|events| - 1])
  }

  function HandlersOf(live: Live, ip: string): set<HandlerId> { set h | h in live && live[h] == ip }

  /** The sum of all per-address counters. */
  ghost function SumOf(perIP: map<string, int>): int {
    if perIP == map[] then 0
    else
      var ip :| ip in perIP;
      perIP[ip] + SumOf(perIP - {ip})
  }

  lemma {:induction false} SumSplits(perIP: map<string, int>, ip: string)
    requires ip in perIP
    ensures SumOf(perIP) == perIP[ip] + SumOf(perIP - {ip})
    decreases |perIP|
  {
    var first :| first in perIP && SumOf(perIP) == perIP[first] + SumOf(perIP - {first});
    SmallerWithout(perIP, first);
    if first != ip {
      SmallerWithout(perIP, ip);
      SumSplits(perIP - {first}, ip);
      SumSplits(perIP - {ip}, first);
      assert perIP - {first} - {ip} == perIP - {ip} - {first};
    }
  }

  lemma SmallerWithout(perIP: map<string, int>, ip: string)
    requires ip in perIP
    ensures |perIP - {ip}| == |perIP| - 1
  {
    assert (perIP - {ip}).Keys == perIP.Keys - {ip};
    assert |perIP| == |perIP.Keys| && |perIP - {ip}| == |(perIP - {ip}).Keys|;
  }

  lemma SumAfterUpdate(perIP: map<string, int>, ip: string, n: int)
    ensures SumOf(perIP[ip := n]) == n + SumOf(perIP - {ip})
    ensures ip !in perIP ==> perIP - {ip} == perIP
  {
    SumSplits(perIP[ip := n], ip);
    assert perIP[ip := n] - {ip} == perIP - {ip};
  }

  /** Every counter is the number of live handlers of its address, and no counter stays at zero. */
  ghost predicate CountersRight(c: Counts, live: Live) {
    && (forall ip :: ip in c.perIP ==> c.perIP[ip] > 0)
    && (forall ip :: CountOf(c, ip) == |HandlersOf(live, ip)|)
  }

  /** The total is the number of all live handlers and the sum of the counters. */
  ghost predicate TotalRight(c: Counts, live: Live) { c.total == |live| && c.total == SumOf(c.perIP) }

  ghost predicate WithinLimits(l: Limits, c: Counts) {
    && (forall ip :: ip in c.perIP ==> c.perIP[ip] <= l.maxPerIP)
    && (c.total > 0 ==> c.total <= l.maxTotal)
  }

  ghost predicate Conserved(l: Limits, s: State) {
    CountersRight(s.counts, s.live) && TotalRight(s.counts, s.live) && WithinLimits(l, s.counts)
  }

  lemma HandlersAfterOpen(live: Live, h: HandlerId, ip: string, other: string)
    requires h !in live
    ensures |HandlersOf(live[h := ip], other)| == |HandlersOf(live, other)| + if other == ip then 1 else 0
  {
    if other == ip {
      assert HandlersOf(live[h := ip], other) == HandlersOf(live, other) + {h};
    } else {
      assert HandlersOf(live[h := ip], other) == HandlersOf(live, other);
    }
  }

  lemma LiveAfterOpen(live: Live, h: HandlerId, ip: string)
    requires h !in live
    ensures |live[h := ip]| == |live| + 1
  {
    assert live[h := ip].Keys == live.Keys + {h};
    assert |live[h := ip]| == |live[h := ip].Keys| && |live| == |live.Keys|;
  }

  lemma HandlersAfterEnd(live: Live, h: HandlerId, other: string)
    requires h in live
    ensures |HandlersOf(live - {h}, other)| == |HandlersOf(live, other)| - if other == live[h] then 1 else 0
    ensures |live - {h}| == |live| - 1
  {
    assert live == (live - {h})[h := live[h]];
    HandlersAfterOpen(live - {h}, h, live[h], other);
    LiveAfterOpen(live - {h}, h, live[h]);
  }

  lemma OpenKeepsCounters(l: Limits, c: Counts, live: Live, h: HandlerId, ip: string)
    requires CountersRight(c, live) && h !in live && Added(l, c, ip).1
    ensures CountersRight(Added(l, c, ip).0, live[h := ip])
  {
    forall other
      ensures CountOf(Added(l, c, ip).0, other) == |HandlersOf(live[h := ip], other)|
    {
      HandlersAfterOpen(live, h, ip, other);
    }
  }

  lemma OpenKeepsTotal(l: Limits, c: Counts, live: Live, h: HandlerId, ip: string)
    requires TotalRight(c, live) && h !in live && Added(l, c, ip).1
    ensures TotalRight(Added(l, c, ip).0, live[h := ip])
  {
    LiveAfterOpen(live, h, ip);
    SumAfterUpdate(c.perIP, ip, CountOf(c, ip) + 1);
    if ip in c.perIP {
      SumSplits(c.perIP, ip);
    }
  }

  lemma EndKeepsCounters(c: Counts, live: Live, h: HandlerId)
    requires CountersRight(c, live) && h in live
    ensures CountOf(c, live[h]) > 0
    ensures CountersRight(Removed(c, live[h]), live - {h})
  {
    assert h in HandlersOf(live, live[h]);
    assert CountOf(c, live[h]) > 0;
    forall other
      ensures CountOf(Removed(c, live[h]), other) == |HandlersOf(live - {h}, other)|
    {
      HandlersAfterEnd(live, h, other);
    }
  }

  lemma EndKeepsTotal(c: Counts, live: Live, h: HandlerId)
    requires TotalRight(c, live) && h in live && CountOf(c, live[h]) > 0
    ensures TotalRight(Removed(c, live[h]), live - {h})
  {
    var ip := live[h];
    HandlersAfterEnd(live, h, ip);
    SumSplits(c.perIP, ip);
    SumAfterUpdate(c.perIP, ip, c.perIP[ip] - 1);
  }

  lemma OpenConserves(l: Limits, s: State, h: HandlerId, ip: string)
    requires Conserved(l, s)
    ensures Conserved(l, Step(l, s, Open(h, ip)))
  {
    if h !in s.live && Added(l, s.counts, ip).1 {
      OpenKeepsCounters(l, s.counts, s.live, h, ip);
      OpenKeepsTotal(l, s.counts, s.live, h, ip);
    }
  }

  lemma EndConserves(l: Limits, s: State, h: HandlerId)
    requires Conserved(l, s)
    ensures Conserved(l, Step(l, s, End(h)))
  {
    if h in s.live {
      EndKeepsCounters(s.counts, s.live, h);
      EndKeepsTotal(s.counts, s.live, h);
    }
  }

  /** Conservation, in every interleaving of handlers: every counter is the number of live handlers of its
      address, no counter stays at zero, the total is their number and the sum of the counters, both limits hold. */
  lemma {:induction false} ConnectionsAreConserved(l: Limits, events: seq<Event>)
    ensures Conserved(l, Run(l, events))
  {
    if events == [] {
      assert forall ip: string :: HandlersOf(map[], ip) == {};
    } else {
      ConnectionsAreConserved(l, events[..|events| - 1]);
      match events[|events| - 1] {
        case Open(h, ip) => OpenConserves(l, Run(l, events[..|events| - 1]), h, ip);
        case End(h) => EndConserves(l, Run(l, events[..|events| - 1]), h);
      }
    }
  }

  /** A place is refused only when a limit is reached by live handlers. */
  lemma RefusedOnlyAtLimit(l: Limits, events: seq<Event>, ip: string)
    ensures var s := Run(l, events);
            !Added(l, s.counts, ip).1 <==> |s.live| >= l.maxTotal || |HandlersOf(s.live, ip)| >= l.maxPerIP
  {
    ConnectionsAreConserved(l, events);
  }

  class ConnTracker {
    var perIP: map<string, int>
    var total: int
    const config: Limits

    constructor (config: Limits)
      ensures View() == Counts(map[], 0) && this.config == config
    {
      perIP, total, this.config := map[], 0, config;
    }

    function View(): Counts
      reads this
    {
      Counts(perIP, total)
    }

    method TryAdd(ip: string) returns (ok: bool)
      modifies this
      ensures (View(), ok) == Added(config, old(View()), ip)
    {
      if total >= config.maxTotal {
        return false;
      }
      var count := if ip in perIP then perIP[ip] else 0;
      if count >= config.maxPerIP {
        return false;
      }
      perIP := perIP[ip := count + 1];
      total := total + 1;
      return true;
    }

    method Remove(ip: string)
      modifies this
      ensures View() == Removed(old(View()), ip)
    {
      if ip !in perIP || perIP[ip] <= 0 {
        return;
      }
      perIP := perIP[ip := perIP[ip] - 1];
      total := total - 1;
      if perIP[ip] == 0 {
        perIP := perIP - {ip};
        assert perIP == old(perIP) - {ip};
      }
    }
  }
}
