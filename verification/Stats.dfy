/** Vote statistics (internal/domain/stats.go). */
module Stats {
  import opened Common
  import opened RoomTypes
  import opened Sorting

  /** Whether a participant's vote enters the statistics. */
  predicate Counts(p: Seat) { p.role != Observer && p.vote != Blank }

  function EntryOf(p: Seat): VoteEntry { VoteEntry(p.sessionId, p.name, p.vote) }

  function SidOf(e: VoteEntry): Sid { e.sessionId }

  ghost function EntrySet(seats: Seats): set<VoteEntry> {
    set s | s in seats && Counts(seats[s]) :: EntryOf(seats[s])
  }

  /** The counted votes, listed by session id. */
  ghost function Ballot(seats: Seats): seq<VoteEntry> {
    SortBy(Listing(EntrySet(seats)), SidOf, Less)
  }

  function Numbers(votes: seq<VoteEntry>): seq<int> {
    if votes == [] then []
    else
      var init, last := Numbers(votes[..|votes| - 1]), votes[|votes| - 1].value;
      if last.Points? then init + [last.halves] else init
  }

  function CountUnsure(votes: seq<VoteEntry>): nat {
    if votes == [] then 0
    else CountUnsure(votes[..|votes| - 1]) + if votes[|votes| - 1].value.Unsure? then 1 else 0
  }

  function Sum(values: seq<int>): int {
    if values == [] then 0 else Sum(values[..|values| - 1]) + values[|values| - 1]
  }

  /** The mean of half-point values, rounded half up to hundredths of a point. */
  function RoundedAverage(values: seq<int>): int
    requires values != []
  {
    (100 * Sum(values) + |values|) / (2 * |values|)
  }

  /** In quarter points: the middle value doubled, or the sum of the two middle values. */
  function Median(values: seq<int>): int
    requires values != []
  {
    var n := |values|;
    if n % 2 == 0 then values[n / 2 - 1] + values[n / 2] else 2 * values[n / 2]
  }

  predicate AllEqual(values: seq<int>) {
    forall i, j :: 0 <= i < j < |values| ==> values[i] == values[j]
  }

  /** What the statistics say about a list of counted votes. */
  function Summarize(votes: seq<VoteEntry>): RoundResult {
    var nums := SortInts(Numbers(votes));
    assert |nums| == |multiset(nums)| == |multiset(Numbers(votes))|;
    if nums == [] then RoundResult(votes, None, None, CountUnsure(votes), |votes|, false, None)
    else RoundResult(votes, Some(RoundedAverage(nums)), Some(Median(nums)), CountUnsure(votes), |votes|,
                     AllEqual(nums), Some((nums[0], nums[|nums| - 1])))
  }

  method Average(values: seq<int>) returns (avg: int)
    requires values != []
    ensures avg == RoundedAverage(values)
  {
    var sum := 0;
    for i := 0 to |values|
      invariant sum == Sum(values[..i])
    {
      assert values[..i + 1][..i] == values[..i];
      sum := sum + values[i];
    }
    assert values[..|values|] == values;
    avg := (100 * sum + |values|) / (2 * |values|);
  }

  method IsConsensus(values: seq<int>) returns (same: bool)
    ensures same == (values != [] && AllEqual(values))
  {
    if |values| <= 1 {
      return |values| == 1;
    }
    var first := values[0];
    for i := 1 to |values|
      invariant forall j :: 0 <= j < i ==> values[j] == first
    {
      if values[i] != first {
        return false;
      }
    }
    return true;
  }

  /** The loop of CalculateResult: the map is walked in an arbitrary order. */
  method CollectVotes(participants: Seats)
    returns (votes: seq<VoteEntry>, total: nat, uncertain: nat, numericValues: seq<int>)
    requires Keyed(participants)
    ensures forall e :: e in votes <==> e.sessionId in participants && Counts(participants[e.sessionId])
                                        && e == EntryOf(participants[e.sessionId])
    ensures forall i, j :: 0 <= i < j < |votes| ==> votes[i].sessionId != votes[j].sessionId
    ensures numericValues == Numbers(votes) && uncertain == CountUnsure(votes) && total == |votes|
  {
    votes, total, uncertain, numericValues := [], 0, 0, [];
    var remaining := participants.Keys;
    while remaining != {}
      invariant remaining <= participants.Keys
      invariant forall e :: e in votes <==> e.sessionId in participants.Keys - remaining
                                            && Counts(participants[e.sessionId])
                                            && e == EntryOf(participants[e.sessionId])
      invariant forall i, j :: 0 <= i < j < |votes| ==> votes[i].sessionId != votes[j].sessionId
      invariant numericValues == Numbers(votes) && uncertain == CountUnsure(votes) && total == |votes|
    {
      var s :| s in remaining;
      remaining := remaining - {s};
      var p := participants[s];
      if p.role == Observer || p.vote == Blank {
        continue;
      }
      total := total + 1;
      ghost var before := votes;
      assert forall i :: 0 <= i < |before| ==> before[i] in before;
      votes := votes + [EntryOf(p)];
      assert votes[..|votes| - 1] == before;
      if p.vote == Unsure {
        uncertain := uncertain + 1;
        continue;
      }
      if p.vote.Points? {
        numericValues := numericValues + [p.vote.halves];
      }
    }
  }

  /** However the map is walked, the result is a function of the map alone. */
  method CalculateResult(participants: Seats) returns (result: RoundResult)
    requires Keyed(participants)
    ensures result == Summarize(Ballot(participants))
  {
    var votes, total, uncertain, numericValues := CollectVotes(participants);
    ghost var walked := votes;
    votes := SortBy(votes, SidOf, Less);
    assert forall e :: e in walked <==> e in EntrySet(participants);
    assert forall i, j :: 0 <= i < j < |walked| ==> walked[i] != walked[j];
    WalkOrderIsIrrelevant(participants, walked);
    TalliesIgnoreOrder(walked, votes);
    result := RoundResult(votes, None, None, uncertain, total, false, None);
    if numericValues == [] {
      return;
    }
    numericValues := SortInts(numericValues);
    var avg := Average(numericValues);
    var consensus := IsConsensus(numericValues);
    result := result.(average := Some(avg), median := Some(Median(numericValues)), consensus := consensus,
                      spread := Some((numericValues[0], numericValues[|numericValues| - 1])));
  }

  // ----- independence of order -----

  lemma BallotIsSorted(seats: Seats)
    requires Keyed(seats)
    ensures SortedBy(Ballot(seats), SidOf, Less)
    ensures forall e :: e in Ballot(seats) <==>
                        e.sessionId in seats && Counts(seats[e.sessionId]) && e == EntryOf(seats[e.sessionId])
  {
    ListingIsComplete(EntrySet(seats));
    LessIsStrictTotalOrder();
    EntriesHaveDistinctSids(seats, Listing(EntrySet(seats)));
    SortBySorts(Listing(EntrySet(seats)), SidOf, Less);
    assert forall e :: e in Ballot(seats) <==> e in EntrySet(seats);
  }

  function NumberBag(votes: seq<VoteEntry>): multiset<int> { multiset(Numbers(votes)) }

  lemma {:induction false} TalliesConcat(a: seq<VoteEntry>, b: seq<VoteEntry>)
    ensures Numbers(a + b) == Numbers(a) + Numbers(b)
    ensures CountUnsure(a + b) == CountUnsure(a) + CountUnsure(b)
  {
    if b == [] {
      assert a + b == a && Numbers(a) + [] == Numbers(a);
    } else {
      var b' := b[..|b| - 1];
      assert (a + b)[..|a + b| - 1] == a + b';
      TalliesConcat(a, b');
    }
  }

  /** The tallies of one entry at the front of a list. */
  lemma TalliesCons(e: VoteEntry, rest: seq<VoteEntry>)
    ensures NumberBag([e] + rest) == NumberBag([e]) + NumberBag(rest)
    ensures CountUnsure([e] + rest) == CountUnsure([e]) + CountUnsure(rest)
  {
    TalliesConcat([e], rest);
  }

  lemma Exchange(x: multiset<int>, y: multiset<int>, rest: multiset<int>)
    ensures x + (y + rest) == y + (x + rest)
  {
  }

  lemma {:induction false} TalliesOfInsert(xs: seq<VoteEntry>, x: VoteEntry)
    ensures NumberBag(InsertBy(xs, x, SidOf, Less)) == NumberBag([x]) + NumberBag(xs)
    ensures CountUnsure(InsertBy(xs, x, SidOf, Less)) == CountUnsure([x]) + CountUnsure(xs)
  {
    if xs == [] || Less(x.sessionId, xs[0].sessionId) {
      TalliesCons(x, xs);
    } else {
      var head, tail := xs[0], xs[1..];
      TalliesOfInsert(tail, x);
      TalliesCons(head, InsertBy(tail, x, SidOf, Less));
      TalliesCons(head, tail);
      assert xs == [head] + tail;
      Exchange(NumberBag([x]), NumberBag([head]), NumberBag(tail));
    }
  }

  lemma {:induction false} TalliesOfSort(xs: seq<VoteEntry>)
    ensures NumberBag(SortBy(xs, SidOf, Less)) == NumberBag(xs)
    ensures CountUnsure(SortBy(xs, SidOf, Less)) == CountUnsure(xs)
  {
    if xs == [] {
    } else {
      var head, tail := xs[0], xs[1..];
      TalliesOfSort(tail);
      TalliesOfInsert(SortBy(tail, SidOf, Less), head);
      TalliesCons(head, tail);
      assert xs == [head] + tail;
    }
  }

  lemma TalliesIgnoreOrder(walked: seq<VoteEntry>, votes: seq<VoteEntry>)
    requires votes == SortBy(walked, SidOf, Less)
    ensures SortInts(Numbers(walked)) == SortInts(Numbers(votes))
    ensures CountUnsure(walked) == CountUnsure(votes) && |walked| == |votes|
  {
    TalliesOfSort(walked);
    SortIntsSorts(Numbers(walked));
    SortIntsSorts(Numbers(votes));
    assert NumberBag(walked) == NumberBag(votes);
    AscendingIsUnique(SortInts(Numbers(walked)), SortInts(Numbers(votes)));
    assert |multiset(walked)| == |multiset(votes)|;
  }

  lemma EntriesHaveDistinctSids(seats: Seats, walk: seq<VoteEntry>)
    requires Keyed(seats)
    requires forall e :: e in walk ==> e in EntrySet(seats)
    requires forall i, j :: 0 <= i < j < |walk| ==> walk[i] != walk[j]
    ensures forall i, j :: 0 <= i < j < |walk| ==> SidOf(walk[i]) != SidOf(walk[j])
  {
    forall i, j | 0 <= i < j < |walk|
      ensures SidOf(walk[i]) != SidOf(walk[j])
    {
      assert walk[i] in EntrySet(seats) && walk[j] in EntrySet(seats);
    }
  }

  /** Any walk over the participants, in whatever order, sorts to the same list of votes. */
  lemma WalkOrderIsIrrelevant(seats: Seats, walk: seq<VoteEntry>)
    requires Keyed(seats)
    requires forall e :: e in walk <==> e in EntrySet(seats)
    requires forall i, j :: 0 <= i < j < |walk| ==> walk[i] != walk[j]
    ensures SortBy(walk, SidOf, Less) == Ballot(seats)
  {
    var listing := Listing(EntrySet(seats));
    ListingIsComplete(EntrySet(seats));
    LessIsStrictTotalOrder();
    EntriesHaveDistinctSids(seats, walk);
    EntriesHaveDistinctSids(seats, listing);
    SortBySorts(walk, SidOf, Less);
    SortBySorts(listing, SidOf, Less);
    SortedIsUnique(SortBy(walk, SidOf, Less), SortBy(listing, SidOf, Less), SidOf, Less);
  }

  // ----- what the numbers mean -----

  lemma {:induction false} TalliesPartition(votes: seq<VoteEntry>)
    requires forall e :: e in votes ==> e.value.Unsure? || e.value.Points?
    ensures |votes| == |Numbers(votes)| + CountUnsure(votes)
    ensures forall v :: v in Numbers(votes) <==> exists e :: e in votes && e.value.Points? && e.value.halves == v
  {
    if votes == [] {
    } else {
      var init, last := votes[..|votes| - 1], votes[|votes| - 1];
      assert votes == init + [last];
      TalliesPartition(init);
    }
  }

  /** How many entries satisfy a bound, for the median's two halves. */
  function AtMost(values: seq<int>, quarters: int): nat {
    if values == [] then 0
    else AtMost(values[1..], quarters) + if 2 * values[0] <= quarters then 1 else 0
  }

  function AtLeast(values: seq<int>, quarters: int): nat {
    if values == [] then 0
    else AtLeast(values[1..], quarters) + if 2 * values[0] >= quarters then 1 else 0
  }

  lemma {:induction false} PrefixAtMost(values: seq<int>, k: nat, quarters: int)
    requires k <= |values| && forall i :: 0 <= i < k ==> 2 * values[i] <= quarters
    ensures AtMost(values, quarters) >= k
  {
    if k > 0 {
      PrefixAtMost(values[1..], k - 1, quarters);
    }
  }

  lemma {:induction false} SuffixAtLeast(values: seq<int>, k: nat, quarters: int)
    requires k <= |values| && forall i :: k <= i < |values| ==> 2 * values[i] >= quarters
    ensures AtLeast(values, quarters) >= |values| - k
  {
    if values == [] {
    } else {
      SuffixAtLeast(values[1..], if k > 0 then k - 1 else 0, quarters);
    }
  }

  lemma {:induction false} AboveAtMost(values: seq<int>, k: nat, quarters: int)
    requires k <= |values| && forall i :: k <= i < |values| ==> 2 * values[i] > quarters
    ensures AtMost(values, quarters) <= k
  {
    if values == [] {
    } else {
      AboveAtMost(values[1..], if k > 0 then k - 1 else 0, quarters);
    }
  }

  lemma {:induction false} BelowAtLeast(values: seq<int>, k: nat, quarters: int)
    requires k <= |values| && forall i :: 0 <= i < k ==> 2 * values[i] < quarters
    ensures AtLeast(values, quarters) <= |values| - k
  {
    if values == [] {
    } else if k > 0 {
      BelowAtLeast(values[1..], k - 1, quarters);
    } else {
      BelowAtLeast(values[1..], 0, quarters);
    }
  }

  /** At least half the values are at most the point (in quarters), and at least half are at least it. */
  predicate SplitsInHalf(values: seq<int>, quarters: int) {
    2 * AtMost(values, quarters) >= |values| && 2 * AtLeast(values, quarters) >= |values|
  }

  lemma SplitsBetweenMiddles(values: seq<int>, quarters: int)
    requires values != [] && Ascending(values)
    ensures var n := |values|;
            SplitsInHalf(values, quarters) <==> 2 * values[(n - 1) / 2] <= quarters <= 2 * values[n / 2]
  {
    var n := |values|;
    if 2 * values[(n - 1) / 2] <= quarters {
      PrefixAtMost(values, (n - 1) / 2 + 1, quarters);
    } else {
      AboveAtMost(values, (n - 1) / 2, quarters);
    }
    if quarters <= 2 * values[n / 2] {
      SuffixAtLeast(values, n / 2, quarters);
    } else {
      BelowAtLeast(values, n / 2 + 1, quarters);
    }
  }

  /** Points that mirror each other in `m` split the values alike. */
  ghost predicate IsMidpoint(values: seq<int>, m: int) {
    forall q, p :: q + p == 2 * m ==> (SplitsInHalf(values, q) <==> SplitsInHalf(values, p))
  }

  /** The median splits the values in half, and is the midpoint of all points that do. */
  lemma MedianIsMidpoint(values: seq<int>)
    requires values != [] && Ascending(values)
    ensures SplitsInHalf(values, Median(values))
    ensures IsMidpoint(values, Median(values))
  {
    SplitsBetweenMiddles(values, Median(values));
    forall q, p | q + p == 2 * Median(values)
      ensures SplitsInHalf(values, q) <==> SplitsInHalf(values, p)
    {
      SplitsBetweenMiddles(values, q);
      SplitsBetweenMiddles(values, p);
    }
  }

  /** Only one point is that midpoint. */
  lemma MidpointIsUnique(values: seq<int>, m: int)
    requires values != [] && Ascending(values)
    requires IsMidpoint(values, m)
    ensures m == Median(values)
  {
    var lo, hi := 2 * values[(|values| - 1) / 2], 2 * values[|values| / 2];
    SplitsBetweenMiddles(values, lo);
    SplitsBetweenMiddles(values, hi);
    assert SplitsInHalf(values, 2 * m - lo) && SplitsInHalf(values, 2 * m - hi);
    SplitsBetweenMiddles(values, 2 * m - lo);
    SplitsBetweenMiddles(values, 2 * m - hi);
  }

  /** The vote list is exactly the counted votes, strictly sorted by session id. */
  ghost predicate ListsTheVotes(votes: seq<VoteEntry>, seats: Seats) {
    && SortedBy(votes, SidOf, Less)
    && forall e :: e in votes <==>
                     e.sessionId in seats && Counts(seats[e.sessionId]) && e == EntryOf(seats[e.sessionId])
  }

  /** The numbers are exactly the counted point values. */
  ghost predicate ListsTheNumbers(nums: seq<int>, seats: Seats) {
    forall v :: v in nums <==> exists s :: s in seats && Counts(seats[s]) && seats[s].vote == Points(v)
  }

  lemma NumbersOfBallot(seats: Seats)
    requires Keyed(seats) && forall s :: s in seats ==> ValidVote(seats[s].vote)
    ensures ListsTheNumbers(Numbers(Ballot(seats)), seats)
    ensures |Ballot(seats)| == |Numbers(Ballot(seats))| + CountUnsure(Ballot(seats))
  {
    var votes := Ballot(seats);
    BallotIsSorted(seats);
    TalliesPartition(votes);
    forall v
      ensures v in Numbers(votes) <==> exists s :: s in seats && Counts(seats[s]) && seats[s].vote == Points(v)
    {
      if s :| s in seats && Counts(seats[s]) && seats[s].vote == Points(v) {
        assert EntryOf(seats[s]) in votes;
      }
    }
  }

  lemma SortedNumbers(numbers: seq<int>)
    ensures var nums := SortInts(numbers);
            && Ascending(nums) && |nums| == |numbers| && forall v :: v in nums <==> v in numbers
  {
    var nums := SortInts(numbers);
    SortIntsSorts(numbers);
    assert |multiset(nums)| == |multiset(numbers)|;
    forall v
      ensures v in nums <==> v in numbers
    {
      InMultiset(nums, v);
      InMultiset(numbers, v);
    }
  }

  /** `spread` holds the smallest and largest number, and the median is the midpoint of the points that split the
      numbers in half. */
  ghost predicate Summarises(nums: seq<int>, spread: (int, int), median: int) {
    && spread.0 in nums && spread.1 in nums
    && (forall v :: v in nums ==> spread.0 <= v <= spread.1)
    && SplitsInHalf(nums, median) && IsMidpoint(nums, median)
  }

  lemma SpreadAndMedian(nums: seq<int>)
    requires nums != [] && Ascending(nums)
    ensures Summarises(nums, (nums[0], nums[|nums| - 1]), Median(nums))
  {
    MedianIsMidpoint(nums);
    assert nums[0] in nums && nums[|nums| - 1] in nums;
  }

  /** The participants whose counted vote is `card`. */
  ghost function Holders(seats: Seats, card: Card): set<Sid> {
    set s | s in seats && Counts(seats[s]) && seats[s].vote == card
  }

  /** Every number occurs as often as there are participants with that card. */
  ghost predicate CountsTheCards(nums: seq<int>, uncertain: nat, seats: Seats) {
    (forall v: nat :: multiset(nums)[v] == |Holders(seats, Points(v))|) && uncertain == |Holders(seats, Unsure)|
  }

  /** The sessions that `votes` lists with `card`. */
  ghost function ListedWith(votes: seq<VoteEntry>, card: Card): set<Sid> {
    set e | e in votes && e.value == card :: e.sessionId
  }

  lemma {:induction false} TalliesCountEntries(votes: seq<VoteEntry>, v: nat)
    requires forall i, j :: 0 <= i < j < |votes| ==> votes[i].sessionId != votes[j].sessionId
    ensures multiset(Numbers(votes))[v] == |ListedWith(votes, Points(v))|
    ensures CountUnsure(votes) == |ListedWith(votes, Unsure)|
  {
    if votes == [] {
    } else {
      var init, last := votes[..|votes| - 1], votes[|votes| - 1];
      TalliesCountEntries(init, v);
      ListedWithLast(votes, Points(v));
      ListedWithLast(votes, Unsure);
    }
  }

  lemma ListedWithLast(votes: seq<VoteEntry>, card: Card)
    requires votes != [] && forall i, j :: 0 <= i < j < |votes| ==> votes[i].sessionId != votes[j].sessionId
    ensures |ListedWith(votes, card)|
            == |ListedWith(votes[..|votes| - 1], card)| + if votes[|votes| - 1].value == card then 1 else 0
  {
    var init, last := votes[..|votes| - 1], votes[|votes| - 1];
    forall e
      ensures e in votes <==> e in init || e == last
    {
      assert votes == init + [last];
    }
    if last.value == card {
      assert last.sessionId !in ListedWith(init, card);
      assert ListedWith(votes, card) == ListedWith(init, card) + {last.sessionId};
    } else {
      assert ListedWith(votes, card) == ListedWith(init, card);
    }
  }

  lemma BallotListsHolders(seats: Seats, card: Card)
    requires Keyed(seats)
    ensures ListedWith(Ballot(seats), card) == Holders(seats, card)
  {
    BallotIsSorted(seats);
    forall s | s in Holders(seats, card)
      ensures s in ListedWith(Ballot(seats), card)
    {
      assert EntryOf(seats[s]) in Ballot(seats);
    }
  }

  lemma BallotCountsTheCards(seats: Seats)
    requires Keyed(seats)
    ensures CountsTheCards(SortInts(Numbers(Ballot(seats))), CountUnsure(Ballot(seats)), seats)
  {
    var votes := Ballot(seats);
    BallotIsSorted(seats);
    SortIntsSorts(Numbers(votes));
    forall i, j | 0 <= i < j < |votes|
      ensures votes[i].sessionId != votes[j].sessionId
    {
      assert Less(SidOf(votes[i]), SidOf(votes[j]));
      LessTotal(votes[i].sessionId, votes[j].sessionId);
    }
    forall v: nat
      ensures multiset(Numbers(votes))[v] == |Holders(seats, Points(v))|
    {
      TalliesCountEntries(votes, v);
      BallotListsHolders(seats, Points(v));
    }
    TalliesCountEntries(votes, 0);
    BallotListsHolders(seats, Unsure);
  }

  /** The mean of the half points in hundredths of a point, to the nearest, halves upwards. */
  predicate IsMean(average: int, nums: seq<int>) {
    2 * |nums| * average <= 100 * Sum(nums) + |nums| < 2 * |nums| * average + 2 * |nums|
  }

  /** What the statistics say about ascending numbers: a spread that is attained and bounds every number, the midpoint
      of all points with half the numbers on either side, and consensus exactly when all numbers are equal. */
  ghost predicate DescribesNumbers(r: RoundResult, nums: seq<int>) {
    if nums == [] then r.spread.None? && r.median.None? && !r.consensus
    else
      && r.spread.Some? && r.median.Some? && Summarises(nums, r.spread.value, r.median.value)
      && (r.consensus <==> forall v :: v in nums ==> v == nums[0])
  }

  lemma AllEqualValues(nums: seq<int>)
    requires nums != []
    ensures AllEqual(nums) <==> forall v :: v in nums ==> v == nums[0]
  {
    if AllEqual(nums) {
      forall v | v in nums
        ensures v == nums[0]
      {
        var i :| 0 <= i < |nums| && nums[i] == v;
      }
    }
    assert forall i :: 0 <= i < |nums| ==> nums[i] in nums;
  }

  lemma RoundedAverageIsMean(nums: seq<int>)
    requires nums != []
    ensures IsMean(RoundedAverage(nums), nums)
  {
    RoundedAverageIsNearest(nums);
  }

  lemma SummaryMean(votes: seq<VoteEntry>, nums: seq<int>)
    requires nums == SortInts(Numbers(votes))
    ensures var r := Summarize(votes);
            if nums == [] then r.average.None? else r.average.Some? && IsMean(r.average.value, nums)
  {
    if nums != [] {
      RoundedAverageIsMean(nums);
    }
  }

  lemma SummaryConsensus(votes: seq<VoteEntry>, nums: seq<int>)
    requires nums == SortInts(Numbers(votes)) && nums != []
    ensures Summarize(votes).consensus <==> forall v :: v in nums ==> v == nums[0]
  {
    AllEqualValues(nums);
  }

  lemma SummarySpread(votes: seq<VoteEntry>, nums: seq<int>)
    requires nums == SortInts(Numbers(votes)) && nums != [] && Ascending(nums)
    ensures var r := Summarize(votes);
            r.spread.Some? && r.median.Some? && Summarises(nums, r.spread.value, r.median.value)
  {
    SpreadAndMedian(nums);
  }

  lemma SummaryDescribesNumbers(votes: seq<VoteEntry>, nums: seq<int>)
    requires nums == SortInts(Numbers(votes)) && Ascending(nums)
    ensures DescribesNumbers(Summarize(votes), nums)
  {
    if nums != [] {
      SummarySpread(votes, nums);
      SummaryConsensus(votes, nums);
    }
  }

  /** Strictly sorted votes, nobody missing or invented, every number as often as it was voted, the rest unsure, and
      what the statistics say about the numbers. */
  lemma StatisticsMeaning(seats: Seats, r: RoundResult, nums: seq<int>)
    requires Keyed(seats) && forall s :: s in seats ==> ValidVote(seats[s].vote)
    requires r == Summarize(Ballot(seats)) && nums == SortInts(Numbers(Ballot(seats)))
    ensures ListsTheVotes(r.votes, seats)
    ensures ListsTheNumbers(nums, seats) && CountsTheCards(nums, r.uncertain, seats)
    ensures r.total == |nums| + r.uncertain
    ensures DescribesNumbers(r, nums)
    ensures if nums == [] then r.average.None? else r.average.Some? && IsMean(r.average.value, nums)
  {
    BallotIsSorted(seats);
    NumbersOfBallot(seats);
    BallotCountsTheCards(seats);
    SortedNumbers(Numbers(Ballot(seats)));
    SummaryDescribesNumbers(Ballot(seats), nums);
    SummaryMean(Ballot(seats), nums);
  }

  // ----- the rounded average -----

  lemma {:induction false} SumBounds(values: seq<int>, lo: int, hi: int)
    requires forall i :: 0 <= i < |values| ==> lo <= values[i] <= hi
    ensures |values| * lo <= Sum(values) <= |values| * hi
  {
    if values == [] {
    } else {
      var n := |values| - 1;
      SumBounds(values[..n], lo, hi);
      OneMoreTerm(n, lo);
      OneMoreTerm(n, hi);
    }
  }

  lemma OneMoreTerm(n: nat, lo: int)
    ensures (n + 1) * lo == n * lo + lo
  {
  }

  lemma {:induction false} SumStrictBounds(values: seq<int>, lo: int, hi: int, k: nat)
    requires k < |values| && forall i :: 0 <= i < |values| ==> lo <= values[i] <= hi
    ensures values[k] > lo ==> |values| * lo + 1 <= Sum(values)
    ensures values[k] < hi ==> Sum(values) <= |values| * hi - 1
  {
    var n := |values| - 1;
    SumBounds(values[..n], lo, hi);
    if k < n {
      SumStrictBounds(values[..n], lo, hi, k);
    }
    OneMoreTerm(n, lo);
    OneMoreTerm(n, hi);
  }

  /** Rounding to the nearest hundredth, said without division. */
  lemma RoundedAverageIsNearest(values: seq<int>)
    requires values != []
    ensures var n := |values|; var avg := RoundedAverage(values);
            2 * n * avg <= 100 * Sum(values) + n < 2 * n * avg + 2 * n
  {
    var d := 2 * |values|;
    var x := 100 * Sum(values) + |values|;
    assert x == d * (x / d) + x % d;
  }

  lemma ProductGrows(d: int, a: int, b: int)
    requires d > 0 && a >= b + 1
    ensures d * a >= d * b + d
  {
    assert d * (a - b - 1) >= 0;
    assert d * a == d * b + d + d * (a - b - 1);
  }

  lemma ProductOrder(d: int, a: int, b: int)
    requires d > 0 && d * a < d * b + d
    ensures a <= b
  {
    if a > b {
      ProductGrows(d, a, b);
    }
  }

  /** Within half a hundredth of the mean, and never outside the smallest and largest value. */
  lemma AverageBounds(values: seq<int>)
    requires values != [] && Ascending(values)
    ensures var n := |values|; var avg := RoundedAverage(values);
            && -n <= 2 * n * avg - 100 * Sum(values) <= n
            && 50 * values[0] <= avg <= 50 * values[n - 1]
  {
    var n, avg, sum := |values|, RoundedAverage(values), Sum(values);
    var lo, hi := values[0], values[n - 1];
    RoundedAverageIsNearest(values);
    SumBounds(values, lo, hi);
    RoundingStaysBetween(n, sum, lo, hi, avg);
  }

  lemma RoundingStaysBetween(n: int, sum: int, lo: int, hi: int, avg: int)
    requires n > 0 && n * lo <= sum <= n * hi
    requires 2 * n * avg <= 100 * sum + n < 2 * n * avg + 2 * n
    ensures 50 * lo <= avg <= 50 * hi
  {
    assert (2 * n) * (50 * lo) == 100 * (n * lo);
    ProductOrder(2 * n, 50 * lo, avg);
    assert (2 * n) * (50 * hi) == 100 * (n * hi);
    ProductOrder(2 * n, avg, 50 * hi);
  }

  /** With fewer than a hundred votes, the rounded average meets an end of the spread only at
      consensus. */
  lemma ConsensusIffAverageAtEnd(values: seq<int>)
    requires values != [] && Ascending(values) && |values| <= 99
    ensures AllEqual(values) <==> RoundedAverage(values) == 50 * values[0]
    ensures AllEqual(values) <==> RoundedAverage(values) == 50 * values[|values| - 1]
  {
    var n, avg, sum := |values|, RoundedAverage(values), Sum(values);
    var lo, hi := values[0], values[n - 1];
    AverageBounds(values);
    if !AllEqual(values) {
      RoundedAverageIsNearest(values);
      SumStrictBounds(values, lo, hi, n - 1);
      SumStrictBounds(values, lo, hi, 0);
      RoundingStaysInside(n, sum, lo, hi, avg);
    }
  }

  lemma RoundingStaysInside(n: int, sum: int, lo: int, hi: int, avg: int)
    requires 0 < n <= 99 && n * lo + 1 <= sum <= n * hi - 1
    requires 2 * n * avg <= 100 * sum + n < 2 * n * avg + 2 * n
    ensures 50 * lo < avg < 50 * hi
  {
    assert (2 * n) * (50 * lo + 1) == 100 * (n * lo) + 2 * n;
    ProductOrder(2 * n, 50 * lo + 1, avg);
    assert (2 * n) * (50 * hi - 1) == 100 * (n * hi) - 2 * n;
    ProductOrder(2 * n, avg, 50 * hi - 1);
  }

  function Repeat(v: int, n: nat): seq<int> { seq(n, i => v) }

  lemma {:induction false} SumOfRepeat(v: int, n: nat)
    ensures Sum(Repeat(v, n)) == v * n
  {
    if n > 0 {
      assert Repeat(v, n)[..n - 1] == Repeat(v, n - 1);
      SumOfRepeat(v, n - 1);
    }
  }

  /** From one hundred votes on the bound is lost: with one half point among points, the average rounds up to 1.00. */
  lemma ConsensusBoundIsSharp(n: nat)
    requires n >= 100
    ensures var values := [1] + Repeat(2, n - 1);
            && Ascending(values) && |values| == n && !AllEqual(values)
            && RoundedAverage(values) == 50 * values[n - 1]
  {
    var twos := Repeat(2, n - 1);
    SumOfRepeat(2, n - 1);
    SumConcat([1], twos);
    assert Sum([1]) == 1;
    assert ([1] + twos)[0] != ([1] + twos)[1];
    var values := [1] + twos;
    RoundedAverageIsNearest(values);
    MostlyTwosRoundUp(n, RoundedAverage(values));
  }

  lemma MostlyTwosRoundUp(n: int, avg: int)
    requires n >= 100 && 2 * n * avg <= 100 * (2 * n - 1) + n < 2 * n * avg + 2 * n
    ensures avg == 100
  {
    assert 100 * (2 * n - 1) + n == (2 * n) * 100 + (n - 100);
    ProductOrder(2 * n, 100, avg);
    ProductOrder(2 * n, avg, 100);
  }

  lemma {:induction false} SumConcat(a: seq<int>, b: seq<int>)
    ensures Sum(a + b) == Sum(a) + Sum(b)
  {
    if b == [] {
      assert a + b == a;
    } else {
      assert (a + b)[..|a + b| - 1] == a + b[..|b| - 1];
      SumConcat(a, b[..|b| - 1]);
    }
  }

  lemma {:induction false} DistinctWithinSet<T>(xs: seq<T>, s: set<T>)
    requires forall i, j :: 0 <= i < j < |xs| ==> xs[i] != xs[j]
    requires forall x :: x in xs ==> x in s
    ensures |xs| <= |s|
  {
    if xs == [] {
    } else {
      var last := xs[|xs| - 1];
      assert last in xs;
      forall x | x in xs[..|xs| - 1]
        ensures x in s - {last}
      {
        assert x in xs;
      }
      DistinctWithinSet(xs[..|xs| - 1], s - {last});
    }
  }

  lemma BallotFitsRoom(seats: Seats)
    requires Keyed(seats)
    ensures |Ballot(seats)| <= |seats|
    ensures |SortInts(Numbers(Ballot(seats)))| <= |seats|
  {
    BallotIsSorted(seats);
    var votes := Ballot(seats);
    LessIsStrictTotalOrder();
    var sids := seq(|votes|, i requires 0 <= i < |votes| => votes[i].sessionId);
    forall x | x in sids
      ensures x in seats.Keys
    {
      var i :| 0 <= i < |sids| && sids[i] == x;
      assert votes[i] in votes;
    }
    DistinctWithinSet(sids, seats.Keys);
    assert |seats.Keys| == |seats|;
    NumbersAreFewer(votes);
    assert |multiset(SortInts(Numbers(votes)))| == |multiset(Numbers(votes))|;
  }

  lemma {:induction false} NumbersAreFewer(votes: seq<VoteEntry>)
    ensures |Numbers(votes)| <= |votes|
  {
    if votes == [] {
    } else {
      NumbersAreFewer(votes[..|votes| - 1]);
    }
  }

  /** The average (in hundredths) lies between the ends (in half points), and there is consensus exactly when
      it meets the lower one, and exactly when it meets the upper one. */
  predicate AverageMeetsEnds(low: int, high: int, average: int, consensus: bool) {
    && 50 * low <= average <= 50 * high
    && (consensus <==> average == 50 * low)
    && (consensus <==> average == 50 * high)
  }

  lemma SummaryOfNumbers(votes: seq<VoteEntry>)
    ensures var r, nums := Summarize(votes), SortInts(Numbers(votes));
            r.average.Some? ==>
              && nums != [] && r.average.value == RoundedAverage(nums) && r.consensus == AllEqual(nums)
              && r.spread == Some((nums[0], nums[|nums| - 1]))
  {
  }

  /** In a room of at most fifty participants the reported consensus flag, average and spread agree. */
  lemma ReportedConsensus(seats: Seats)
    requires Keyed(seats) && |seats| <= MAX_PARTICIPANTS
    ensures var r := Summarize(Ballot(seats));
            r.average.Some? ==>
              r.spread.Some? && AverageMeetsEnds(r.spread.value.0, r.spread.value.1, r.average.value, r.consensus)
  {
    SummaryOfNumbers(Ballot(seats));
    SortedNumbersFitRoom(seats);
    SortedAverageMeetsEnds(SortInts(Numbers(Ballot(seats))));
  }

  lemma SortedNumbersFitRoom(seats: Seats)
    requires Keyed(seats) && |seats| <= MAX_PARTICIPANTS
    ensures Ascending(SortInts(Numbers(Ballot(seats)))) && |SortInts(Numbers(Ballot(seats)))| <= MAX_PARTICIPANTS
  {
    var numbers := Numbers(Ballot(seats));
    BallotFitsRoom(seats);
    SortIntsSorts(numbers);
  }

  lemma SortedAverageMeetsEnds(nums: seq<int>)
    requires Ascending(nums) && |nums| <= MAX_PARTICIPANTS
    ensures nums != [] ==> AverageMeetsEnds(nums[0], nums[|nums| - 1], RoundedAverage(nums), AllEqual(nums))
  {
    if nums != [] {
      AverageBounds(nums);
      ConsensusIffAverageAtEnd(nums);
    }
  }
}
