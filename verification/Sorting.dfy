/** Sorting by a key, standing for Go's sort package, and the facts that make sorted output unique. */
module Sorting {

  /** Go's string order: by code point, a proper prefix first. */
  predicate Less(a: string, b: string) {
    if b == [] then false
    else if a == [] then true
    else a[0] < b[0] || (a[0] == b[0] && Less(a[1..], b[1..]))
  }

  lemma {:induction false} LessTransitive(a: string, b: string, c: string)
    requires Less(a, b) && Less(b, c)
    ensures Less(a, c)
  {
    if a != [] && a[0] == b[0] == c[0] {
      LessTransitive(a[1..], b[1..], c[1..]);
    }
  }

  lemma {:induction false} LessTotal(a: string, b: string)
    ensures (a == b) == (!Less(a, b) && !Less(b, a))
    ensures !(Less(a, b) && Less(b, a))
  {
    if a != [] && b != [] {
      LessTotal(a[1..], b[1..]);
      assert a == [a[0]] + a[1..] && b == [b[0]] + b[1..];
    }
  }

  ghost predicate StrictTotalOrder<K(!new)>(less: (K, K) -> bool) {
    && (forall a :: !less(a, a))
    && (forall a, b :: a != b ==> less(a, b) || less(b, a))
    && (forall a, b, c :: less(a, b) && less(b, c) ==> less(a, c))
  }

  lemma LessIsStrictTotalOrder()
    ensures StrictTotalOrder(Less)
  {
    forall a, b
      ensures !Less(a, a) && (a != b ==> Less(a, b) || Less(b, a))
    {
      LessTotal(a, a);
      LessTotal(a, b);
    }
    forall a, b, c | Less(a, b) && Less(b, c)
      ensures Less(a, c)
    {
      LessTransitive(a, b, c);
    }
  }

  ghost predicate SortedBy<T, K>(xs: seq<T>, key: T -> K, less: (K, K) -> bool) {
    forall i, j :: 0 <= i < j < |xs| ==> less(key(xs[i]), key(xs[j]))
  }

  function InsertBy<T, K>(xs: seq<T>, x: T, key: T -> K, less: (K, K) -> bool): (ys: seq<T>)
    ensures multiset(ys) == multiset(xs) + multiset{x}
  {
    if xs == [] || less(key(x), key(xs[0])) then [x] + xs
    else
      assert xs == [xs[0]] + xs[1..];
      [xs[0]] + InsertBy(xs[1..], x, key, less)
  }

  function SortBy<T, K>(xs: seq<T>, key: T -> K, less: (K, K) -> bool): (ys: seq<T>)
    ensures multiset(ys) == multiset(xs)
  {
    if xs == [] then []
    else
      assert xs == [xs[0]] + xs[1..];
      InsertBy(SortBy(xs[1..], key, less), xs[0], key, less)
  }

  lemma InMultiset<T>(xs: seq<T>, x: T)
    ensures x in multiset(xs) <==> x in xs
  {
  }

  lemma {:induction false} InsertBySorts<T, K(!new)>(xs: seq<T>, x: T, key: T -> K, less: (K, K) -> bool)
    requires StrictTotalOrder(less) && SortedBy(xs, key, less)
    requires forall y :: y in xs ==> key(y) != key(x)
    ensures SortedBy(InsertBy(xs, x, key, less), key, less)
  {
    if xs == [] {
    } else if less(key(x), key(xs[0])) {
    } else {
      var rest := InsertBy(xs[1..], x, key, less);
      InsertBySorts(xs[1..], x, key, less);
      forall y | y in rest
        ensures less(key(xs[0]), key(y))
      {
        InMultiset(rest, y);
        InMultiset(xs[1..], y);
      }
    }
  }

  /** Sorting a list with pairwise different keys. */
  lemma {:induction false} SortBySorts<T, K(!new)>(xs: seq<T>, key: T -> K, less: (K, K) -> bool)
    requires StrictTotalOrder(less)
    requires forall i, j :: 0 <= i < j < |xs| ==> key(xs[i]) != key(xs[j])
    ensures SortedBy(SortBy(xs, key, less), key, less)
    ensures forall x :: x in SortBy(xs, key, less) <==> x in xs
  {
    var sorted := SortBy(xs, key, less);
    forall x
      ensures x in sorted <==> x in xs
    {
      InMultiset(sorted, x);
      InMultiset(xs, x);
    }
    if xs == [] {
    } else {
      var rest := SortBy(xs[1..], key, less);
      SortBySorts(xs[1..], key, less);
      forall y | y in rest
        ensures key(y) != key(xs[0])
      {
        InMultiset(rest, y);
        InMultiset(xs[1..], y);
      }
      InsertBySorts(rest, xs[0], key, less);
    }
  }

  lemma HeadIsIn<T>(xs: seq<T>)
    ensures xs != [] ==> xs[0] in xs
  {
  }

  /** A collection has at most one strictly sorted listing. */
  lemma {:induction false} SortedIsUnique<T, K(!new)>(xs: seq<T>, ys: seq<T>, key: T -> K, less: (K, K) -> bool)
    requires StrictTotalOrder(less)
    requires SortedBy(xs, key, less) && SortedBy(ys, key, less)
    requires forall x :: x in xs <==> x in ys
    ensures xs == ys
  {
    HeadIsIn(xs);
    HeadIsIn(ys);
    if xs != [] && ys != [] {
      var j :| 0 <= j < |ys| && ys[j] == xs[0];
      var i :| 0 <= i < |xs| && xs[i] == ys[0];
      assert i == 0 && j == 0;
      forall x
        ensures x in xs[1..] <==> x in ys[1..]
      {
        if x in xs[1..] { assert x in xs && x != xs[0]; }
        if x in ys[1..] { assert x in ys && x != ys[0]; }
      }
      SortedIsUnique(xs[1..], ys[1..], key, less);
    }
  }

  /** The members of a set in some order: the order in which a Go map happens to be walked. */
  ghost function Listing<T>(s: set<T>): seq<T> {
    if s == {} then []
    else
      var x :| x in s;
      [x] + Listing(s - {x})
  }

  lemma {:induction false} ListingIsComplete<T>(s: set<T>)
    ensures forall x :: x in Listing(s) <==> x in s
    ensures forall i, j :: 0 <= i < j < |Listing(s)| ==> Listing(s)[i] != Listing(s)[j]
    ensures |Listing(s)| == |s|
  {
    if s != {} {
      var x := Listing(s)[0];
      assert Listing(s) == [x] + Listing(s - {x});
      ListingIsComplete(s - {x});
    }
  }

  // ----- sorting numbers, with repetitions -----

  predicate Ascending(xs: seq<int>) {
    forall i, j :: 0 <= i < j < |xs| ==> xs[i] <= xs[j]
  }

  function InsertInt(xs: seq<int>, x: int): (ys: seq<int>)
    ensures multiset(ys) == multiset(xs) + multiset{x}
  {
    if xs == [] || x <= xs[0] then [x] + xs
    else
      assert xs == [xs[0]] + xs[1..];
      [xs[0]] + InsertInt(xs[1..], x)
  }

  function SortInts(xs: seq<int>): (ys: seq<int>)
    ensures multiset(ys) == multiset(xs)
  {
    if xs == [] then []
    else
      assert xs == [xs[0]] + xs[1..];
      InsertInt(SortInts(xs[1..]), xs[0])
  }

  lemma {:induction false} InsertIntSorts(xs: seq<int>, x: int)
    requires Ascending(xs)
    ensures Ascending(InsertInt(xs, x))
    ensures InsertInt(xs, x) != [] && InsertInt(xs, x)[0] == if xs == [] || x <= xs[0] then x else xs[0]
  {
    if xs != [] && x > xs[0] {
      InsertIntSorts(xs[1..], x);
    }
  }

  lemma {:induction false} SortIntsSorts(xs: seq<int>)
    ensures Ascending(SortInts(xs))
  {
    if xs == [] {
    } else {
      SortIntsSorts(xs[1..]);
      InsertIntSorts(SortInts(xs[1..]), xs[0]);
    }
  }

  lemma HeadIsLeast(xs: seq<int>, v: int)
    requires Ascending(xs) && v in multiset(xs)
    ensures xs != [] && xs[0] <= v
  {
    InMultiset(xs, v);
  }

  lemma TailMultiset(xs: seq<int>)
    requires xs != []
    ensures multiset(xs[1..]) == multiset(xs) - multiset{xs[0]}
  {
    assert xs == [xs[0]] + xs[1..];
  }

  lemma SameHead(xs: seq<int>, ys: seq<int>)
    requires Ascending(xs) && Ascending(ys) && xs != []
    requires multiset(xs) == multiset(ys)
    ensures ys != [] && xs[0] == ys[0]
  {
    assert |multiset(ys)| == |multiset(xs)|;
    assert xs[0] in multiset(xs) && ys[0] in multiset(ys);
    HeadIsLeast(xs, ys[0]);
    HeadIsLeast(ys, xs[0]);
  }

  lemma {:induction false} AscendingIsUnique(xs: seq<int>, ys: seq<int>)
    requires Ascending(xs) && Ascending(ys)
    requires multiset(xs) == multiset(ys)
    ensures xs == ys
  {
    if xs == [] {
      assert |multiset(ys)| == |multiset(xs)|;
    } else {
      SameHead(xs, ys);
      TailMultiset(xs);
      TailMultiset(ys);
      AscendingIsUnique(xs[1..], ys[1..]);
      assert xs == [xs[0]] + xs[1..] && ys == [ys[0]] + ys[1..];
    }
  }
}
