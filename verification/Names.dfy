/** Display-name sanitising (internal/domain/room.go). */
module Names {

  /** A code point, reduced to what the sanitiser looks at: combining marks (Mn, Me) form one class;
      every other code point may be white space (for TrimSpace) and may be on the strip list. */
  datatype Rune = Mark(c: char) | Plain(c: char, space: bool, stripped: bool)

  type Text = seq<Rune>

  const MAX_COMBINING_MARKS: nat := 3

  predicate IsSpace(r: Rune) { r.Plain? && r.space }

  /** U+0020 is kept before the strip list is consulted. */
  predicate IsDropped(r: Rune) { r.Plain? && r.c != ' ' && r.stripped }

  /** Plain text written in the source itself, such as the default room-name suffix. */
  function Literal(s: string): Text {
    seq(|s|, i requires 0 <= i < |s| => Plain(s[i], s[i] == ' ', false))
  }

  function TrimLeft(t: Text): Text {
    if t != [] && IsSpace(t[0]) then TrimLeft(t[1..]) else t
  }

  function TrimRight(t: Text): Text {
    if t != [] && IsSpace(t[|t| - 1]) then TrimRight(t[..|t| - 1]) else t
  }

  function Trim(t: Text): Text { TrimRight(TrimLeft(t)) }

  /** The sanitiser's loop, entered with `marks` combining marks already counted.  The counter
      restarts at every code point that is not a mark, also at one that is then dropped. */
  function Filter(t: Text, marks: nat): Text {
    if t == [] then []
    else
      var rest := Filter(t[1..], if t[0].Mark? then marks + 1 else 0);
      if IsDropped(t[0]) || (t[0].Mark? && marks + 1 > MAX_COMBINING_MARKS) then rest else [t[0]] + rest
  }

  function Sanitize(name: Text): Text { Trim(Filter(Trim(name), 0)) }

  /** Names are cut after sanitising, room names at another limit than display names. */
  function Truncate(t: Text, limit: nat): Text { if |t| > limit then t[..limit] else t }

  lemma FilterFrom(t: Text, i: nat, marks: nat)
    requires i < |t|
    ensures var counted := if t[i].Mark? then marks + 1 else 0;
            Filter(t[i..], marks)
            == (if IsDropped(t[i]) || counted > MAX_COMBINING_MARKS then [] else [t[i]]) + Filter(t[i + 1..], counted)
  {
    assert t[i..][1..] == t[i + 1..];
  }

  method SanitizeName(name: Text) returns (clean: Text)
    ensures clean == Sanitize(name)
  {
    var trimmed := Trim(name);
    var out: Text := [];
    var combiningCount: nat := 0;
    for i := 0 to |trimmed|
      invariant out + Filter(trimmed[i..], combiningCount) == Filter(trimmed, 0)
    {
      var r := trimmed[i];
      FilterFrom(trimmed, i, combiningCount);
      if r.Mark? {
        combiningCount := combiningCount + 1;
        if combiningCount > MAX_COMBINING_MARKS {
          continue;
        }
        out := out + [r];
        continue;
      }
      combiningCount := 0;
      if r.c == ' ' {
        out := out + [r];
        continue;
      }
      if r.stripped {
        continue;
      }
      out := out + [r];
    }
    assert out + [] == out;
    clean := Trim(out);
  }

  // ----- what a sanitised name looks like -----

  predicate Subsequence(a: Text, b: Text) {
    if a == [] then true
    else if b == [] then false
    else if a[0] == b[0] && Subsequence(a[1..], b[1..]) then true
    else Subsequence(a, b[1..])
  }

  predicate Trimmed(t: Text) {
    t != [] ==> !IsSpace(t[0]) && !IsSpace(t[|t| - 1])
  }

  predicate NoDropped(t: Text) { forall i :: 0 <= i < |t| ==> !IsDropped(t[i]) }

  /** No combining mark is preceded by more than two others in a row, counting `marks` before `t`. */
  predicate ShortRuns(t: Text, marks: nat) {
    t == [] ||
    if t[0].Mark? then marks + 1 <= MAX_COMBINING_MARKS && ShortRuns(t[1..], marks + 1)
    else ShortRuns(t[1..], 0)
  }

  lemma {:induction false} TrimLeftIsSuffix(t: Text) returns (k: nat)
    ensures k <= |t| && TrimLeft(t) == t[k..]
    ensures TrimLeft(t) != [] ==> !IsSpace(TrimLeft(t)[0])
  {
    k := 0;
    if t != [] && IsSpace(t[0]) {
      k := TrimLeftIsSuffix(t[1..]);
      assert t[1..][k..] == t[k + 1..];
      k := k + 1;
    }
  }

  lemma {:induction false} TrimRightIsPrefix(t: Text)
    ensures TrimRight(t) <= t
    ensures TrimRight(t) != [] ==> !IsSpace(TrimRight(t)[|TrimRight(t)| - 1])
  {
    if t != [] && IsSpace(t[|t| - 1]) {
      TrimRightIsPrefix(t[..|t| - 1]);
    }
  }

  lemma TrimIsWindow(t: Text) returns (i: nat, j: nat)
    ensures i <= j <= |t| && Trim(t) == t[i..j]
    ensures Trimmed(Trim(t))
  {
    i := TrimLeftIsSuffix(t);
    TrimRightIsPrefix(TrimLeft(t));
    j := i + |Trim(t)|;
    assert t[i..][..j - i] == t[i..j];
  }

  lemma TrimmedIsFixed(t: Text)
    requires Trimmed(t)
    ensures Trim(t) == t
  {
  }

  lemma {:induction false} FilterIsSubsequence(t: Text, marks: nat)
    ensures Subsequence(Filter(t, marks), t)
    ensures NoDropped(Filter(t, marks))
  {
    if t == [] {
    } else {
      var rest := if t[0].Mark? then marks + 1 else 0;
      FilterIsSubsequence(t[1..], rest);
      var f := Filter(t, marks);
      if f == Filter(t[1..], rest) {
      } else {
        assert f == [t[0]] + Filter(t[1..], rest);
        assert f[1..] == Filter(t[1..], rest);
      }
    }
  }

  lemma SliceOfTail(t: Text, i: nat, j: nat)
    requires 0 < i <= j <= |t|
    ensures t[i..j] == t[1..][i - 1..j - 1]
  {
    assert |t[i..j]| == |t[1..][i - 1..j - 1]|;
  }

  lemma TailOfSlice(t: Text, j: nat)
    requires 0 < j <= |t|
    ensures t[0..j][1..] == t[1..][0..j - 1]
  {
    assert |t[0..j][1..]| == |t[1..][0..j - 1]|;
  }

  lemma {:induction false} SubsequenceOfWindow(a: Text, t: Text, i: nat, j: nat)
    requires i <= j <= |t|
    requires Subsequence(a, t[i..j])
    ensures Subsequence(a, t)
    decreases |t|
  {
    if a == [] || t == [] {
    } else if i > 0 {
      SliceOfTail(t, i, j);
      SubsequenceOfWindow(a, t[1..], i - 1, j - 1);
    } else if i < j {
      TailOfSlice(t, j);
      if a[0] == t[0] && Subsequence(a[1..], t[i..j][1..]) {
        SubsequenceOfWindow(a[1..], t[1..], 0, j - 1);
      } else {
        SubsequenceOfWindow(a, t[1..], 0, j - 1);
      }
    }
  }

  lemma {:induction false} WindowOfSubsequence(a: Text, t: Text, i: nat, j: nat)
    requires i <= j <= |a|
    requires Subsequence(a, t)
    ensures Subsequence(a[i..j], t)
    decreases |t|
  {
    assert a != [] ==> t != [];
    if i == j {
      assert a[i..j] == [];
    } else if a[0] == t[0] && Subsequence(a[1..], t[1..]) {
      if i == 0 {
        TailOfSlice(a, j);
        WindowOfSubsequence(a[1..], t[1..], 0, j - 1);
      } else {
        SliceOfTail(a, i, j);
        WindowOfSubsequence(a[1..], t[1..], i - 1, j - 1);
      }
    } else {
      WindowOfSubsequence(a, t[1..], i, j);
    }
  }

  /** The output is a trimmed subsequence of the input that holds no stripped code point. */
  lemma SanitizeShape(name: Text)
    ensures Trimmed(Sanitize(name))
    ensures NoDropped(Sanitize(name))
    ensures Subsequence(Sanitize(name), name)
  {
    var i, j := TrimIsWindow(name);
    var f := Filter(Trim(name), 0);
    FilterIsSubsequence(Trim(name), 0);
    SubsequenceOfWindow(f, name, i, j);
    var k, l := TrimIsWindow(f);
    WindowOfSubsequence(f, name, k, l);
  }

  // ----- the first trim is redundant -----

  lemma {:induction false} FilterIgnoresLeftTrim(t: Text)
    ensures TrimLeft(Filter(TrimLeft(t), 0)) == TrimLeft(Filter(t, 0))
  {
    if t != [] && IsSpace(t[0]) {
      FilterIgnoresLeftTrim(t[1..]);
      var f := Filter(t, 0);
      if !IsDropped(t[0]) {
        assert f[1..] == Filter(t[1..], 0);
      }
    }
  }

  lemma {:induction false} FilterOfAppendedSpace(t: Text, r: Rune, marks: nat)
    requires IsSpace(r)
    ensures Filter(t + [r], marks) == Filter(t, marks) + (if IsDropped(r) then [] else [r])
  {
    if t == [] {
      assert (t + [r])[1..] == [];
    } else {
      assert (t + [r])[1..] == t[1..] + [r];
      FilterOfAppendedSpace(t[1..], r, if t[0].Mark? then marks + 1 else 0);
    }
  }

  lemma {:induction false} TrimLeftOfAppendedSpace(t: Text, r: Rune)
    requires IsSpace(r)
    ensures TrimLeft(t + [r]) == if TrimLeft(t) == [] then [] else TrimLeft(t) + [r]
  {
    if t == [] {
      assert (t + [r])[1..] == [];
    } else if IsSpace(t[0]) {
      assert (t + [r])[1..] == t[1..] + [r];
      TrimLeftOfAppendedSpace(t[1..], r);
    }
  }

  lemma TrimOfAppendedSpace(t: Text, r: Rune)
    requires IsSpace(r)
    ensures Trim(t + [r]) == Trim(t)
  {
    TrimLeftOfAppendedSpace(t, r);
    if TrimLeft(t) != [] {
      assert (TrimLeft(t) + [r])[..|TrimLeft(t)|] == TrimLeft(t);
    }
  }

  lemma {:induction false} FilterIgnoresRightTrim(t: Text)
    ensures Trim(Filter(TrimRight(t), 0)) == Trim(Filter(t, 0))
  {
    if t != [] && IsSpace(t[|t| - 1]) {
      var init, r := t[..|t| - 1], t[|t| - 1];
      assert t == init + [r];
      FilterIgnoresRightTrim(init);
      FilterOfAppendedSpace(init, r, 0);
      TrimOfAppendedSpace(Filter(init, 0), r);
      assert Filter(init, 0) + [] == Filter(init, 0);
    }
  }

  /** Trimming before the loop changes nothing: the final trim removes the same spaces. */
  lemma FirstTrimIsRedundant(name: Text)
    ensures Sanitize(name) == Trim(Filter(name, 0))
  {
    FilterIgnoresRightTrim(TrimLeft(name));
    FilterIgnoresLeftTrim(name);
  }

  // ----- how many passes reach a fixed point -----

  /** The loop as it would be if dropped code points did not restart the mark counter. */
  function Repaired(t: Text, marks: nat): Text {
    if t == [] then []
    else if t[0].Mark? then
      if marks + 1 > MAX_COMBINING_MARKS then Repaired(t[1..], marks + 1)
      else [t[0]] + Repaired(t[1..], marks + 1)
    else if IsDropped(t[0]) then Repaired(t[1..], marks)
    else [t[0]] + Repaired(t[1..], 0)
  }

  function Cap(n: nat): nat { if n <= MAX_COMBINING_MARKS then n else MAX_COMBINING_MARKS }

  lemma {:induction false} SecondPassRepairs(t: Text, first: nat, second: nat, repaired: nat)
    requires first <= repaired && Cap(second) == Cap(repaired)
    ensures Filter(Filter(t, first), second) == Repaired(t, repaired)
  {
    if t == [] {
    } else {
      var r, tail := t[0], t[1..];
      if r.Mark? {
        var f := Filter(tail, first + 1);
        if first + 1 <= MAX_COMBINING_MARKS {
          assert Filter(t, first)[1..] == f;
          SecondPassRepairs(tail, first + 1, second + 1, repaired + 1);
        } else {
          SecondPassRepairs(tail, first + 1, second, repaired + 1);
        }
      } else if IsDropped(r) {
        SecondPassRepairs(tail, 0, second, repaired);
      } else {
        assert Filter(t, first)[1..] == Filter(tail, 0);
        SecondPassRepairs(tail, 0, 0, 0);
      }
    }
  }

  lemma {:induction false} RepairedHasShortRuns(t: Text, marks: nat)
    ensures ShortRuns(Repaired(t, marks), Cap(marks))
    ensures NoDropped(Repaired(t, marks))
  {
    if t == [] {
    } else {
      var r, tail := t[0], t[1..];
      if r.Mark? {
        RepairedHasShortRuns(tail, marks + 1);
        if marks + 1 <= MAX_COMBINING_MARKS {
          assert Repaired(t, marks)[1..] == Repaired(tail, marks + 1);
        }
      } else if IsDropped(r) {
        RepairedHasShortRuns(tail, marks);
      } else {
        RepairedHasShortRuns(tail, 0);
        assert Repaired(t, marks)[1..] == Repaired(tail, 0);
      }
    }
  }

  lemma {:induction false} ShortRunsPassUnchanged(t: Text, marks: nat)
    requires NoDropped(t) && ShortRuns(t, marks)
    ensures Filter(t, marks) == t
  {
    if t == [] {
    } else {
      ShortRunsPassUnchanged(t[1..], if t[0].Mark? then marks + 1 else 0);
    }
  }

  lemma {:induction false} FewerMarksBefore(t: Text, more: nat, fewer: nat)
    requires fewer <= more && ShortRuns(t, more)
    ensures ShortRuns(t, fewer)
  {
    if t != [] && t[0].Mark? {
      FewerMarksBefore(t[1..], more + 1, fewer + 1);
    }
  }

  lemma {:induction false} SuffixHasShortRuns(t: Text, marks: nat, i: nat)
    requires i <= |t| && ShortRuns(t, marks)
    ensures ShortRuns(t[i..], 0)
  {
    if i == 0 {
      assert t[i..] == t;
      FewerMarksBefore(t, marks, 0);
    } else {
      assert t[i..] == t[1..][i - 1..];
      SuffixHasShortRuns(t[1..], if t[0].Mark? then marks + 1 else 0, i - 1);
    }
  }

  lemma {:induction false} PrefixHasShortRuns(t: Text, marks: nat, j: nat)
    requires j <= |t| && ShortRuns(t, marks)
    ensures ShortRuns(t[..j], marks)
  {
    if j > 0 {
      assert t[..j][1..] == t[1..][..j - 1];
      PrefixHasShortRuns(t[1..], if t[0].Mark? then marks + 1 else 0, j - 1);
    }
  }

  lemma TrimKeepsShortRuns(t: Text)
    requires ShortRuns(t, 0)
    ensures ShortRuns(Trim(t), 0)
  {
    var i, j := TrimIsWindow(t);
    PrefixHasShortRuns(t, 0, j);
    SuffixHasShortRuns(t[..j], 0, i);
    assert t[..j][i..] == t[i..j];
  }

  /** A second pass has exactly the effect of repairing the mark counter in a single pass. */
  lemma TwoPassesRepair(name: Text)
    ensures Sanitize(Sanitize(name)) == Trim(Repaired(Trim(name), 0))
  {
    var f := Filter(Trim(name), 0);
    FirstTrimIsRedundant(Trim(f));
    FirstTrimIsRedundant(f);
    SecondPassRepairs(Trim(name), 0, 0, 0);
  }

  /** One pass is already a fixed point exactly when it left no run of more than three marks. */
  lemma FixedAfterOnePass(name: Text)
    ensures Sanitize(Sanitize(name)) == Sanitize(name) <==> ShortRuns(Sanitize(name), 0)
  {
    SanitizeShape(name);
    var s := Sanitize(name);
    if ShortRuns(s, 0) {
      TrimmedIsFixed(s);
      ShortRunsPassUnchanged(s, 0);
    }
    TwoPassesRepair(name);
    RepairedHasShortRuns(Trim(name), 0);
    TrimKeepsShortRuns(Repaired(Trim(name), 0));
  }

  /** Two passes always reach a fixed point. */
  lemma FixedAfterTwoPasses(name: Text)
    ensures Sanitize(Sanitize(Sanitize(name))) == Sanitize(Sanitize(name))
    ensures ShortRuns(Sanitize(Sanitize(name)), 0)
  {
    TwoPassesRepair(name);
    RepairedHasShortRuns(Trim(name), 0);
    TrimKeepsShortRuns(Repaired(Trim(name), 0));
    FixedAfterOnePass(Sanitize(name));
  }

  /** Some mark is counted afresh (fewer than three since the last restart) although three or more
      kept marks already stand before it, separated from it only by dropped code points. */
  predicate RestartLetsMarkThrough(t: Text, marks: nat, unrestarted: nat) {
    if t == [] then false
    else if t[0].Mark? then
      (marks < MAX_COMBINING_MARKS <= unrestarted) || RestartLetsMarkThrough(t[1..], marks + 1, unrestarted + 1)
    else if IsDropped(t[0]) then RestartLetsMarkThrough(t[1..], 0, unrestarted)
    else RestartLetsMarkThrough(t[1..], 0, 0)
  }

  function CountMarks(t: Text): nat {
    if t == [] then 0 else (if t[0].Mark? then 1 else 0) + CountMarks(t[1..])
  }

  lemma {:induction false} CountMarksAppend(t: Text, r: Rune)
    ensures CountMarks(t + [r]) == CountMarks(t) + if r.Mark? then 1 else 0
  {
    if t == [] {
      assert (t + [r])[1..] == [];
    } else {
      assert (t + [r])[1..] == t[1..] + [r];
      CountMarksAppend(t[1..], r);
    }
  }

  lemma {:induction false} TrimLeftKeepsMarks(t: Text)
    ensures CountMarks(TrimLeft(t)) == CountMarks(t)
  {
    if t != [] && IsSpace(t[0]) {
      TrimLeftKeepsMarks(t[1..]);
    }
  }

  lemma {:induction false} TrimRightKeepsMarks(t: Text)
    ensures CountMarks(TrimRight(t)) == CountMarks(t)
  {
    if t != [] && IsSpace(t[|t| - 1]) {
      TrimRightKeepsMarks(t[..|t| - 1]);
      CountMarksAppend(t[..|t| - 1], t[|t| - 1]);
      assert t == t[..|t| - 1] + [t[|t| - 1]];
    }
  }

  lemma {:induction false} RestartAddsMarks(t: Text, marks: nat, unrestarted: nat)
    requires marks <= unrestarted
    ensures CountMarks(Filter(t, marks)) >= CountMarks(Repaired(t, unrestarted))
    ensures RestartLetsMarkThrough(t, marks, unrestarted)
            <==> CountMarks(Filter(t, marks)) > CountMarks(Repaired(t, unrestarted))
    ensures !RestartLetsMarkThrough(t, marks, unrestarted) ==> Filter(t, marks) == Repaired(t, unrestarted)
  {
    if t == [] {
    } else {
      var r, tail := t[0], t[1..];
      if r.Mark? {
        RestartAddsMarks(tail, marks + 1, unrestarted + 1);
        assert ([r] + Filter(tail, marks + 1))[1..] == Filter(tail, marks + 1);
        assert ([r] + Repaired(tail, unrestarted + 1))[1..] == Repaired(tail, unrestarted + 1);
      } else if IsDropped(r) {
        RestartAddsMarks(tail, 0, unrestarted);
      } else {
        RestartAddsMarks(tail, 0, 0);
        assert ([r] + Filter(tail, 0))[1..] == Filter(tail, 0);
        assert ([r] + Repaired(tail, 0))[1..] == Repaired(tail, 0);
      }
    }
  }

  /** The inputs one pass settles, said of the input alone: no restart of the counter at a dropped
      code point lets a fourth mark through. */
  lemma OnePassSuffices(name: Text)
    ensures Sanitize(Sanitize(name)) == Sanitize(name) <==> !RestartLetsMarkThrough(Trim(name), 0, 0)
  {
    var t := Trim(name);
    TwoPassesRepair(name);
    RestartAddsMarks(t, 0, 0);
    TrimLeftKeepsMarks(Filter(t, 0));
    TrimRightKeepsMarks(TrimLeft(Filter(t, 0)));
    TrimLeftKeepsMarks(Repaired(t, 0));
    TrimRightKeepsMarks(TrimLeft(Repaired(t, 0)));
  }

  lemma {:induction false} NothingDroppedNoRestart(t: Text, marks: nat)
    requires NoDropped(t)
    ensures !RestartLetsMarkThrough(t, marks, marks)
  {
    if t == [] {
    } else {
      NothingDroppedNoRestart(t[1..], if t[0].Mark? then marks + 1 else 0);
    }
  }

  /** Input without stripped code points is sanitised for good by one pass. */
  lemma CleanInputNeedsOnePass(name: Text)
    requires NoDropped(name)
    ensures Sanitize(Sanitize(name)) == Sanitize(name)
    ensures ShortRuns(Sanitize(name), 0)
  {
    var _, _ := TrimIsWindow(name);
    NothingDroppedNoRestart(Trim(name), 0);
    OnePassSuffices(name);
    FixedAfterOnePass(name);
  }

  /** A dropped code point between marks lets a run of four through the first pass. */
  lemma OnePassIsNotAlwaysFixed()
    ensures exists name :: Sanitize(Sanitize(name)) != Sanitize(name)
  {
    var m, z := Mark('m'), Plain('z', false, true);
    var name := [m, m, m, z, m];
    TrimmedIsFixed(name);
    assert name[1..] == [m, m, z, m] && name[1..][1..] == [m, z, m]
        && name[1..][1..][1..] == [z, m] && name[1..][1..][1..][1..] == [m];
    assert RestartLetsMarkThrough([m], 0, 3);
    assert RestartLetsMarkThrough([z, m], 3, 3);
    assert RestartLetsMarkThrough([m, z, m], 2, 2);
    OnePassSuffices(name);
  }

  // ----- names that are cut -----

  lemma {:induction false} SubsequenceIsShorter(a: Text, b: Text)
    requires Subsequence(a, b)
    ensures |a| <= |b|
  {
    if a == [] {
    } else if a[0] == b[0] && Subsequence(a[1..], b[1..]) {
      SubsequenceIsShorter(a[1..], b[1..]);
    } else {
      SubsequenceIsShorter(a, b[1..]);
    }
  }

  lemma {:induction false} NoMarksIsShort(t: Text, marks: nat)
    requires forall i :: 0 <= i < |t| ==> !t[i].Mark?
    ensures ShortRuns(t, marks)
  {
    if t == [] {
    } else {
      NoMarksIsShort(t[1..], 0);
    }
  }

  /** A sanitised name that was cut: it may end with white space only where the cut fell. */
  lemma CutNameShape(name: Text, limit: nat)
    ensures var n := Truncate(Sanitize(name), limit);
            && |n| <= limit && NoDropped(n) && Subsequence(n, name) && (n != [] ==> !IsSpace(n[0]))
            && (n != [] && IsSpace(n[|n| - 1]) ==> |n| == limit < |Sanitize(name)|)
  {
    var s := Sanitize(name);
    SanitizeShape(name);
    if |s| > limit {
      assert s[..limit] == s[0..limit];
      WindowOfSubsequence(s, name, 0, limit);
    }
  }

  /** Sanitising and cutting a second time changes nothing exactly when the cut left no white space at the end and
      the first pass left no long run of marks. */
  lemma CutAgainIff(name: Text, limit: nat)
    ensures var n := Truncate(Sanitize(name), limit);
            Truncate(Sanitize(n), limit) == n <==> (n != [] ==> !IsSpace(n[|n| - 1])) && ShortRuns(n, 0)
  {
    var n := Truncate(Sanitize(name), limit);
    CutNameShape(name, limit);
    SanitizeShape(n);
    SubsequenceIsShorter(Sanitize(n), n);
    if (n != [] ==> !IsSpace(n[|n| - 1])) && ShortRuns(n, 0) {
      TrimmedIsFixed(n);
      ShortRunsPassUnchanged(n, 0);
    }
    if Truncate(Sanitize(n), limit) == n {
      FixedAfterOnePass(n);
    }
  }
}
