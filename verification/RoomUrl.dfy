/** Room ids in web addresses (web/src/utils/room-url.ts), the room name shown for an id (web/src/ws.ts) and
    the ids the server accepts (internal/server/ws.go). */
module RoomUrl {
  import opened Common

  /** White space of JavaScript's \s and trim. */
  predicate IsSpace(c: char) {
    || '\t' <= c <= '\r' || c == ' ' || c == '\U{00A0}' || c == '\U{1680}' || '\U{2000}' <= c <= '\U{200A}'
    || c == '\U{2028}' || c == '\U{2029}' || c == '\U{202F}' || c == '\U{205F}' || c == '\U{3000}' || c == '\U{FEFF}'
  }

  predicate IsHex(c: char) { 'a' <= c <= 'f' || '0' <= c <= '9' }

  predicate IsIdChar(c: char) { 'a' <= c <= 'z' || '0' <= c <= '9' || c == '-' }

  const SLUG_LENGTH: nat := 48

  function TrimLeft(s: string): string { if s != [] && IsSpace(s[0]) then TrimLeft(s[1..]) else s }

  function TrimRight(s: string): string {
    if s != [] && IsSpace(s[|s| - 1]) then TrimRight(s[..|s| - 1]) else s
  }

  function Trim(s: string): string { TrimRight(TrimLeft(s)) }

  /** Every run of white space becomes one dash; `inRun` says that a run has just been replaced. */
  function DashSpaces(s: string, inRun: bool): string {
    if s == [] then []
    else if !IsSpace(s[0]) then [s[0]] + DashSpaces(s[1..], false)
    else if inRun then DashSpaces(s[1..], true)
    else ['-'] + DashSpaces(s[1..], true)
  }

  function KeepIdChars(s: string): string {
    if s == [] then [] else if IsIdChar(s[0]) then [s[0]] + KeepIdChars(s[1..]) else KeepIdChars(s[1..])
  }

  /** Every run of dashes becomes one dash. */
  function CollapseDashes(s: string, inRun: bool): string {
    if s == [] then []
    else if s[0] != '-' then [s[0]] + CollapseDashes(s[1..], false)
    else if inRun then CollapseDashes(s[1..], true)
    else ['-'] + CollapseDashes(s[1..], true)
  }

  function StripEndDashes(s: string): string {
    var t := if s != [] && s[0] == '-' then s[1..] else s;
    DropLastDash(t)
  }

  function DropLastDash(s: string): string { if s != [] && s[|s| - 1] == '-' then s[..|s| - 1] else s }

  /** The slug of a name that is already in lower case. */
  function Slugify(name: string): string {
    var s := StripEndDashes(CollapseDashes(KeepIdChars(DashSpaces(Trim(name), false)), false));
    if |s| <= SLUG_LENGTH then s else s[..SLUG_LENGTH]
  }

  function RoomIdFor(name: string, hex: string): string {
    var slug := Slugify(name);
    if slug != [] then slug + "-" + hex else hex
  }

  function GenerateRoomUrl(name: string, hex: string): string { "/room/" + RoomIdFor(name, hex) }

  predicate AllIdChars(s: string) { forall i :: 0 <= i < |s| ==> IsIdChar(s[i]) }

  function ParseRoomId(path: string): Option<string> {
    if |path| > 6 && path[..6] == "/room/" && AllIdChars(path[6..]) then Some(path[6..]) else None
  }

  /** The room ids the server accepts. */
  predicate ValidRoomId(s: string) { 1 <= |s| <= 64 && AllIdChars(s) }

  // ----- the room name shown for an id -----

  predicate IsLineEnd(c: char) { c == '\n' || c == '\r' || c == '\U{2028}' || c == '\U{2029}' }

  /** The id splits at i into a name of at least one character, a dash, and eight or more hex digits. */
  predicate SplitsAt(id: string, i: nat) {
    && 1 <= i < |id| && |id| - i - 1 >= 8 && id[i] == '-'
    && (forall k :: 0 <= k < i ==> !IsLineEnd(id[k]))
    && (forall k :: i < k < |id| ==> IsHex(id[k]))
  }

  /** The shortest name that the id splits after, searched from `from` on; |id| when there is none. */
  function FirstSplit(id: string, from: nat): (i: nat)
    requires from <= |id|
    ensures from <= i <= |id| && (i == |id| || SplitsAt(id, i))
    ensures forall k :: from <= k < i ==> !SplitsAt(id, k)
    decreases |id| - from
  {
    if from == |id| || SplitsAt(id, from) then from else FirstSplit(id, from + 1)
  }

  function Spaced(s: string): string {
    if s == [] then [] else [if s[0] == '-' then ' ' else s[0]] + Spaced(s[1..])
  }

  function GenerateRoomName(id: string): string { Spaced(id[..FirstSplit(id, 0)]) }

  // ----- the shape of a slug -----

  predicate NoDoubleDash(s: string) { forall i :: 0 <= i < |s| - 1 ==> s[i] != '-' || s[i + 1] != '-' }

  predicate StartsWithDash(s: string) { s != [] && s[0] == '-' }

  /** Lower-case letters, digits and single dashes, not starting with one, at most 48 characters. */
  predicate IsSlug(s: string) { AllIdChars(s) && NoDoubleDash(s) && !StartsWithDash(s) && |s| <= SLUG_LENGTH }

  lemma {:induction false} KeptAreIdChars(s: string)
    ensures AllIdChars(KeepIdChars(s))
  {
    if s == [] {
    } else {
      KeptAreIdChars(s[1..]);
    }
  }

  lemma {:induction false} CollapsedHasSingleDashes(s: string, inRun: bool)
    requires AllIdChars(s)
    ensures var c := CollapseDashes(s, inRun);
            AllIdChars(c) && NoDoubleDash(c) && (inRun ==> !StartsWithDash(c))
  {
    if s == [] {
    } else {
      CollapsedHasSingleDashes(s[1..], s[0] == '-');
    }
  }

  lemma StrippedHasNoEndDashes(c: string)
    requires AllIdChars(c) && NoDoubleDash(c)
    ensures var s := StripEndDashes(c);
            && AllIdChars(s) && NoDoubleDash(s) && !StartsWithDash(s)
            && (s != [] ==> s[|s| - 1] != '-')
  {
    var t := if c != [] && c[0] == '-' then c[1..] else c;
    assert AllIdChars(t) && NoDoubleDash(t);
    if |c| > 1 && c[0] == '-' {
      assert c[1] != '-' && t[0] == c[1];
    }
    if |t| > 1 && t[|t| - 1] == '-' {
      assert t[|t| - 2] != '-';
    }
  }

  lemma CutHasShape(s: string)
    requires AllIdChars(s) && NoDoubleDash(s) && !StartsWithDash(s) && (s != [] ==> s[|s| - 1] != '-')
    ensures var slug := if |s| > SLUG_LENGTH then s[..SLUG_LENGTH] else s;
            && IsSlug(slug) && (slug != [] && slug[|slug| - 1] == '-' ==> |slug| == SLUG_LENGTH)
  {
  }

  /** A slug has the shape of one, and only one that was cut at 48 characters can end in a dash. */
  lemma SlugHasShape(name: string)
    ensures IsSlug(Slugify(name))
    ensures var slug := Slugify(name);
            slug != [] && slug[|slug| - 1] == '-' ==> |slug| == SLUG_LENGTH
  {
    var kept := KeepIdChars(DashSpaces(Trim(name), false));
    KeptAreIdChars(DashSpaces(Trim(name), false));
    CollapsedHasSingleDashes(kept, false);
    StrippedHasNoEndDashes(CollapseDashes(kept, false));
    CutHasShape(StripEndDashes(CollapseDashes(kept, false)));
  }

  // ----- ids and addresses -----

  predicate AllHexDigits(s: string) { forall i :: 0 <= i < |s| ==> s[i] in "0123456789abcdef" }

  predicate IsHexSuffix(hex: string) { |hex| == 12 && AllHexDigits(hex) }

  lemma HexDigitsAreHex(c: char)
    ensures IsHex(c) <==> c in "0123456789abcdef"
  {
  }

  lemma SuffixIsHex(hex: string)
    requires IsHexSuffix(hex)
    ensures |hex| == 12 && AllIdChars(hex) && forall i :: 0 <= i < |hex| ==> IsHex(hex[i])
  {
    forall i | 0 <= i < |hex|
      ensures IsHex(hex[i])
    {
      HexDigitsAreHex(hex[i]);
    }
  }

  lemma IdIsValid(slug: string, hex: string)
    requires IsSlug(slug) && |hex| == 12 && AllIdChars(hex)
    ensures var id := if slug != [] then slug + "-" + hex else hex;
            |id| <= 61 && ValidRoomId(id)
  {
  }

  /** Every generated id is one the server accepts, of at most 61 characters, and is read back from its
      address. */
  lemma RoomUrlRoundTrip(name: string, hex: string)
    requires IsHexSuffix(hex)
    ensures var id := RoomIdFor(name, hex);
            |id| <= 61 && ValidRoomId(id) && ParseRoomId(GenerateRoomUrl(name, hex)) == Some(id)
  {
    SlugHasShape(name);
    SuffixIsHex(hex);
    IdIsValid(Slugify(name), hex);
    var path := GenerateRoomUrl(name, hex);
    assert path[..6] == "/room/" && path[6..] == RoomIdFor(name, hex);
  }

  /** The name shown for an id is its slug with spaces for dashes: the hex digits have no dash, so the id
      splits nowhere else, whatever the slug looks like. */
  lemma RoomNameIsSpacedSlug(slug: string, hex: string)
    requires IsSlug(slug) && slug != [] && IsHexSuffix(hex)
    ensures GenerateRoomName(slug + "-" + hex) == Spaced(slug)
  {
    var id := slug + "-" + hex;
    SuffixIsHex(hex);
    assert id[|slug|] == '-' && !IsHex('-');
    forall k | 0 <= k < |slug|
      ensures IsIdChar(id[k]) && !SplitsAt(id, k)
    {
    }
    assert SplitsAt(id, |slug|) && FirstSplit(id, 0) == |slug|;
    assert id[..|slug|] == slug;
  }

  // ----- a slug is found again from the name shown for it -----

  lemma {:induction false} SpacedIsLong(s: string)
    ensures |Spaced(s)| == |s|
    ensures forall i :: 0 <= i < |s| ==> Spaced(s)[i] == if s[i] == '-' then ' ' else s[i]
  {
    if s == [] {
    } else {
      SpacedIsLong(s[1..]);
    }
  }

  /** Trimming takes away the space a trailing dash became. */
  lemma TrimDropsLastDash(s: string)
    requires IsSlug(s) && s != []
    ensures Trim(Spaced(s)) == Spaced(DropLastDash(s))
  {
    SpacedIsLong(s);
    var t := Spaced(s);
    assert IsIdChar(s[0]) && !IsSpace(t[0]);
    assert TrimLeft(t) == t;
    var n := |s|;
    assert IsIdChar(s[n - 1]);
    if s[n - 1] == '-' {
      assert IsIdChar(s[n - 2]) && s[n - 2] != '-';
      SpacedIsLong(s[..n - 1]);
      assert t[..n - 1] == Spaced(s[..n - 1]);
      assert !IsSpace(t[..n - 1][n - 2]);
      assert TrimRight(t[..n - 1]) == t[..n - 1];
      assert TrimRight(t) == TrimRight(t[..n - 1]);
    } else {
      assert !IsSpace(t[n - 1]);
    }
  }

  /** Dashes that became spaces become the same dashes again. */
  lemma {:induction false} DashesComeBack(s: string, inRun: bool)
    requires AllIdChars(s) && NoDoubleDash(s) && (inRun ==> !StartsWithDash(s))
    ensures DashSpaces(Spaced(s), inRun) == s
  {
    if s == [] {
    } else {
      assert Spaced(s)[1..] == Spaced(s[1..]);
      assert IsIdChar(s[0]);
      if s[0] == '-' && |s| > 1 {
        assert s[1] != '-';
      }
      DashesComeBack(s[1..], s[0] == '-');
    }
  }

  lemma {:induction false} IdCharsAreKept(s: string)
    requires AllIdChars(s)
    ensures KeepIdChars(s) == s
  {
    if s == [] {
    } else {
      IdCharsAreKept(s[1..]);
    }
  }

  lemma {:induction false} SingleDashesStay(s: string, inRun: bool)
    requires NoDoubleDash(s) && (inRun ==> !StartsWithDash(s))
    ensures CollapseDashes(s, inRun) == s
  {
    if s == [] {
    } else {
      if s[0] == '-' && |s| > 1 {
        assert s[1] != '-';
      }
      SingleDashesStay(s[1..], s[0] == '-');
    }
  }

  lemma SlugOfSpacedSlug(s: string)
    requires IsSlug(s) && s != []
    ensures Slugify(Spaced(s)) == DropLastDash(s)
  {
    var u := DropLastDash(s);
    TrimDropsLastDash(s);
    assert AllIdChars(u) && NoDoubleDash(u) && !StartsWithDash(u);
    DashesComeBack(u, false);
    IdCharsAreKept(u);
    SingleDashesStay(u, false);
  }

  /** The name shown for a generated id has the id's own slug again, without a trailing dash that cutting at
      48 characters may have left. */
  lemma ShownNameKeepsSlug(name: string, hex: string)
    requires IsHexSuffix(hex) && Slugify(name) != []
    ensures var slug := Slugify(name);
            Slugify(GenerateRoomName(RoomIdFor(name, hex))) == DropLastDash(slug)
  {
    SlugHasShape(name);
    RoomNameIsSpacedSlug(Slugify(name), hex);
    SlugOfSpacedSlug(Slugify(name));
  }

  /** Without a slug the hex digits are the name. */
  lemma ShownNameWithoutSlug(name: string, hex: string)
    requires IsHexSuffix(hex) && Slugify(name) == []
    ensures GenerateRoomName(RoomIdFor(name, hex)) == hex
  {
    SuffixIsHex(hex);
    forall k | 0 <= k < |hex|
      ensures !SplitsAt(hex, k)
    {
      assert IsHex(hex[k]) && !IsHex('-');
    }
    assert FirstSplit(hex, 0) == |hex|;
    assert hex[..|hex|] == hex;
    HexIsUnspaced(hex);
  }

  lemma {:induction false} HexIsUnspaced(s: string)
    requires forall i :: 0 <= i < |s| ==> s[i] != '-'
    ensures Spaced(s) == s
  {
    if s == [] {
    } else {
      HexIsUnspaced(s[1..]);
    }
  }

  // ----- what a slug is made of -----

  predicate IsLetterOrDigit(c: char) { 'a' <= c <= 'z' || '0' <= c <= '9' }

  /** Letters, digits and single spaces between them. */
  predicate IsPlainName(s: string) {
    && (forall i :: 0 <= i < |s| ==> IsLetterOrDigit(s[i]) || s[i] == ' ')
    && (forall i :: 0 <= i < |s| - 1 ==> IsLetterOrDigit(s[i]) || IsLetterOrDigit(s[i + 1]))
    && (s != [] ==> IsLetterOrDigit(s[0]) && IsLetterOrDigit(s[|s| - 1]))
  }

  function Dashed(s: string): string { seq(|s|, i requires 0 <= i < |s| => if s[i] == ' ' then '-' else s[i]) }

  lemma DashedHasShape(s: string)
    requires IsPlainName(s)
    ensures AllIdChars(Dashed(s)) && NoDoubleDash(Dashed(s)) && StripEndDashes(Dashed(s)) == Dashed(s)
    ensures !StartsWithDash(Dashed(s))
  {
    var d := Dashed(s);
    forall i | 0 <= i < |d|
      ensures IsIdChar(d[i]) && (IsLetterOrDigit(s[i]) ==> d[i] == s[i] != '-')
    {
    }
    forall i | 0 <= i < |d| - 1
      ensures d[i] != '-' || d[i + 1] != '-'
    {
      assert IsLetterOrDigit(s[i]) || IsLetterOrDigit(s[i + 1]);
    }
  }

  lemma DashedIsSpacedBack(s: string)
    requires IsPlainName(s)
    ensures Spaced(Dashed(s)) == s && Trim(s) == s
  {
    SpacedIsLong(Dashed(s));
    forall i | 0 <= i < |s|
      ensures Spaced(Dashed(s))[i] == s[i]
    {
      assert IsLetterOrDigit(s[i]) || s[i] == ' ';
    }
  }

  /** The slug of a name of letters, digits and single inner spaces is the name with dashes for spaces, cut at 48. */
  lemma PlainNameSlug(s: string)
    requires IsPlainName(s)
    ensures Slugify(s) == if |s| <= 48 then Dashed(s) else Dashed(s)[..48]
  {
    DashedHasShape(s);
    DashedIsSpacedBack(s);
    DashesComeBack(Dashed(s), false);
    IdCharsAreKept(Dashed(s));
    SingleDashesStay(Dashed(s), false);
  }

  lemma {:induction false} TrimLeftStops(u: string, v: string)
    requires u != [] && !IsSpace(u[|u| - 1])
    ensures TrimLeft(u + v) == TrimLeft(u) + v
    ensures TrimLeft(u) != [] && !IsSpace(TrimLeft(u)[|TrimLeft(u)| - 1])
  {
    if IsSpace(u[0]) {
      TrimLeftStops(u[1..], v);
      assert (u + v)[1..] == u[1..] + v;
    }
  }

  lemma {:induction false} TrimRightStops(u: string, v: string)
    requires v != [] && !IsSpace(v[0])
    ensures TrimRight(u + v) == u + TrimRight(v)
    ensures TrimRight(v) != [] && TrimRight(v)[0] == v[0]
  {
    var n := |v| - 1;
    if IsSpace(v[n]) {
      TrimRightStops(u, v[..n]);
      assert (u + v)[..|u + v| - 1] == u + v[..n];
    }
  }

  lemma TrimInside(u: string, v: string)
    requires u != [] && !IsSpace(u[|u| - 1]) && v != [] && !IsSpace(v[0])
    ensures Trim(u + v) == TrimLeft(u) + TrimRight(v)
    ensures TrimLeft(u) != [] && !IsSpace(TrimLeft(u)[|TrimLeft(u)| - 1])
    ensures TrimRight(v) != [] && TrimRight(v)[0] == v[0]
  {
    TrimLeftStops(u, v);
    TrimRightStops(TrimLeft(u), v);
  }

  lemma {:induction false} DashSpacesSplits(u: string, v: string, inRun: bool)
    requires u != [] && !IsSpace(u[|u| - 1])
    ensures DashSpaces(u + v, inRun) == DashSpaces(u, inRun) + DashSpaces(v, false)
  {
    assert (u + v)[1..] == u[1..] + v;
    if |u| > 1 {
      DashSpacesSplits(u[1..], v, IsSpace(u[0]));
    } else {
      assert u[1..] + v == v;
    }
  }

  lemma {:induction false} KeepIdCharsSplits(u: string, v: string)
    ensures KeepIdChars(u + v) == KeepIdChars(u) + KeepIdChars(v)
  {
    if u == [] {
      assert u + v == v;
    } else {
      assert (u + v)[1..] == u[1..] + v;
      KeepIdCharsSplits(u[1..], v);
    }
  }

  lemma StrangeCharacterIsNotKept(left: string, c: char, right: string)
    requires left != [] && !IsSpace(left[|left| - 1]) && !IsSpace(c) && !IsIdChar(c)
    ensures KeepIdChars(DashSpaces(left + [c] + right, false)) == KeepIdChars(DashSpaces(left + right, false))
  {
    var l, r := DashSpaces(left, false), DashSpaces(right, false);
    DashSpacesSplits(left, right, false);
    DashSpacesSplits(left + [c], right, false);
    DashSpacesSplits(left, [c], false);
    assert DashSpaces([c], false) == [c] + DashSpaces([c][1..], false) && [c][1..] == [];
    assert DashSpaces([c], false) == [c];
    KeepIdCharsSplits(l, r);
    KeepIdCharsSplits(l + [c], r);
    KeepIdCharsSplits(l, [c]);
    assert KeepIdChars([c]) == KeepIdChars([c][1..]);
  }

  /** A character that is neither white space nor of an id, between two that are no white space, does not show in the
      slug. */
  lemma StrangeCharacterIsDropped(u: string, c: char, v: string)
    requires u != [] && !IsSpace(u[|u| - 1]) && v != [] && !IsSpace(v[0])
    requires !IsSpace(c) && !IsIdChar(c)
    ensures Slugify(u + [c] + v) == Slugify(u + v)
  {
    TrimInside(u, v);
    TrimInside(u + [c], v);
    TrimLeftStops(u, [c]);
    StrangeCharacterIsNotKept(TrimLeft(u), c, TrimRight(v));
  }

  predicate NoLineEnds(s: string) { forall i :: 0 <= i < |s| ==> s[i] !in "\n\r\U{2028}\U{2029}" }

  /** The name shown for an address part whose last dash is followed by `v`: what is before that dash, if that is not
      empty, lies on one line, and `v` is at least eight hex digits; otherwise all of it; with spaces for dashes. */
  lemma ShownNameIsBeforeLastDash(u: string, v: string)
    requires '-' !in v
    ensures GenerateRoomName(u + "-" + v)
            == if u != [] && NoLineEnds(u) && |v| >= 8 && AllHexDigits(v) then Spaced(u) else Spaced(u + "-" + v)
  {
    var id := u + "-" + v;
    assert id[|u|] == '-' && id[..|u|] == u && id[|u| + 1..] == v;
    forall k | |u| < k < |id|
      ensures id[k] == v[k - |u| - 1] && (IsHex(id[k]) <==> v[k - |u| - 1] in "0123456789abcdef")
    {
      HexDigitsAreHex(id[k]);
    }
    forall k: nat | k < |id| && k != |u|
      ensures !SplitsAt(id, k)
    {
      SplitIsAtLastDash(u, v, k);
    }
    SplitsAtLastDashIff(u, v);
    if SplitsAt(id, |u|) {
      assert FirstSplit(id, 0) == |u|;
    } else {
      assert FirstSplit(id, 0) == |id| && id[..|id|] == id;
    }
  }

  lemma SplitIsAtLastDash(u: string, v: string, k: nat)
    requires '-' !in v && k < |u + "-" + v| && k != |u|
    ensures !SplitsAt(u + "-" + v, k)
  {
    var id := u + "-" + v;
    if k < |u| {
      assert id[|u|] == '-' && !IsHex('-');
    } else {
      assert id[k] == v[k - |u| - 1] && v[k - |u| - 1] in v;
    }
  }

  lemma SplitsAtLastDashIff(u: string, v: string)
    ensures SplitsAt(u + "-" + v, |u|) <==> u != [] && NoLineEnds(u) && |v| >= 8 && AllHexDigits(v)
  {
    var id := u + "-" + v;
    assert forall k :: 0 <= k < |u| ==> id[k] == u[k];
    assert forall k :: 0 <= k < |v| ==> id[|u| + 1 + k] == v[k];
    forall k | 0 <= k < |v|
      ensures IsHex(v[k]) <==> v[k] in "0123456789abcdef"
    {
      HexDigitsAreHex(v[k]);
    }
    if SplitsAt(id, |u|) {
      forall k | 0 <= k < |v| ensures v[k] in "0123456789abcdef" { assert IsHex(id[|u| + 1 + k]); }
      forall k | 0 <= k < |u| ensures u[k] !in "\n\r\U{2028}\U{2029}" { assert !IsLineEnd(id[k]); }
    }
  }

  /** An address is read as an id exactly when it is /room/ followed by that id, of at least one id character. */
  lemma AddressIsReadIff(path: string, id: string)
    ensures ParseRoomId(path) == Some(id) <==> path == "/room/" + id && id != [] && AllIdChars(id)
  {
    if path == "/room/" + id {
      assert path[..6] == "/room/" && path[6..] == id;
    }
  }
}
