/** The browser's copy agrees with the server's room on every run. */
module Coherence {
  import opened Common
  import opened Names
  import opened RoomTypes
  import RoomSpec
  import opened Sorting
  import opened Protocol
  import opened Replica

  /** Where a browser's copy differs from the room: the names and roles it still shows for sessions that were
      given others without its being told, and the sessions it still flags although they hold no vote. */
  datatype Drift = Drift(names: map<Sid, Text>, roles: map<Sid, Role>, votes: set<Sid>)

  const NO_DRIFT := Drift(map[], map[], {})

  function ShownName(d: Drift, s: Sid, seat: Seat): Text { if s in d.names then d.names[s] else seat.name }

  function ShownRole(d: Drift, s: Sid, seat: Seat): Role { if s in d.roles then d.roles[s] else seat.role }

  predicate ShownFlag(d: Drift, s: Sid, seat: Seat) { seat.vote != Blank || s in d.votes }

  /** The drift records nothing but seated sessions for which the copy is wrong. */
  ghost predicate DriftOk(d: Drift, seats: Seats) {
    && (forall s :: s in d.names ==> s in seats && d.names[s] != seats[s].name)
    && (forall s :: s in d.roles ==> s in seats && d.roles[s] != seats[s].role)
    && (forall s :: s in d.votes ==> s in seats && seats[s].vote == Blank)
  }

  /** Two drifts that differ at most in what they record for one session. */
  predicate SameElsewhere(d: Drift, d': Drift, s: Sid) {
    d.names - {s} == d'.names - {s} && d.roles - {s} == d'.roles - {s} && d.votes - {s} == d'.votes - {s}
  }

  function Forget(d: Drift, s: Sid): Drift { Drift(d.names - {s}, d.roles - {s}, d.votes - {s}) }

  /** The entry shows the seat, except where the drift says otherwise. */
  predicate Agrees(p: Peer, seat: Seat, d: Drift) {
    && p.status == seat.status
    && p.hasVoted == ShownFlag(d, p.sessionId, seat)
    && p.userName == ShownName(d, p.sessionId, seat)
    && p.role == ShownRole(d, p.sessionId, seat)
  }

  ghost predicate EntriesAgree(ps: seq<Peer>, seats: Seats, d: Drift) {
    forall i :: 0 <= i < |ps| ==> ps[i].sessionId in seats && Agrees(ps[i], seats[ps[i].sessionId], d)
  }

  ghost predicate ListsAll(ps: seq<Peer>, seats: Seats) {
    forall s :: s in seats ==> Lists(ps, s)
  }

  ghost predicate InJoinOrder(ps: seq<Peer>, seats: Seats) {
    forall i, j :: 0 <= i < j < |ps| ==> Earlier(JoinKey(seats, ps[i].sessionId), JoinKey(seats, ps[j].sessionId))
  }

  /** The list names every seated session once, in join order, and each entry agrees with its seat up to drift. */
  ghost predicate Matches(ps: seq<Peer>, seats: Seats, d: Drift) {
    EntriesAgree(ps, seats, d) && ListsAll(ps, seats) && InJoinOrder(ps, seats) && DriftOk(d, seats)
  }

  /** Timers agree up to the moment a started timer is recognised as expired. */
  predicate TimersMatch(p: TimerPayload, t: Timer) {
    p.duration == t.duration && p.startedAt == Millis(t.startedAt) && (p.state == TimerIdle <==> t.state == TimerIdle)
  }

  /** The copy `r` shows room `room`, up to drift. */
  ghost predicate Mirrors(r: Replica, room: RoomData, d: Drift) {
    && r.room.Some?
    && var v := r.room.value;
       && v.roomId == room.id && v.roomName == room.name && v.createdBy == room.createdBy
       && v.phase == room.phase
       && (room.phase == PhaseVoting ==> v.result.None?)
       && Matches(v.participants, room.seats, d)
       && TimersMatch(r.timer, room.timer)
  }

  // ----- what matching means: the list BuildRoomState would give -----

  function SidKey(seats: Seats): Sid -> (Time, Sid) { (s: Sid) => JoinKey(seats, s) }

  function PeerSids(ps: seq<Peer>): seq<Sid> { seq(|ps|, i requires 0 <= i < |ps| => ps[i].sessionId) }

  function InfoSids(infos: seq<Info>): seq<Sid> { seq(|infos|, i requires 0 <= i < |infos| => infos[i].sessionId) }

  lemma MatchingSids(ps: seq<Peer>, seats: Seats, d: Drift)
    requires Matches(ps, seats, d)
    ensures SortedBy(PeerSids(ps), SidKey(seats), Earlier)
    ensures forall s :: s in PeerSids(ps) <==> s in seats
  {
    forall s | s in seats
      ensures s in PeerSids(ps)
    {
      assert Lists(ps, s);
      var i :| 0 <= i < |ps| && ps[i].sessionId == s;
      assert PeerSids(ps)[i] == s;
    }
  }

  lemma RosterSids(seats: Seats)
    requires Keyed(seats)
    ensures SortedBy(InfoSids(Roster(seats)), SidKey(seats), Earlier)
    ensures forall s :: s in InfoSids(Roster(seats)) <==> s in seats
    ensures forall i :: 0 <= i < |Roster(seats)| ==>
              Roster(seats)[i].sessionId in seats && Roster(seats)[i] == InfoOf(seats[Roster(seats)[i].sessionId])
  {
    var roster := Roster(seats);
    RosterIsSorted(seats);
    forall i | 0 <= i < |roster|
      ensures roster[i].sessionId in seats && roster[i] == InfoOf(seats[roster[i].sessionId])
    {
      assert roster[i] in roster;
    }
    forall i, j | 0 <= i < j < |roster|
      ensures Earlier(SidKey(seats)(InfoSids(roster)[i]), SidKey(seats)(InfoSids(roster)[j]))
    {
      assert Earlier(InfoKey(seats)(roster[i]), InfoKey(seats)(roster[j]));
    }
    forall s | s in seats
      ensures s in InfoSids(roster)
    {
      assert InfoOf(seats[s]) in roster;
      var i :| 0 <= i < |roster| && roster[i] == InfoOf(seats[s]);
      assert InfoSids(roster)[i] == s;
    }
  }

  /** The entry shows what the server would list, except exactly where the drift says otherwise. */
  predicate ShowsInfo(p: Peer, i: Info, d: Drift) {
    && (i.hasVoted ==> p.hasVoted)
    && (p.hasVoted == i.hasVoted <==> p.sessionId !in d.votes)
    && (p.userName == i.userName <==> p.sessionId !in d.names)
    && (p.role == i.role <==> p.sessionId !in d.roles)
    && (p.sessionId in d.names ==> p.userName == d.names[p.sessionId])
    && (p.sessionId in d.roles ==> p.role == d.roles[p.sessionId])
  }

  lemma AgreeingShowsInfo(p: Peer, seats: Seats, d: Drift)
    requires p.sessionId in seats && Agrees(p, seats[p.sessionId], d) && DriftOk(d, seats)
    ensures ShowsInfo(p, InfoOf(seats[p.sessionId]), d)
  {
  }

  /** A matching list has exactly the sessions of the roster in the same order, and entry by entry the same status
      and every vote flagged; name, role and flag differ exactly where the drift says, in the way it says. */
  lemma MatchesMeansRoster(ps: seq<Peer>, seats: Seats, d: Drift)
    requires Keyed(seats) && Matches(ps, seats, d)
    ensures var roster := Roster(seats);
            && |ps| == |roster|
            && forall i :: 0 <= i < |ps| ==>
                 && ps[i].sessionId == roster[i].sessionId
                 && ps[i].status == roster[i].status
                 && ShowsInfo(ps[i], roster[i], d)
  {
    var roster := Roster(seats);
    MatchingSids(ps, seats, d);
    RosterSids(seats);
    EarlierIsStrictTotalOrder();
    SortedIsUnique(PeerSids(ps), InfoSids(roster), SidKey(seats), Earlier);
    assert |PeerSids(ps)| == |InfoSids(roster)|;
    forall i | 0 <= i < |ps|
      ensures ps[i].sessionId == roster[i].sessionId && ps[i].status == roster[i].status
      ensures ShowsInfo(ps[i], roster[i], d)
    {
      assert PeerSids(ps)[i] == InfoSids(roster)[i];
      AgreeingShowsInfo(ps[i], seats, d);
    }
  }

  lemma SidsInOrder(ps: seq<Peer>, seats: Seats, sids: seq<Sid>)
    requires |ps| == |sids| && forall i :: 0 <= i < |ps| ==> ps[i].sessionId == sids[i]
    requires SortedBy(sids, SidKey(seats), Earlier) && forall s :: s in sids <==> s in seats
    ensures ListsAll(ps, seats) && InJoinOrder(ps, seats)
  {
    forall s | s in seats
      ensures Lists(ps, s)
    {
      var i :| 0 <= i < |sids| && sids[i] == s;
      assert ps[i].sessionId == s;
    }
    forall i, j | 0 <= i < j < |ps|
      ensures Earlier(JoinKey(seats, ps[i].sessionId), JoinKey(seats, ps[j].sessionId))
    {
      assert Earlier(SidKey(seats)(sids[i]), SidKey(seats)(sids[j]));
    }
  }

  /** A list made from the roster entry by entry, with any votes attached. */
  lemma RosterPeersMatch(seats: Seats, ps: seq<Peer>)
    requires Keyed(seats) && |ps| == |Roster(seats)|
    requires forall i :: 0 <= i < |ps| ==> ps[i].(vote := None) == PeerOf(Roster(seats)[i])
    ensures Matches(ps, seats, NO_DRIFT)
  {
    RosterSids(seats);
    var sids := InfoSids(Roster(seats));
    forall i | 0 <= i < |ps|
      ensures ps[i].sessionId == sids[i] && ps[i].sessionId in seats
      ensures Agrees(ps[i], seats[ps[i].sessionId], NO_DRIFT)
    {
      assert ps[i].(vote := None).sessionId == ps[i].sessionId;
    }
    SidsInOrder(ps, seats, sids);
  }

  lemma LoadedPeersMatch(room: RoomData, now: Time)
    requires Keyed(room.seats)
    ensures Matches(LoadState(StateOf(room, now)).participants, room.seats, NO_DRIFT)
  {
    RosterPeersMatch(room.seats, LoadState(StateOf(room, now)).participants);
  }

  lemma ReadTimersMatch(t: Timer, now: Time)
    ensures TimersMatch(TimerPayloadOf(RoomSpec.ReadTimer(t, now).1), RoomSpec.ReadTimer(t, now).0)
  {
  }

  /** A freshly loaded room_state mirrors the room without drift, whatever was shown before. */
  lemma LoadedStateMirrors(room: RoomData, now: Time, before: Replica)
    requires Keyed(room.seats)
    ensures Mirrors(Apply(before, RoomStateMsg(StateOf(room, now))), RoomSpec.TimerInfo(room, now), NO_DRIFT)
  {
    LoadedPeersMatch(room, now);
    ReadTimersMatch(room.timer, now);
  }

  // ----- list updates -----

  /** Two lists with the same sessions match alike as soon as every entry agrees with its seat. */
  lemma SameSidsMatch(ps: seq<Peer>, qs: seq<Peer>, seats: Seats, seats': Seats, d: Drift, d': Drift)
    requires Matches(ps, seats, d) && seats'.Keys == seats.Keys && |qs| == |ps| && DriftOk(d', seats')
    requires forall i :: 0 <= i < |ps| ==> qs[i].sessionId == ps[i].sessionId
    requires forall s :: s in seats ==> seats'[s].joinedAt == seats[s].joinedAt
    requires forall i :: 0 <= i < |qs| ==> Agrees(qs[i], seats'[qs[i].sessionId], d')
    ensures Matches(qs, seats', d')
  {
    forall t | t in seats'
      ensures Lists(qs, t)
    {
      assert Lists(ps, t);
      var i :| 0 <= i < |ps| && ps[i].sessionId == t;
      assert qs[i].sessionId == t;
    }
    forall i, j | 0 <= i < j < |qs|
      ensures Earlier(JoinKey(seats', qs[i].sessionId), JoinKey(seats', qs[j].sessionId))
    {
      assert qs[i].sessionId == ps[i].sessionId && qs[j].sessionId == ps[j].sessionId;
    }
  }

  /** Rewriting the entries of one session follows rewriting its seat. */
  lemma UpdateMatches(ps: seq<Peer>, seats: Seats, d: Drift, s: Sid, update: Peer -> Peer, seat: Seat, d': Drift)
    requires Matches(ps, seats, d)
    requires s in seats && seat.joinedAt == seats[s].joinedAt
    requires forall p: Peer :: update(p).sessionId == p.sessionId
    requires forall p: Peer :: p.sessionId == s && Agrees(p, seats[s], d) ==> Agrees(update(p), seat, d')
    requires SameElsewhere(d, d', s) && DriftOk(d', seats[s := seat])
    ensures Matches(UpdatePeer(ps, s, update), seats[s := seat], d')
  {
    var qs, seats' := UpdatePeer(ps, s, update), seats[s := seat];
    forall i | 0 <= i < |qs|
      ensures qs[i].sessionId == ps[i].sessionId
      ensures Agrees(qs[i], seats'[qs[i].sessionId], d')
    {
      assert Agrees(ps[i], seats[ps[i].sessionId], d);
      if ps[i].sessionId != s {
        ElsewhereAgrees(ps[i], seats[ps[i].sessionId], d, d', s);
      }
    }
    SameSidsMatch(ps, qs, seats, seats', d, d');
  }

  lemma ElsewhereAgrees(p: Peer, seat: Seat, d: Drift, d': Drift, s: Sid)
    requires SameElsewhere(d, d', s) && p.sessionId != s && Agrees(p, seat, d)
    ensures Agrees(p, seat, d')
  {
    var t := p.sessionId;
    assert t in d.names - {s} <==> t in d.names;
    assert t in d.roles - {s} <==> t in d.roles;
    assert t in d.votes - {s} <==> t in d.votes;
  }

  /** A seat change that shows nowhere in the list. */
  lemma SilentChangeMatches(ps: seq<Peer>, seats: Seats, d: Drift, s: Sid, seat: Seat)
    requires Matches(ps, seats, d)
    requires s in seats && InfoOf(seat) == InfoOf(seats[s]) && seat.joinedAt == seats[s].joinedAt
    ensures Matches(ps, seats[s := seat], d)
  {
    UpdateMatches(ps, seats, d, s, (p: Peer) => p, seat, d);
    assert UpdatePeer(ps, s, (p: Peer) => p) == ps;
  }

  lemma {:induction false} WithoutUnlisted(ps: seq<Peer>, s: Sid)
    requires forall i :: 0 <= i < |ps| ==> ps[i].sessionId != s
    ensures Without(ps, s) == ps
  {
    if ps == [] {
    } else {
      WithoutUnlisted(ps[..|ps| - 1], s);
    }
  }

  function Skip(i: nat, k: nat): nat { if i < k then i else i + 1 }

  /** The list without its entry number `k`. */
  function DropAt(ps: seq<Peer>, k: nat): seq<Peer>
    requires k < |ps|
  {
    seq(|ps| - 1, i requires 0 <= i < |ps| - 1 => ps[Skip(i, k)])
  }

  lemma {:induction false} WithoutListed(ps: seq<Peer>, k: nat)
    requires k < |ps| && forall i :: 0 <= i < |ps| && i != k ==> ps[i].sessionId != ps[k].sessionId
    ensures Without(ps, ps[k].sessionId) == DropAt(ps, k)
  {
    var n := |ps| - 1;
    if k == n {
      WithoutUnlisted(ps[..n], ps[k].sessionId);
      assert DropAt(ps, k) == ps[..n];
    } else {
      WithoutListed(ps[..n], k);
      assert DropAt(ps[..n], k) + [ps[n]] == DropAt(ps, k);
    }
  }

  lemma ListedOnce(ps: seq<Peer>, seats: Seats, k: nat)
    requires InJoinOrder(ps, seats) && k < |ps|
    ensures forall i :: 0 <= i < |ps| && i != k ==> ps[i].sessionId != ps[k].sessionId
  {
    LessTotal(ps[k].sessionId, ps[k].sessionId);
  }

  lemma DropListsAll(ps: seq<Peer>, seats: Seats, k: nat)
    requires ListsAll(ps, seats) && k < |ps|
    ensures ListsAll(DropAt(ps, k), seats - {ps[k].sessionId})
  {
    forall t | t in seats - {ps[k].sessionId}
      ensures Lists(DropAt(ps, k), t)
    {
      assert Lists(ps, t);
      var i :| 0 <= i < |ps| && ps[i].sessionId == t;
      assert i != k;
      assert DropAt(ps, k)[if i < k then i else i - 1] == ps[i];
    }
  }

  lemma DropInJoinOrder(ps: seq<Peer>, seats: Seats, k: nat)
    requires InJoinOrder(ps, seats) && k < |ps|
    requires forall i :: 0 <= i < |ps| && i != k ==> ps[i].sessionId != ps[k].sessionId
    ensures InJoinOrder(DropAt(ps, k), seats - {ps[k].sessionId})
  {
    var seats' := seats - {ps[k].sessionId};
    forall i, j | 0 <= i < j < |ps| - 1
      ensures Earlier(JoinKey(seats', DropAt(ps, k)[i].sessionId), JoinKey(seats', DropAt(ps, k)[j].sessionId))
    {
      var p, q := ps[Skip(i, k)], ps[Skip(j, k)];
      assert JoinKey(seats', p.sessionId) == JoinKey(seats, p.sessionId);
      assert JoinKey(seats', q.sessionId) == JoinKey(seats, q.sessionId);
    }
  }

  lemma DropEntriesAgree(ps: seq<Peer>, seats: Seats, d: Drift, k: nat)
    requires EntriesAgree(ps, seats, d) && k < |ps|
    requires forall i :: 0 <= i < |ps| && i != k ==> ps[i].sessionId != ps[k].sessionId
    ensures EntriesAgree(DropAt(ps, k), seats - {ps[k].sessionId}, Forget(d, ps[k].sessionId))
  {
    var s := ps[k].sessionId;
    forall i | 0 <= i < |ps| - 1
      ensures var p := DropAt(ps, k)[i];
              p.sessionId in seats - {s} && Agrees(p, seats[p.sessionId], Forget(d, s))
    {
      assert ps[Skip(i, k)].sessionId != s;
      ElsewhereAgrees(ps[Skip(i, k)], seats[ps[Skip(i, k)].sessionId], d, Forget(d, s), s);
    }
  }

  lemma ForgetIsOk(d: Drift, seats: Seats, s: Sid)
    requires DriftOk(d, seats)
    ensures DriftOk(Forget(d, s), seats - {s})
    ensures s !in seats ==> Forget(d, s) == d && seats - {s} == seats
  {
  }

  lemma LeaveMatches(ps: seq<Peer>, seats: Seats, d: Drift, s: Sid)
    requires Matches(ps, seats, d)
    ensures Matches(Without(ps, s), seats - {s}, Forget(d, s))
  {
    ForgetIsOk(d, seats, s);
    if s !in seats {
      WithoutUnlisted(ps, s);
    } else {
      assert Lists(ps, s);
      var k :| 0 <= k < |ps| && ps[k].sessionId == s;
      ListedOnce(ps, seats, k);
      WithoutListed(ps, k);
      DropListsAll(ps, seats, k);
      DropInJoinOrder(ps, seats, k);
      DropEntriesAgree(ps, seats, d, k);
    }
  }

  /** The newcomer sorts after everybody already seated. */
  ghost predicate ArrivesLast(seats: Seats, s: Sid, now: Time) {
    forall t :: t in seats ==> Earlier(JoinKey(seats, t), (now, s))
  }

  lemma AppendListsAll(ps: seq<Peer>, seats: Seats, q: Peer, seat: Seat)
    requires ListsAll(ps, seats)
    ensures ListsAll(ps + [q], seats[q.sessionId := seat])
  {
    forall t | t in seats[q.sessionId := seat]
      ensures Lists(ps + [q], t)
    {
      if t == q.sessionId {
        assert (ps + [q])[|ps|].sessionId == t;
      } else {
        assert Lists(ps, t);
        var i :| 0 <= i < |ps| && ps[i].sessionId == t;
        assert (ps + [q])[i].sessionId == t;
      }
    }
  }

  lemma AppendInOrderIffLast(ps: seq<Peer>, seats: Seats, d: Drift, q: Peer, seat: Seat)
    requires EntriesAgree(ps, seats, d) && ListsAll(ps, seats) && InJoinOrder(ps, seats) && q.sessionId !in seats
    ensures InJoinOrder(ps + [q], seats[q.sessionId := seat]) <==> ArrivesLast(seats, q.sessionId, seat.joinedAt)
  {
    var qs, seats' := ps + [q], seats[q.sessionId := seat];
    assert forall i :: 0 <= i < |ps| ==>
        qs[i] == ps[i] && JoinKey(seats', qs[i].sessionId) == JoinKey(seats, ps[i].sessionId);
    if InJoinOrder(qs, seats') {
      forall t | t in seats
        ensures Earlier(JoinKey(seats, t), (seat.joinedAt, q.sessionId))
      {
        assert Lists(ps, t);
        var i :| 0 <= i < |ps| && ps[i].sessionId == t;
        assert Earlier(JoinKey(seats', qs[i].sessionId), JoinKey(seats', qs[|ps|].sessionId));
      }
    }
  }

  lemma AppendEntriesAgree(ps: seq<Peer>, seats: Seats, d: Drift, q: Peer, seat: Seat)
    requires EntriesAgree(ps, seats, d) && DriftOk(d, seats) && q.sessionId !in seats
    requires Agrees(q, seat, NO_DRIFT)
    ensures EntriesAgree(ps + [q], seats[q.sessionId := seat], d) && DriftOk(d, seats[q.sessionId := seat])
  {
  }

  /** Appending a newcomer gives the server's order exactly when the newcomer sorts last: always so when
      join times are distinct, but not for a tie on the clock with a smaller session id. */
  lemma AppendMatchesIffLast(ps: seq<Peer>, seats: Seats, d: Drift, s: Sid, name: Text, role: Role, now: Time)
    requires Matches(ps, seats, d) && s !in seats
    ensures var seats' := seats[s := Seat(s, name, Blank, Active, role, now, now)];
            Matches(Joined(ps, s, name, Active, role), seats', d) <==> ArrivesLast(seats, s, now)
  {
    var seat, q := Seat(s, name, Blank, Active, role, now, now), Peer(s, name, Active, false, None, role);
    assert Joined(ps, s, name, Active, role) == ps + [q];
    AppendListsAll(ps, seats, q, seat);
    AppendInOrderIffLast(ps, seats, d, q, seat);
    AppendEntriesAgree(ps, seats, d, q, seat);
  }

  lemma ResetMatches(ps: seq<Peer>, seats: Seats, d: Drift)
    requires Matches(ps, seats, d)
    ensures Matches(ClearVotes(ps), RoomSpec.WithoutVotes(seats), d.(votes := {}))
  {
    var qs, seats' := ClearVotes(ps), RoomSpec.WithoutVotes(seats);
    SameSidsMatch(ps, qs, seats, seats', d, d.(votes := {}));
  }

  lemma VotesShownMatch(ps: seq<Peer>, seats: Seats, d: Drift, votes: seq<VoteEntry>)
    requires Matches(ps, seats, d)
    ensures Matches(WithVotes(ps, votes), seats, d)
  {
    SameSidsMatch(ps, WithVotes(ps, votes), seats, seats, d, d);
  }
}
