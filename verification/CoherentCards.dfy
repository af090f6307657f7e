/** The cards a browser shows: none while voting, and during reveal the server's own. */
module CoherentCards {
  import opened Common
  import opened Names
  import opened RoomTypes
  import opened Sorting
  import RoomSpec
  import RoomHistory
  import Stats
  import opened Protocol
  import opened Replica
  import opened Coherence
  import opened CoherentSteps

  /** While voting no entry shows a card.  During reveal every participant whose vote the server counts is shown
      with exactly that card, in the list and in the result; a shown result may list more, since it is not
      recomputed when a vote is withdrawn. */
  ghost predicate CardsMatch(r: Replica, room: RoomData) {
    && r.room.Some?
    && var v, ps := r.room.value, r.room.value.participants;
       if room.phase == PhaseVoting then forall i :: 0 <= i < |ps| ==> ps[i].vote == None
       else v.result.Some? && forall i :: 0 <= i < |ps| ==> ShowsCard(ps[i], room.seats, v.result.value.votes)
  }

  predicate ShowsCard(p: Peer, seats: Seats, votes: seq<VoteEntry>) {
    p.sessionId in seats && Stats.Counts(seats[p.sessionId]) ==>
      p.vote == Some(seats[p.sessionId].vote) && VoteOf(votes, p.sessionId) == Some(seats[p.sessionId].vote)
  }

  // ----- looking votes up -----

  lemma {:induction false} VoteOfListed(votes: seq<VoteEntry>, k: nat)
    requires k < |votes| && forall i, j :: 0 <= i < j < |votes| ==> votes[i].sessionId != votes[j].sessionId
    ensures VoteOf(votes, votes[k].sessionId) == Some(votes[k].value)
  {
    if k < |votes| - 1 {
      VoteOfListed(votes[..|votes| - 1], k);
    }
  }

  /** The browser's lookup in a fresh result finds the card of every counted vote. */
  lemma VoteOfBallot(seats: Seats, s: Sid)
    requires Keyed(seats) && s in seats && Stats.Counts(seats[s])
    ensures VoteOf(Stats.Ballot(seats), s) == Some(seats[s].vote)
  {
    var votes := Stats.Ballot(seats);
    Stats.BallotIsSorted(seats);
    LessIsStrictTotalOrder();
    assert Stats.EntryOf(seats[s]) in votes;
    var k :| 0 <= k < |votes| && votes[k] == Stats.EntryOf(seats[s]);
    forall i, j | 0 <= i < j < |votes|
      ensures votes[i].sessionId != votes[j].sessionId
    {
      assert Less(Stats.SidOf(votes[i]), Stats.SidOf(votes[j]));
      LessTotal(votes[i].sessionId, votes[j].sessionId);
    }
    VoteOfListed(votes, k);
  }

  lemma FreshCardsMatch(ps: seq<Peer>, seats: Seats)
    requires Keyed(seats)
    ensures var votes := Stats.Summarize(Stats.Ballot(seats)).votes;
            forall i :: 0 <= i < |ps| ==> ShowsCard(WithVotes(ps, votes)[i], seats, votes)
  {
    forall i | 0 <= i < |ps| && ps[i].sessionId in seats && Stats.Counts(seats[ps[i].sessionId])
      ensures VoteOf(Stats.Ballot(seats), ps[i].sessionId) == Some(seats[ps[i].sessionId].vote)
    {
      VoteOfBallot(seats, ps[i].sessionId);
    }
  }

  // ----- messages that do not touch cards -----

  predicate LeavesCards(m: Message) { !m.RoomStateMsg? && !m.VotesRevealed? && !m.RoundReset? }

  /** The entry shows what an old entry of the session showed, or is a newcomer's and shows nothing. */
  ghost predicate KeptEntry(ps: seq<Peer>, q: Peer) {
    || (exists j :: 0 <= j < |ps| && ps[j].sessionId == q.sessionId && ps[j].vote == q.vote)
    || (q.vote == None && !Lists(ps, q.sessionId))
  }

  ghost predicate CardsKept(ps: seq<Peer>, qs: seq<Peer>) { forall i :: 0 <= i < |qs| ==> KeptEntry(ps, qs[i]) }

  lemma {:induction false} WithoutKeepsCards(ps: seq<Peer>, s: Sid)
    ensures CardsKept(ps, Without(ps, s))
  {
    if ps == [] {
    } else {
      var init := ps[..|ps| - 1];
      WithoutKeepsCards(init, s);
      forall q | KeptEntry(init, q) && Lists(init, q.sessionId)
        ensures KeptEntry(ps, q)
      {
        var j :| 0 <= j < |init| && init[j].sessionId == q.sessionId && init[j].vote == q.vote;
        assert ps[j] == init[j];
      }
      WithoutLists(init, s);
      assert KeptEntry(ps, ps[|ps| - 1]);
    }
  }

  lemma {:induction false} WithoutLists(ps: seq<Peer>, s: Sid)
    ensures forall i :: 0 <= i < |Without(ps, s)| ==> Lists(ps, Without(ps, s)[i].sessionId)
  {
    if ps == [] {
    } else {
      var init := ps[..|ps| - 1];
      WithoutLists(init, s);
      forall t | Lists(init, t)
        ensures Lists(ps, t)
      {
        var j :| 0 <= j < |init| && init[j].sessionId == t;
        assert ps[j] == init[j];
      }
      assert Lists(ps, ps[|ps| - 1].sessionId);
    }
  }

  lemma UpdateKeepsCards(ps: seq<Peer>, s: Sid, update: Peer -> Peer)
    requires forall p: Peer :: update(p).sessionId == p.sessionId && update(p).vote == p.vote
    ensures CardsKept(ps, UpdatePeer(ps, s, update))
  {
    forall i | 0 <= i < |ps|
      ensures KeptEntry(ps, UpdatePeer(ps, s, update)[i])
    {
      assert ps[i].sessionId == UpdatePeer(ps, s, update)[i].sessionId;
    }
  }

  lemma SameListKeepsCards(ps: seq<Peer>)
    ensures CardsKept(ps, ps)
  {
    forall i | 0 <= i < |ps|
      ensures KeptEntry(ps, ps[i])
    {
    }
  }

  lemma JoinedKeepsCards(ps: seq<Peer>, s: Sid, name: Text, status: Status, role: Role)
    ensures CardsKept(ps, Joined(ps, s, name, status, role))
  {
    SameListKeepsCards(ps);
    var qs := Joined(ps, s, name, status, role);
    forall i | 0 <= i < |qs|
      ensures KeptEntry(ps, qs[i])
    {
      if i < |ps| {
        assert qs[i] == ps[i];
      }
    }
  }

  lemma MessageKeepsCards(r: Replica, m: Message)
    requires LeavesCards(m) && r.room.Some?
    ensures var r' := Apply(r, m);
            && r'.room.Some? && r'.room.value.result == r.room.value.result
            && CardsKept(r.room.value.participants, r'.room.value.participants)
  {
    var ps := r.room.value.participants;
    match m {
      case ParticipantJoined(s, name, status, role) => JoinedKeepsCards(ps, s, name, status, role);
      case ParticipantLeft(s) => WithoutKeepsCards(ps, s);
      case VoteCast(s) => UpdateKeepsCards(ps, s, Flagged(true));
      case VoteRetracted(s) => UpdateKeepsCards(ps, s, Flagged(false));
      case PresenceChanged(s, status) => UpdateKeepsCards(ps, s, AtStatus(status));
      case NameUpdated(s, name) => UpdateKeepsCards(ps, s, Named(name));
      case RoleUpdated(s, role) => UpdateKeepsCards(ps, s, InRole(role));
      case _ => SameListKeepsCards(ps);
    }
  }

  /** The phase is the same, and during reveal no vote was added. */
  ghost predicate OnlyWithdraws(room: RoomData, after: RoomData) {
    && after.phase == room.phase
    && (room.phase == PhaseReveal ==> RoomHistory.VotePairs(after.seats) <= RoomHistory.VotePairs(room.seats))
  }

  lemma KeptCardsMatch(r: Replica, room: RoomData, r': Replica, after: RoomData)
    requires CardsMatch(r, room) && OnlyWithdraws(room, after) && r'.room.Some?
    requires ListsAll(r.room.value.participants, room.seats)
    requires r'.room.value.result == r.room.value.result
    requires CardsKept(r.room.value.participants, r'.room.value.participants)
    ensures CardsMatch(r', after)
  {
    var ps, qs := r.room.value.participants, r'.room.value.participants;
    forall i | 0 <= i < |qs| && room.phase == PhaseReveal
      ensures ShowsCard(qs[i], after.seats, r.room.value.result.value.votes)
    {
      var s := qs[i].sessionId;
      if s in after.seats && Stats.Counts(after.seats[s]) {
        assert (s, after.seats[s].vote) in RoomHistory.VotePairs(after.seats);
        assert (s, after.seats[s].vote) in RoomHistory.VotePairs(room.seats);
        assert Lists(ps, s) && KeptEntry(ps, qs[i]);
        var j :| 0 <= j < |ps| && ps[j].sessionId == s && ps[j].vote == qs[i].vote;
        assert ShowsCard(ps[j], room.seats, r.room.value.result.value.votes);
      }
    }
    forall i | 0 <= i < |qs| && room.phase == PhaseVoting
      ensures qs[i].vote == None
    {
      assert KeptEntry(ps, qs[i]);
    }
  }

  // ----- one handler -----

  lemma OperationOnlyWithdraws(room: RoomData, op: RoomSpec.RoomOp, now: Time)
    requires RoomSpec.RoomOk(room)
    requires RoomSpec.Perform(room, RoomSpec.Event(op, now)).room.phase == room.phase
    ensures OnlyWithdraws(room, RoomSpec.Perform(room, RoomSpec.Event(op, now)).room)
  {
    if room.phase == PhaseReveal {
      RoomHistory.RevealedPairsShrink(room, RoomSpec.Event(op, now));
    }
  }

  lemma FollowingOnlyWithdraws(room: RoomData, op: RoomSpec.RoomOp, now: Time, after: RoomData)
    requires RoomSpec.RoomOk(room) && Follows(room, op, now, Some(after)) && after.phase == room.phase
    ensures OnlyWithdraws(room, after)
  {
    if after != room {
      OperationOnlyWithdraws(room, op, now);
    }
  }

  ghost predicate TellsVotes(re: Reaction, room: RoomData)
    requires re.room.Some?
  {
    && re.toOthers == [VotesRevealed(Stats.Summarize(Stats.Ballot(room.seats)))]
    && re.room.value.seats == room.seats && re.room.value.phase == PhaseReveal
  }

  predicate TellsReset(re: Reaction)
    requires re.room.Some?
  {
    |re.toOthers| == 2 && re.toOthers[0] == RoundReset && re.toOthers[1].TimerUpdated?
    && re.room.value.phase == PhaseVoting
  }

  predicate TellsNoCards(re: Reaction, room: RoomData)
    requires re.room.Some?
  {
    |re.toOthers| <= 1 && (re.toOthers != [] ==> LeavesCards(re.toOthers[0])) && re.room.value.phase == room.phase
  }

  /** What a handler can tell the others about cards: nothing, the votes, or that they are gone. */
  ghost predicate TellsAboutCards(re: Reaction, room: RoomData) {
    re.room.Some? && (TellsVotes(re, room) || TellsReset(re) || TellsNoCards(re, room))
  }

  lemma JoinTells(room: RoomData, s: Sid, roomId: string, cmd: Command, now: Time)
    requires cmd.Join?
    ensures TellsNoCards(ReactJoin(Some(room), s, roomId, cmd, now), room)
  {
  }

  lemma RoundsTell(room: RoomData, s: Sid, now: Time)
    ensures TellsAboutCards(ReactReveal(room, s, now), room) && TellsAboutCards(ReactNewRound(room, s, now), room)
  {
  }

  lemma SeatOperationsTell(room: RoomData, s: Sid, value: Card, name: Text, status: StatusField, role: RoleField,
                           now: Time)
    ensures TellsNoCards(ReactVote(room, s, value, now), room) && TellsNoCards(ReactName(room, s, name, now), room)
    ensures TellsNoCards(ReactPresence(room, s, status, now), room) && TellsNoCards(ReactRole(room, s, role, now), room)
    ensures TellsNoCards(ReactLeave(room, s, now), room)
  {
  }

  lemma TimerTells(room: RoomData, s: Sid, step: RoomSpec.Step, now: Time)
    requires step.room.phase == room.phase
    ensures TellsNoCards(ReactTimer(room, s, step, now), room)
  {
  }

  /** Every handler but the one that clears the room. */
  lemma HandlersTellAboutCards(room: RoomData, s: Sid, roomId: string, cmd: Command, now: Time)
    requires RoomCleared !in React(Some(room), s, roomId, cmd, now).toOthers
    ensures TellsAboutCards(React(Some(room), s, roomId, cmd, now), room)
  {
    if cmd.Join? {
      JoinTells(room, s, roomId, cmd, now);
    } else if !cmd.Malformed? && s != "" {
      match cmd {
        case Vote(value) => SeatOperationsTell(room, s, value, [], BadStatus, BadRole, now);
        case Reveal => RoundsTell(room, s, now);
        case NewRound => RoundsTell(room, s, now);
        case ClearRoom => assert false;
        case UpdateName(name) => SeatOperationsTell(room, s, Blank, name, BadStatus, BadRole, now);
        case Presence(status) => SeatOperationsTell(room, s, Blank, [], status, BadRole, now);
        case UpdateRole(role) => SeatOperationsTell(room, s, Blank, [], BadStatus, role, now);
        case TimerSetDuration(d) => TimerTells(room, s, RoomSpec.SetTimerDuration(room, d, now), now);
        case TimerStart => TimerTells(room, s, RoomSpec.StartTimer(room, now), now);
        case TimerReset => TimerTells(room, s, RoomSpec.ResetTimer(room, now), now);
        case Leave => SeatOperationsTell(room, s, Blank, [], BadStatus, BadRole, now);
      }
    }
  }

  lemma TellingVotesShowsCards(re: Reaction, room: RoomData, r: Replica)
    requires RoomSpec.RoomOk(room) && r.room.Some? && re.room.Some? && TellsVotes(re, room)
    ensures CardsMatch(ApplyAll(r, re.toOthers), re.room.value)
  {
    ApplyOne(r, re.toOthers[0]);
    RoomSpec.RoomIsKeyed(room);
    FreshCardsMatch(r.room.value.participants, room.seats);
  }

  lemma TellingResetHidesCards(re: Reaction, r: Replica)
    requires r.room.Some? && re.room.Some? && TellsReset(re)
    ensures CardsMatch(ApplyAll(r, re.toOthers), re.room.value)
  {
    assert re.toOthers == [re.toOthers[0], re.toOthers[1]];
    ApplyTwo(r, re.toOthers[0], re.toOthers[1]);
  }

  lemma TellingNothingKeepsCards(re: Reaction, room: RoomData, op: RoomSpec.RoomOp, now: Time, r: Replica, d: Drift)
    requires RoomSpec.RoomOk(room) && Mirrors(r, room, d) && CardsMatch(r, room)
    requires re.room.Some? && TellsNoCards(re, room) && Follows(room, op, now, re.room)
    ensures CardsMatch(ApplyAll(r, re.toOthers), re.room.value)
  {
    FollowingOnlyWithdraws(room, op, now, re.room.value);
    QuietMessagesKeepCards(r, re.toOthers);
    KeptCardsMatch(r, room, ApplyAll(r, re.toOthers), re.room.value);
  }

  lemma ReactionKeepsCards(re: Reaction, room: RoomData, op: RoomSpec.RoomOp, now: Time, r: Replica, d: Drift)
    requires RoomSpec.RoomOk(room) && Mirrors(r, room, d) && CardsMatch(r, room)
    requires TellsAboutCards(re, room) && Follows(room, op, now, re.room)
    ensures CardsMatch(ApplyAll(r, re.toOthers), re.room.value)
  {
    if TellsVotes(re, room) {
      TellingVotesShowsCards(re, room, r);
    } else if TellsReset(re) {
      TellingResetHidesCards(re, r);
    } else {
      TellingNothingKeepsCards(re, room, op, now, r, d);
    }
  }

  /** A handler's messages for the others carry the shown cards along with the room. */
  lemma OthersKeepCards(room: RoomData, s: Sid, roomId: string, cmd: Command, now: Time, r: Replica, d: Drift)
    requires RoomSpec.RoomOk(room) && Mirrors(r, room, d) && CardsMatch(r, room)
    requires RoomCleared !in React(Some(room), s, roomId, cmd, now).toOthers
    ensures var re := React(Some(room), s, roomId, cmd, now);
            re.room.Some? && CardsMatch(ApplyAll(r, re.toOthers), re.room.value)
  {
    var re := React(Some(room), s, roomId, cmd, now);
    HandlersTellAboutCards(room, s, roomId, cmd, now);
    ReactionFollows(room, s, roomId, cmd, now);
    ReactionKeepsCards(re, room, OpOf(s, cmd), now, r, d);
  }

  lemma QuietMessagesKeepCards(r: Replica, ms: seq<Message>)
    requires r.room.Some? && |ms| <= 1 && (ms != [] ==> LeavesCards(ms[0]))
    ensures var r' := ApplyAll(r, ms);
            && r'.room.Some? && r'.room.value.result == r.room.value.result
            && CardsKept(r.room.value.participants, r'.room.value.participants)
  {
    if ms == [] {
      SameListKeepsCards(r.room.value.participants);
    } else {
      assert ms == [ms[0]];
      ApplyOne(r, ms[0]);
      MessageKeepsCards(r, ms[0]);
    }
  }

  lemma SelfKeepsCards(room: RoomData, s: Sid, roomId: string, cmd: Command, now: Time, r: Replica, d: Drift)
    requires RoomSpec.RoomOk(room) && Mirrors(r, room, d) && CardsMatch(r, room)
    requires RoomCleared !in React(Some(room), s, roomId, cmd, now).toSelf
    requires React(Some(room), s, roomId, cmd, now).session != ""
    requires !HasState(React(Some(room), s, roomId, cmd, now).toSelf)
    ensures var re := React(Some(room), s, roomId, cmd, now);
            re.room.Some? && CardsMatch(ApplyAll(r, re.toSelf), re.room.value)
  {
    OwnMessagesAreShared(Some(room), s, roomId, cmd, now, r);
    NoClearUnlessAnnounced(Some(room), s, roomId, cmd, now);
    OthersKeepCards(room, s, roomId, cmd, now, r, d);
  }

  lemma LoadedCardsMatch(room: RoomData, now: Time, before: Replica)
    requires Keyed(room.seats)
    ensures CardsMatch(Apply(before, RoomStateMsg(StateOf(room, now))), RoomSpec.TimerInfo(room, now))
  {
    var state := StateOf(room, now);
    if room.phase == PhaseReveal {
      FreshCardsMatch(PeersOf(state.participants), room.seats);
    }
  }

  lemma JoinerSeesCards(room: Option<RoomData>, s: Sid, roomId: string, cmd: Command, now: Time, r: Replica)
    requires room.Some? ==> RoomSpec.RoomOk(room.value)
    requires HasState(React(room, s, roomId, cmd, now).toSelf)
    ensures var re := React(room, s, roomId, cmd, now);
            re.room.Some? && CardsMatch(ApplyAll(r, re.toSelf), re.room.value)
  {
    ReactKeepsRoomOk(room, s, roomId, cmd, now);
    OnlyJoinSendsState(room, s, roomId, cmd, now);
    JoinSendsState(room, s, roomId, cmd, now);
    var joined := JoinedRoom(room, roomId, cmd, now);
    RoomSpec.RoomIsKeyed(React(room, s, roomId, cmd, now).room.value);
    ApplyOne(r, RoomStateMsg(StateOf(joined, now)));
    LoadedCardsMatch(joined, now, r);
  }

  lemma DisconnectKeepsCards(room: RoomData, s: Sid, r: Replica, d: Drift)
    requires RoomSpec.RoomOk(room) && Mirrors(r, room, d) && CardsMatch(r, room)
    ensures CardsMatch(ApplyAll(r, [PresenceChanged(s, Disconnected)]), RoomSpec.MarkDisconnected(room, s))
  {
    OperationOnlyWithdraws(room, RoomSpec.OpDisconnect(s), 0);
    QuietMessagesKeepCards(r, [PresenceChanged(s, Disconnected)]);
    KeptCardsMatch(r, room, ApplyAll(r, [PresenceChanged(s, Disconnected)]), RoomSpec.MarkDisconnected(room, s));
  }

  lemma PingOnlyWithdraws(room: RoomData, s: Sid, now: Time)
    requires RoomSpec.RoomOk(room)
    ensures OnlyWithdraws(room, RoomSpec.UpdatePing(room, s, now))
  {
    OperationOnlyWithdraws(room, RoomSpec.OpPing(s), now);
  }

  lemma PingKeepsCards(room: RoomData, s: Sid, now: Time, r: Replica, d: Drift)
    requires RoomSpec.RoomOk(room) && Mirrors(r, room, d) && CardsMatch(r, room)
    ensures CardsMatch(r, RoomSpec.UpdatePing(room, s, now))
  {
    PingOnlyWithdraws(room, s, now);
    SameListKeepsCards(r.room.value.participants);
    KeptCardsMatch(r, room, r, RoomSpec.UpdatePing(room, s, now));
  }
}
