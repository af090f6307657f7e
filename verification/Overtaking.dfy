/** At the granularity of locks: a joiner's room_state is built under the room lock and queued after it was
    released, so another handler's messages can be queued for the joiner first; and the room is cleared after
    room_cleared was queued, so a join can come in between (internal/server/ws.go). */
module Overtaking {
  import opened Common
  import opened Names
  import opened RoomTypes
  import RoomSpec
  import RoomHistory
  import Stats
  import opened Protocol
  import opened Replica
  import opened Coherence
  import opened CoherentSteps
  import opened CoherentCards
  import CoherentRuns

  // ----- what the joiner settles on -----

  /** The copy of a joiner for whom `ms` were queued before the state of `room`, built at `now`. */
  ghost function Overtaken(r: Replica, ms: seq<Message>, room: RoomData, now: Time): Replica {
    ApplyAll(r, ms + [RoomStateMsg(StateOf(room, now))])
  }

  /** Whatever was queued first is lost. */
  lemma StateOverwrites(r: Replica, ms: seq<Message>, room: RoomData, now: Time)
    ensures Overtaken(r, ms, room, now)
            == Replica(Some(LoadState(StateOf(room, now))), TimerPayloadOf(RoomSpec.ReadTimer(room.timer, now).1))
  {
    var state := RoomStateMsg(StateOf(room, now));
    assert (ms + [state])[..|ms|] == ms;
  }

  lemma LoadedEntries(room: RoomData, now: Time)
    ensures var ps, roster := LoadState(StateOf(room, now)).participants, Roster(room.seats);
            |ps| == |roster| && forall i :: 0 <= i < |ps| ==> ps[i].(vote := None) == PeerOf(roster[i])
  {
  }

  lemma MatchingEntriesAreRoster(ps: seq<Peer>, seats: Seats, roster: seq<Info>)
    requires Keyed(seats) && Matches(ps, seats, NO_DRIFT)
    requires |ps| == |roster| && forall i :: 0 <= i < |ps| ==> ps[i].(vote := None) == PeerOf(roster[i])
    ensures roster == Roster(seats)
  {
    MatchesMeansRoster(ps, seats, NO_DRIFT);
    forall i | 0 <= i < |ps|
      ensures roster[i] == Roster(seats)[i]
    {
      assert ShowsInfo(ps[i], Roster(seats)[i], NO_DRIFT);
      assert ps[i].(vote := None).sessionId == roster[i].sessionId;
    }
  }

  lemma LoadedListMatchesIff(room: RoomData, now: Time, after: RoomData)
    requires Keyed(room.seats) && Keyed(after.seats)
    ensures Matches(LoadState(StateOf(room, now)).participants, after.seats, NO_DRIFT)
            <==> Roster(room.seats) == Roster(after.seats)
  {
    var ps := LoadState(StateOf(room, now)).participants;
    LoadedEntries(room, now);
    if Matches(ps, after.seats, NO_DRIFT) {
      MatchingEntriesAreRoster(ps, after.seats, Roster(room.seats));
    }
    if Roster(room.seats) == Roster(after.seats) {
      RosterPeersMatch(after.seats, ps);
    }
  }

  predicate SameIdentity(a: RoomData, b: RoomData) { a.id == b.id && a.name == b.name && a.createdBy == b.createdBy }

  /** Timers a browser cannot tell apart. */
  predicate SameTimers(t: Timer, u: Timer) {
    && t.duration == u.duration && Millis(t.startedAt) == Millis(u.startedAt)
    && (t.state == TimerIdle <==> u.state == TimerIdle)
  }

  /** The joiner's state was built from `room`, then another handler changed the room to `after`, and its messages
      were queued for the joiner first.  The joiner settles on a copy of `after` exactly when the handler changed
      neither the list, nor the phase, nor the timer. */
  lemma OvertakenStateSettlesIff(room: RoomData, now: Time, after: RoomData, ms: seq<Message>, r: Replica)
    requires Keyed(room.seats) && Keyed(after.seats) && SameIdentity(room, after)
    ensures Mirrors(Overtaken(r, ms, room, now), after, NO_DRIFT) <==>
              && Roster(room.seats) == Roster(after.seats) && room.phase == after.phase
              && SameTimers(room.timer, after.timer)
  {
    StateOverwrites(r, ms, room, now);
    LoadedListMatchesIff(room, now, after);
  }

  /** No drift excuses another phase or timer. */
  lemma OvertakenMirrorNeedsPhaseAndTimer(room: RoomData, now: Time, after: RoomData, ms: seq<Message>, r: Replica,
                                          d: Drift)
    requires Mirrors(Overtaken(r, ms, room, now), after, d)
    ensures room.phase == after.phase && SameTimers(room.timer, after.timer)
  {
    StateOverwrites(r, ms, room, now);
  }

  // ----- the cards -----

  lemma {:induction false} FoundIsListed(votes: seq<VoteEntry>, s: Sid)
    requires VoteOf(votes, s).Some?
    ensures exists e :: e in votes && e.sessionId == s && e.value == VoteOf(votes, s).value
  {
    var n := |votes| - 1;
    if votes[n].sessionId == s {
      assert votes[n] in votes;
    } else {
      FoundIsListed(votes[..n], s);
      var e :| e in votes[..n] && e.sessionId == s && e.value == VoteOf(votes[..n], s).value;
      assert e in votes;
    }
  }

  /** A lookup in a fresh vote list finds a card exactly when it is a counted one. */
  lemma CardIsFoundIff(seats: Seats, s: Sid, value: Card)
    requires Keyed(seats)
    ensures VoteOf(Stats.Ballot(seats), s) == Some(value) <==> (s, value) in RoomHistory.VotePairs(seats)
  {
    var votes := Stats.Ballot(seats);
    Stats.BallotIsSorted(seats);
    if VoteOf(votes, s) == Some(value) {
      FoundIsListed(votes, s);
    }
    if (s, value) in RoomHistory.VotePairs(seats) {
      VoteOfBallot(seats, s);
    }
  }

  /** Every card that still counts in `after` is found in the vote list of `before`. */
  ghost predicate CardsFound(before: Seats, after: Seats) {
    forall s :: s in after && Stats.Counts(after[s]) ==> VoteOf(Stats.Ballot(before), s) == Some(after[s].vote)
  }

  lemma CardsFoundIff(before: Seats, after: Seats)
    requires Keyed(before)
    ensures CardsFound(before, after) <==> RoomHistory.VotePairs(after) <= RoomHistory.VotePairs(before)
  {
    forall s | s in after && Stats.Counts(after[s])
      ensures (s, after[s].vote) in RoomHistory.VotePairs(after)
      ensures VoteOf(Stats.Ballot(before), s) == Some(after[s].vote)
              <==> (s, after[s].vote) in RoomHistory.VotePairs(before)
    {
      CardIsFoundIff(before, s, after[s].vote);
    }
  }

  lemma LoadedVotes(room: RoomData, now: Time)
    requires room.phase == PhaseReveal
    ensures var v, votes := LoadState(StateOf(room, now)), Stats.Ballot(room.seats);
            && v.result.Some? && v.result.value.votes == votes
            && forall i :: 0 <= i < |v.participants| ==>
                 v.participants[i].vote == VoteOf(votes, v.participants[i].sessionId)
  {
  }

  /** The cards of a loaded revealed room are right exactly when every card that still counts is one of its cards. */
  lemma LoadedCardsMatchIff(room: RoomData, now: Time, after: RoomData, r: Replica)
    requires Keyed(room.seats) && Keyed(after.seats) && room.phase == after.phase == PhaseReveal
    requires Roster(room.seats) == Roster(after.seats) && r.room == Some(LoadState(StateOf(room, now)))
    ensures CardsMatch(r, after) <==> RoomHistory.VotePairs(after.seats) <= RoomHistory.VotePairs(room.seats)
  {
    LoadedVotes(room, now);
    CardsFoundIff(room.seats, after.seats);
    LoadedListMatchesIff(room, now, after);
    CardsAreLookedUp(r.room.value.participants, Stats.Ballot(room.seats), after.seats);
  }

  lemma CardsAreLookedUp(ps: seq<Peer>, votes: seq<VoteEntry>, seats: Seats)
    requires ListsAll(ps, seats) && forall i :: 0 <= i < |ps| ==> ps[i].vote == VoteOf(votes, ps[i].sessionId)
    ensures (forall i :: 0 <= i < |ps| ==> ShowsCard(ps[i], seats, votes))
            <==> forall s :: s in seats && Stats.Counts(seats[s]) ==> VoteOf(votes, s) == Some(seats[s].vote)
  {
    if forall i :: 0 <= i < |ps| ==> ShowsCard(ps[i], seats, votes) {
      forall s | s in seats && Stats.Counts(seats[s])
        ensures VoteOf(votes, s) == Some(seats[s].vote)
      {
        assert Lists(ps, s);
        var i :| 0 <= i < |ps| && ps[i].sessionId == s;
        assert ShowsCard(ps[i], seats, votes);
      }
    }
  }

  // ----- which commands may overtake -----

  /** Two seatings whose participants are listed alike. */
  ghost predicate SameLooks(a: Seats, b: Seats) {
    a.Keys == b.Keys && forall s :: s in a ==> InfoOf(a[s]) == InfoOf(b[s])
  }

  lemma RosterTellsInfo(a: Seats, b: Seats, s: Sid)
    requires Keyed(a) && Keyed(b) && s in a && Roster(a) == Roster(b)
    ensures s in b && InfoOf(a[s]) == InfoOf(b[s])
  {
    RosterIsSorted(a);
    RosterIsSorted(b);
    assert InfoOf(a[s]) in Roster(b);
  }

  lemma SameRosterIff(a: Seats, b: Seats)
    requires Keyed(a) && Keyed(b)
    requires forall s :: s in a && s in b ==> a[s].joinedAt == b[s].joinedAt
    ensures Roster(a) == Roster(b) <==> SameLooks(a, b)
  {
    if Roster(a) == Roster(b) {
      forall s | s in a ensures s in b && InfoOf(a[s]) == InfoOf(b[s]) { RosterTellsInfo(a, b, s); }
      forall s | s in b ensures s in a { RosterTellsInfo(b, a, s); }
    }
    if SameLooks(a, b) {
      RosterOfSameInfos(a, b);
    }
  }

  /** A join that is refused, or that changes nothing a list shows: of somebody seated and active, under the same
      name and role. */
  predicate JoinShowsNothing(room: RoomData, cmd: Command)
    requires cmd.Join?
  {
    Admits(room, cmd) ==>
      && cmd.sid in room.seats && room.seats[cmd.sid].status == Active
      && room.seats[cmd.sid].name == RoomSpec.StoredName(cmd.userName).value
      && room.seats[cmd.sid].role == RoomSpec.JoinRole(cmd.role).value
  }

  /** Commands from session `s` that change nothing a browser shows, while voting, of `room`: the refused ones, and
      those that set what is already so. */
  predicate ShowsNothing(room: RoomData, s: Sid, cmd: Command) {
    if cmd.Join? then JoinShowsNothing(room, cmd)
    else if cmd.Malformed? || s == "" then true
    else
      match cmd
      case Vote(value) =>
        room.phase == PhaseReveal || !ValidVote(value) || s !in room.seats || room.seats[s].role == Observer
        || (room.seats[s].vote != Blank <==> value != Blank)
      case Reveal => room.phase == PhaseReveal
      case NewRound => room.phase == PhaseVoting
      case ClearRoom =>
        room.seats == map[] && room.phase == PhaseVoting
        && room.timer.state == TimerIdle && room.timer.duration == DEFAULT_TIMER_DURATION
      case UpdateName(name) =>
        var stored := RoomSpec.StoredName(name);
        stored.None? || s !in room.seats || room.seats[s].name == stored.value
      case Presence(status) =>
        !status.StatusField? || status.status == Disconnected
        || s !in room.seats || room.seats[s].status == status.status
      case UpdateRole(role) => !role.RoleField? || s !in room.seats || room.seats[s].role == role.role
      case TimerSetDuration(d) =>
        room.timer.state != TimerIdle || d < MIN_TIMER_DURATION || d > MAX_TIMER_DURATION || d == room.timer.duration
      case TimerStart => room.timer.state != TimerIdle
      case TimerReset => room.timer.state == TimerIdle
      case Leave => s !in room.seats
  }

  /** What a browser shows of the two rooms is the same, cards aside. */
  ghost predicate SameShown(a: RoomData, b: RoomData) {
    SameLooks(a.seats, b.seats) && a.phase == b.phase && SameTimers(a.timer, b.timer)
  }

  lemma OneSeatLooksIff(seats: Seats, s: Sid, seat: Seat)
    requires s in seats
    ensures SameLooks(seats, seats[s := seat]) <==> InfoOf(seat) == InfoOf(seats[s])
  {
    assert seats[s := seat].Keys == seats.Keys;
  }

  /** The handler's effect on the room is shown nowhere exactly under the condition on the command. */
  ghost predicate ShownIff(re: Reaction, room: RoomData, s: Sid, cmd: Command) {
    re.room.Some? && (ShowsNothing(room, s, cmd) <==> SameShown(room, re.room.value))
  }

  /** A room of which one seat was rewritten is shown alike exactly when that seat is. */
  lemma OneSeatShownIff(room: RoomData, s: Sid, seat: Seat, after: RoomData)
    requires s in room.seats && after.seats == room.seats[s := seat]
    requires after.phase == room.phase && SameTimers(room.timer, after.timer)
    ensures SameShown(room, after) <==> InfoOf(seat) == InfoOf(room.seats[s])
  {
    OneSeatLooksIff(room.seats, s, seat);
  }

  lemma SameRoomIsShown(room: RoomData)
    ensures SameShown(room, room)
  {
  }

  lemma NewSeatIsShown(room: RoomData, s: Sid, seat: Seat, after: RoomData)
    requires s !in room.seats && after.seats == room.seats[s := seat]
    ensures !SameShown(room, after)
  {
    assert s in after.seats;
  }

  lemma AdmissionShownIff(room: RoomData, cmd: Command, name: Text, role: Role, now: Time)
    requires RoomSpec.RoomOk(room) && cmd.Join?
    ensures var step := RoomSpec.Admit(room, cmd.sid, name, role, now);
            SameShown(room, RoomSpec.TimerInfo(step.room, now))
            <==> if cmd.sid in room.seats
                 then var p := room.seats[cmd.sid]; p.status == Active && p.name == name && p.role == role
                 else |room.seats| >= MAX_PARTICIPANTS
  {
    var after := RoomSpec.TimerInfo(RoomSpec.Admit(room, cmd.sid, name, role, now).room, now);
    if cmd.sid in room.seats {
      assert RoomSpec.SeatOk(cmd.sid, room.seats[cmd.sid]);
      OneSeatShownIff(room, cmd.sid, after.seats[cmd.sid], after);
    } else if |room.seats| < MAX_PARTICIPANTS {
      NewSeatIsShown(room, cmd.sid, after.seats[cmd.sid], after);
    }
  }

  lemma JoinShownIff(room: RoomData, s: Sid, roomId: string, cmd: Command, now: Time)
    requires RoomSpec.RoomOk(room) && cmd.Join?
    ensures ShownIff(ReactJoin(Some(room), s, roomId, cmd, now), room, s, cmd)
  {
    var stored, role := RoomSpec.StoredName(cmd.userName), RoomSpec.JoinRole(cmd.role);
    SameRoomIsShown(room);
    if stored.Some? && role.Some? {
      AdmissionShownIff(room, cmd, stored.value, role.value, now);
    }
  }

  lemma VoteShownIff(room: RoomData, s: Sid, value: Card, now: Time)
    requires s != ""
    ensures ShownIff(ReactVote(room, s, value, now), room, s, Vote(value))
  {
    var after := RoomSpec.CastVote(room, s, value, now).room;
    if after != room {
      OneSeatShownIff(room, s, after.seats[s], after);
    }
  }

  lemma NameShownIff(room: RoomData, s: Sid, name: Text, now: Time)
    requires s != ""
    ensures ShownIff(ReactName(room, s, name, now), room, s, UpdateName(name))
  {
    var after := RoomSpec.UpdateName(room, s, name, now).room;
    if after != room {
      OneSeatShownIff(room, s, after.seats[s], after);
    }
  }

  lemma PresenceShownIff(room: RoomData, s: Sid, status: StatusField, now: Time)
    requires s != ""
    ensures ShownIff(ReactPresence(room, s, status, now), room, s, Presence(status))
  {
    var after := RoomSpec.UpdatePresence(room, s, status, now).room;
    if after != room {
      OneSeatShownIff(room, s, after.seats[s], after);
    }
  }

  lemma RoleShownIff(room: RoomData, s: Sid, role: RoleField, now: Time)
    requires RoomSpec.RoomOk(room) && s != ""
    ensures ShownIff(ReactRole(room, s, role, now), room, s, UpdateRole(role))
  {
    var after := RoomSpec.UpdateRole(room, s, role, now).room;
    if after != room {
      assert RoomSpec.SeatOk(s, room.seats[s]);
      OneSeatShownIff(room, s, after.seats[s], after);
    }
  }

  lemma RevealShownIff(room: RoomData, s: Sid, now: Time)
    requires s != ""
    ensures ShownIff(ReactReveal(room, s, now), room, s, Reveal)
  {
  }

  lemma NewRoundShownIff(room: RoomData, s: Sid, now: Time)
    requires s != ""
    ensures ShownIff(ReactNewRound(room, s, now), room, s, NewRound)
  {
  }

  lemma ClearShownIff(room: RoomData, s: Sid, now: Time)
    requires RoomSpec.RoomOk(room) && s != ""
    ensures ShownIff(Announce(RoomSpec.ClearRoom(room, now), s, [RoomCleared]), room, s, ClearRoom)
  {
    if room.seats != map[] {
      var t :| t in room.seats;
      assert t !in RoomSpec.ClearRoom(room, now).seats;
    }
  }

  lemma LeaveShownIff(room: RoomData, s: Sid, now: Time)
    requires s != ""
    ensures ShownIff(ReactLeave(room, s, now), room, s, Leave)
  {
    if s in room.seats {
      assert s !in RoomSpec.Leave(room, s, now).room.seats;
    }
  }

  predicate IsTimerCommand(cmd: Command) { cmd.TimerSetDuration? || cmd.TimerStart? || cmd.TimerReset? }

  lemma TimerShownIff(room: RoomData, s: Sid, roomId: string, cmd: Command, now: Time)
    requires RoomSpec.RoomOk(room) && s != "" && IsTimerCommand(cmd)
    ensures ShownIff(React(Some(room), s, roomId, cmd, now), room, s, cmd)
  {
  }

  lemma SeatCommandShownIff(room: RoomData, s: Sid, roomId: string, cmd: Command, now: Time)
    requires RoomSpec.RoomOk(room) && s != ""
    requires cmd.Vote? || cmd.UpdateName? || cmd.Presence? || cmd.UpdateRole? || cmd.Leave?
    ensures ShownIff(React(Some(room), s, roomId, cmd, now), room, s, cmd)
  {
    match cmd {
      case Vote(value) => VoteShownIff(room, s, value, now);
      case UpdateName(name) => NameShownIff(room, s, name, now);
      case Presence(status) => PresenceShownIff(room, s, status, now);
      case UpdateRole(role) => RoleShownIff(room, s, role, now);
      case Leave => LeaveShownIff(room, s, now);
    }
  }

  lemma RoomCommandShownIff(room: RoomData, s: Sid, roomId: string, cmd: Command, now: Time)
    requires RoomSpec.RoomOk(room) && s != ""
    requires cmd.Reveal? || cmd.NewRound? || cmd.ClearRoom?
    ensures ShownIff(React(Some(room), s, roomId, cmd, now), room, s, cmd)
  {
    match cmd {
      case Reveal => RevealShownIff(room, s, now);
      case NewRound => NewRoundShownIff(room, s, now);
      case ClearRoom => ClearShownIff(room, s, now);
    }
  }

  /** What a handler changes in the room can be seen in a browser exactly under the condition on the command. */
  lemma HandlerShownIff(room: RoomData, s: Sid, roomId: string, cmd: Command, now: Time)
    requires RoomSpec.RoomOk(room)
    ensures ShownIff(React(Some(room), s, roomId, cmd, now), room, s, cmd)
  {
    if cmd.Join? {
      JoinShownIff(room, s, roomId, cmd, now);
    } else if cmd.Malformed? || s == "" {
      SameRoomIsShown(room);
    } else if IsTimerCommand(cmd) {
      TimerShownIff(room, s, roomId, cmd, now);
    } else if cmd.Reveal? || cmd.NewRound? || cmd.ClearRoom? {
      RoomCommandShownIff(room, s, roomId, cmd, now);
    } else {
      SeatCommandShownIff(room, s, roomId, cmd, now);
    }
  }

  // ----- the whole copy of a joiner that is overtaken -----

  /** An operation keeps the identity of the room and the join times of those who stay seated. */
  ghost predicate SameStanding(a: RoomData, b: RoomData) {
    SameIdentity(a, b) && forall s :: s in a.seats && s in b.seats ==> a.seats[s].joinedAt == b.seats[s].joinedAt
  }

  lemma OperationKeepsStanding(room: RoomData, e: RoomSpec.Event)
    ensures SameStanding(room, RoomSpec.Perform(room, e).room)
  {
  }

  lemma FollowingKeepsStanding(room: RoomData, op: RoomSpec.RoomOp, now: Time, after: RoomData)
    requires Follows(room, op, now, Some(after))
    ensures SameStanding(room, after)
  {
    OperationKeepsStanding(room, RoomSpec.Event(op, now));
  }

  lemma OvertakenCardsIff(room: RoomData, now: Time, after: RoomData, r: Replica)
    requires Keyed(room.seats) && Keyed(after.seats) && room.phase == after.phase
    requires Roster(room.seats) == Roster(after.seats) && r.room == Some(LoadState(StateOf(room, now)))
    ensures CardsMatch(r, after) <==>
              (after.phase == PhaseReveal ==> RoomHistory.VotePairs(after.seats) <= RoomHistory.VotePairs(room.seats))
  {
    if room.phase == PhaseReveal {
      LoadedCardsMatchIff(room, now, after, r);
    }
  }

  lemma OvertakenMirrorIff(room: RoomData, now: Time, after: RoomData, ms: seq<Message>, r: Replica)
    requires Keyed(room.seats) && Keyed(after.seats) && SameStanding(RoomSpec.TimerInfo(room, now), after)
    ensures Mirrors(Overtaken(r, ms, room, now), after, NO_DRIFT) <==> SameShown(RoomSpec.TimerInfo(room, now), after)
  {
    OvertakenStateSettlesIff(room, now, after, ms, r);
    SameRosterIff(room.seats, after.seats);
  }

  /** A joiner whose state was overtaken has a whole copy of the later room exactly when nothing shown was changed,
      and, during reveal, no vote was added. */
  lemma OvertakenCopyIff(room: RoomData, now: Time, after: RoomData, ms: seq<Message>, r: Replica)
    requires RoomSpec.RoomOk(room) && RoomSpec.RoomOk(after)
    requires SameStanding(RoomSpec.TimerInfo(room, now), after)
    ensures CoherentRuns.Copies(Overtaken(r, ms, room, now), after, NO_DRIFT) <==>
              && SameShown(RoomSpec.TimerInfo(room, now), after)
              && (after.phase == PhaseReveal ==>
                    RoomHistory.VotePairs(after.seats) <= RoomHistory.VotePairs(room.seats))
  {
    RoomSpec.RoomIsKeyed(room);
    RoomSpec.RoomIsKeyed(after);
    StateOverwrites(r, ms, room, now);
    OvertakenMirrorIff(room, now, after, ms, r);
    if SameShown(RoomSpec.TimerInfo(room, now), after) {
      SameRosterIff(room.seats, after.seats);
      OvertakenCardsIff(room, now, after, Overtaken(r, ms, room, now));
    }
  }

  /** For whatever a handler does to the room, since votes are only cast while voting. */
  lemma FollowingCopyIff(room: RoomData, built: Time, op: RoomSpec.RoomOp, now: Time, after: RoomData, ms: seq<Message>,
                         r: Replica)
    requires RoomSpec.RoomOk(room) && Follows(RoomSpec.TimerInfo(room, built), op, now, Some(after))
    ensures CoherentRuns.Copies(Overtaken(r, ms, room, built), after, NO_DRIFT)
            <==> SameShown(RoomSpec.TimerInfo(room, built), after)
  {
    var before := RoomSpec.TimerInfo(room, built);
    FollowingKeepsRoomOk(before, op, now, Some(after));
    FollowingKeepsStanding(before, op, now, after);
    OvertakenCopyIff(room, built, after, ms, r);
    if after.phase == before.phase {
      FollowingOnlyWithdraws(before, op, now, after);
    }
  }

  /** Exactly which commands may overtake: the joiner still settles on a copy of the room, cards and result included,
      if and only if the command changes nothing shown. */
  lemma OvertakingCommandIff(room: RoomData, built: Time, s: Sid, roomId: string, cmd: Command, now: Time,
                             ms: seq<Message>, r: Replica)
    requires RoomSpec.RoomOk(room)
    ensures var before := RoomSpec.TimerInfo(room, built);
            var after := React(Some(before), s, roomId, cmd, now).room;
            && after.Some?
            && (CoherentRuns.Copies(Overtaken(r, ms, room, built), after.value, NO_DRIFT)
                <==> ShowsNothing(before, s, cmd))
  {
    var before := RoomSpec.TimerInfo(room, built);
    HandlerShownIff(before, s, roomId, cmd, now);
    ReactionFollows(before, s, roomId, cmd, now);
    FollowingCopyIff(room, built, OpOf(s, cmd), now, React(Some(before), s, roomId, cmd, now).room.value, ms, r);
  }

  /** And which lost connections may: of nobody seated, or of somebody already shown as disconnected. */
  lemma OvertakingDisconnectIff(room: RoomData, built: Time, s: Sid, ms: seq<Message>, r: Replica)
    requires RoomSpec.RoomOk(room)
    ensures var after := RoomSpec.MarkDisconnected(RoomSpec.TimerInfo(room, built), s);
            CoherentRuns.Copies(Overtaken(r, ms, room, built), after, NO_DRIFT)
            <==> s !in room.seats || room.seats[s].status == Disconnected
  {
    var before := RoomSpec.TimerInfo(room, built);
    var after := RoomSpec.MarkDisconnected(before, s);
    FollowingCopyIff(room, built, RoomSpec.OpDisconnect(s), built, after, ms, r);
    if s in room.seats {
      OneSeatShownIff(before, s, after.seats[s], after);
    }
  }

  // ----- what is lost -----

  /** A reveal that overtakes is lost to the joiner: it stays in the voting phase, and nothing it was not told of
      accounts for that. */
  lemma OvertakingRevealIsLost(room: RoomData, built: Time, now: Time, r: Replica)
    requires room.phase == PhaseVoting
    ensures var told := VotesRevealed(Stats.Summarize(Stats.Ballot(room.seats)));
            var settled := Overtaken(r, [told], room, built);
            && settled.room.Some? && settled.room.value.phase == PhaseVoting && settled.room.value.result == None
            && forall d :: !Mirrors(settled, RoomSpec.Reveal(RoomSpec.TimerInfo(room, built), now).room, d)
  {
    StateOverwrites(r, [VotesRevealed(Stats.Summarize(Stats.Ballot(room.seats)))], room, built);
  }

  /** So is the start of the timer. */
  lemma OvertakingStartIsLost(room: RoomData, built: Time, now: Time, r: Replica)
    requires RoomSpec.RoomOk(room) && room.timer.state == TimerIdle
    ensures var after := RoomSpec.StartTimer(RoomSpec.TimerInfo(room, built), now).room;
            var told := TimerUpdated(TimerPayloadOf(RoomSpec.ReadTimer(after.timer, now).1));
            var settled := Overtaken(r, [told], room, built);
            settled.timer.state == TimerIdle && forall d :: !Mirrors(settled, after, d)
  {
    var after := RoomSpec.StartTimer(RoomSpec.TimerInfo(room, built), now).room;
    StateOverwrites(r, [TimerUpdated(TimerPayloadOf(RoomSpec.ReadTimer(after.timer, now).1))], room, built);
  }

  /** And a first vote: the joiner settles on a list in which the voter has not voted. */
  lemma OvertakingVoteIsLost(room: RoomData, s: Sid, value: Card, built: Time, now: Time, r: Replica)
    requires Keyed(room.seats) && RoomSpec.CastVote(room, s, value, now).outcome.Done?
    requires value != Blank && !RoomSpec.HasVoted(room, s)
    ensures var after := RoomSpec.CastVote(room, s, value, now).room;
            var settled := Overtaken(r, [VoteCast(s)], room, built);
            && settled.room.Some? && after.seats[s].vote == value
            && exists i :: 0 <= i < |settled.room.value.participants|
                           && settled.room.value.participants[i].sessionId == s
                           && !settled.room.value.participants[i].hasVoted
  {
    StateOverwrites(r, [VoteCast(s)], room, built);
    var ps, roster := LoadState(StateOf(room, built)).participants, Roster(room.seats);
    RosterIsSorted(room.seats);
    LoadedEntries(room, built);
    assert InfoOf(room.seats[s]) in roster;
    var i :| 0 <= i < |roster| && roster[i] == InfoOf(room.seats[s]);
    assert ps[i].(vote := None) == PeerOf(roster[i]);
    assert ps[i].sessionId == s && !ps[i].hasVoted;
  }

  // ----- a join between room_cleared and the clearing -----

  /** What handling the join comes to, when the clearing took the room lock first, or takes it afterwards. */
  ghost function JoinAtClear(room: RoomData, s: Sid, roomId: string, cmd: Command, now: Time, cleared: Time,
                             clearFirst: bool): Reaction {
    React(Some(if clearFirst then RoomSpec.ClearRoom(room, cleared) else room), s, roomId, cmd, now)
  }

  /** The room after both. */
  ghost function RoomAfterBoth(room: RoomData, s: Sid, roomId: string, cmd: Command, now: Time, cleared: Time,
                               clearFirst: bool): RoomData
    requires JoinAtClear(room, s, roomId, cmd, now, cleared, clearFirst).room.Some?
  {
    var joined := JoinAtClear(room, s, roomId, cmd, now, cleared, clearFirst).room.value;
    if clearFirst then joined else RoomSpec.ClearRoom(joined, cleared)
  }

  lemma ListsWhomItSeats(room: RoomData, now: Time, t: Sid)
    requires Keyed(room.seats) && t in room.seats
    ensures Lists(LoadState(StateOf(room, now)).participants, t)
  {
    RosterIsSorted(room.seats);
    LoadedEntries(room, now);
    var ps, roster := LoadState(StateOf(room, now)).participants, Roster(room.seats);
    assert InfoOf(room.seats[t]) in roster;
    var i :| 0 <= i < |roster| && roster[i] == InfoOf(room.seats[t]);
    assert ps[i].(vote := None).sessionId == t;
  }

  lemma JoinIsAcceptedIff(room: RoomData, s: Sid, roomId: string, cmd: Command, now: Time)
    requires cmd.Join?
    ensures HasState(React(Some(room), s, roomId, cmd, now).toSelf) <==> Admits(room, cmd)
  {
    var re := ReactJoin(Some(room), s, roomId, cmd, now);
    assert |re.toSelf| == 1;
    assert HasState(re.toSelf) <==> re.toSelf[0].RoomStateMsg?;
  }

  lemma JoinIsAcceptedAfterClear(room: RoomData, s: Sid, roomId: string, cmd: Command, now: Time, cleared: Time)
    requires cmd.Join? && HasState(React(Some(room), s, roomId, cmd, now).toSelf)
    ensures HasState(React(Some(RoomSpec.ClearRoom(room, cleared)), s, roomId, cmd, now).toSelf)
  {
    JoinIsAcceptedIff(room, s, roomId, cmd, now);
    JoinIsAcceptedIff(RoomSpec.ClearRoom(room, cleared), s, roomId, cmd, now);
  }

  lemma JoinSeatsJoiner(room: RoomData, s: Sid, roomId: string, cmd: Command, now: Time)
    requires cmd.Join? && HasState(React(Some(room), s, roomId, cmd, now).toSelf)
    ensures cmd.sid in JoinedRoom(Some(room), roomId, cmd, now).seats
  {
  }

  /** A join that answers room_cleared is registered in either case, but it keeps its seat, and settles on a copy of
      the room, exactly when the clearing took the room lock first.  Otherwise it shows the old list, in which it is
      seated, and nothing it was not told of accounts for that. */
  lemma RejoinSurvivesClearIff(room: RoomData, s: Sid, roomId: string, cmd: Command, now: Time, cleared: Time,
                               clearFirst: bool, r: Replica)
    requires RoomSpec.RoomOk(room) && cmd.Join? && HasState(React(Some(room), s, roomId, cmd, now).toSelf)
    ensures var re := JoinAtClear(room, s, roomId, cmd, now, cleared, clearFirst);
            && re.session == cmd.sid != "" && re.room.Some?
            && var after := RoomAfterBoth(room, s, roomId, cmd, now, cleared, clearFirst);
               var settled := ApplyAll(r, [RoomCleared] + re.toSelf);
               && settled.room.Some?
               && (cmd.sid in after.seats <==> clearFirst)
               && (CoherentRuns.Copies(settled, after, NO_DRIFT) <==> clearFirst)
               && (!clearFirst ==>
                     Lists(settled.room.value.participants, cmd.sid) && forall d :: !Mirrors(settled, after, d))
  {
    if clearFirst {
      RejoinAfterClear(room, s, roomId, cmd, now, cleared, r);
    } else {
      RejoinBeforeClear(room, s, roomId, cmd, now, cleared, r);
    }
  }

  lemma RejoinAfterClear(room: RoomData, s: Sid, roomId: string, cmd: Command, now: Time, cleared: Time, r: Replica)
    requires RoomSpec.RoomOk(room) && cmd.Join? && HasState(React(Some(room), s, roomId, cmd, now).toSelf)
    ensures var re := React(Some(RoomSpec.ClearRoom(room, cleared)), s, roomId, cmd, now);
            && re.session == cmd.sid != "" && re.room.Some? && cmd.sid in re.room.value.seats
            && CoherentRuns.Copies(ApplyAll(r, [RoomCleared] + re.toSelf), re.room.value, NO_DRIFT)
  {
    var empty := RoomSpec.ClearRoom(room, cleared);
    RoomSpec.PerformKeepsRoomOk(room, RoomSpec.Event(RoomSpec.OpClear, cleared));
    JoinIsAcceptedAfterClear(room, s, roomId, cmd, now, cleared);
    JoinSendsState(Some(empty), s, roomId, cmd, now);
    JoinSeatsJoiner(empty, s, roomId, cmd, now);
    var re := React(Some(empty), s, roomId, cmd, now);
    ApplyAllConcat(r, [RoomCleared], re.toSelf);
    JoinerIsSynced(Some(empty), s, roomId, cmd, now, ApplyAll(r, [RoomCleared]));
    JoinerSeesCards(Some(empty), s, roomId, cmd, now, ApplyAll(r, [RoomCleared]));
  }

  lemma RejoinBeforeClear(room: RoomData, s: Sid, roomId: string, cmd: Command, now: Time, cleared: Time, r: Replica)
    requires RoomSpec.RoomOk(room) && cmd.Join? && HasState(React(Some(room), s, roomId, cmd, now).toSelf)
    ensures var re := React(Some(room), s, roomId, cmd, now);
            && re.session == cmd.sid != "" && re.room.Some?
            && var after, settled := RoomSpec.ClearRoom(re.room.value, cleared), ApplyAll(r, [RoomCleared] + re.toSelf);
               && settled.room.Some? && Lists(settled.room.value.participants, cmd.sid)
               && cmd.sid !in after.seats && forall d :: !Mirrors(settled, after, d)
  {
    var joined, re := JoinedRoom(Some(room), roomId, cmd, now), React(Some(room), s, roomId, cmd, now);
    ReactKeepsRoomOk(Some(room), s, roomId, cmd, now);
    JoinSendsState(Some(room), s, roomId, cmd, now);
    JoinSeatsJoiner(room, s, roomId, cmd, now);
    RoomSpec.RoomIsKeyed(re.room.value);
    ListsWhomItSeats(joined, now, cmd.sid);
    StateOverwrites(r, [RoomCleared], joined, now);
    ListedMeansSeated(Overtaken(r, [RoomCleared], joined, now), RoomSpec.ClearRoom(re.room.value, cleared), cmd.sid);
  }

  lemma ListedMeansSeated(r: Replica, room: RoomData, t: Sid)
    requires r.room.Some? && Lists(r.room.value.participants, t) && t !in room.seats
    ensures forall d :: !Mirrors(r, room, d)
  {
    var ps := r.room.value.participants;
    var i :| 0 <= i < |ps| && ps[i].sessionId == t;
  }
}
