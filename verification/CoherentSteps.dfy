/** One handler at a time: its messages carry a browser's copy from mirroring the old room to mirroring
    the new one. */
module CoherentSteps {
  import opened Common
  import opened Names
  import opened RoomTypes
  import RoomSpec
  import Stats
  import opened Protocol
  import opened Replica
  import opened Coherence

  /** The session whose seat a command from session `s` may rewrite. */
  function Subject(s: Sid, cmd: Command): Sid { if cmd.Join? then cmd.sid else s }

  /** The command is a rename, or a role change, that is carried out and announced. */
  predicate Renames(before: RoomData, s: Sid, cmd: Command) {
    cmd.UpdateName? && s != "" && s in before.seats && RoomSpec.StoredName(cmd.name).Some?
  }

  predicate ChangesRole(before: RoomData, s: Sid, cmd: Command) {
    cmd.UpdateRole? && s != "" && s in before.seats && cmd.newRole.RoleField?
  }

  /** What stays wrong about session `t` when its seat goes from `was` to `now`: an announced name or role is
      right from then on, a vote that is retracted is announced, anything else is shown as before. */
  function SeatDrift(d: Drift, t: Sid, was: Seat, now: Seat, renamed: bool, roleTold: bool, voting: bool): Drift {
    var name := if renamed then now.name else ShownName(d, t, was);
    var role := if roleTold then now.role else ShownRole(d, t, was);
    var flagged := ShownFlag(d, t, was) && !(voting && was.vote != Blank);
    Drift(if name == now.name then d.names - {t} else d.names[t := name],
          if role == now.role then d.roles - {t} else d.roles[t := role],
          if flagged && now.vote == Blank then d.votes + {t} else d.votes - {t})
  }

  /** The drift after a command from session `s`: a new round takes every flag away, somebody who leaves or comes
      is shown rightly, and otherwise only the subject of the command is concerned. */
  function DriftAfter(d: Drift, before: RoomData, s: Sid, cmd: Command, after: RoomData): Drift {
    var t := Subject(s, cmd);
    if before.phase == PhaseReveal && after.phase == PhaseVoting then d.(votes := {})
    else if t !in before.seats || t !in after.seats then Forget(d, t)
    else SeatDrift(d, t, before.seats[t], after.seats[t],
                   Renames(before, s, cmd), ChangesRole(before, s, cmd), cmd.Vote?)
  }

  lemma ApplyOne(r: Replica, m: Message)
    ensures ApplyAll(r, [m]) == Apply(r, m)
  {
    assert [m][..0] == [];
    assert ApplyAll(r, [m][..0]) == r;
  }

  lemma ApplyTwo(r: Replica, m: Message, n: Message)
    ensures ApplyAll(r, [m, n]) == Apply(Apply(r, m), n)
  {
    assert [m, n][..1] == [m];
    ApplyOne(r, m);
  }

  /** The messages to the other clients carry the copy `r` of `room` over to the room the handler leaves. */
  ghost predicate Carried(re: Reaction, room: RoomData, s: Sid, cmd: Command, r: Replica, d: Drift) {
    re.room.Some? && Mirrors(ApplyAll(r, re.toOthers), re.room.value, DriftAfter(d, room, s, cmd, re.room.value))
  }

  /** If the command seats somebody, the newcomer sorts last. */
  ghost predicate InOrder(room: RoomData, cmd: Command, now: Time) {
    cmd.Join? && Admits(room, cmd) && cmd.sid !in room.seats ==> ArrivesLast(room.seats, cmd.sid, now)
  }

  lemma SeatDriftStaysElsewhere(d: Drift, t: Sid, was: Seat, now: Seat, renamed: bool, roleTold: bool, voting: bool)
    ensures SameElsewhere(d, SeatDrift(d, t, was, now, renamed, roleTold, voting), t)
  {
  }

  lemma SeatDriftIsOk(d: Drift, seats: Seats, t: Sid, now: Seat, renamed: bool, roleTold: bool, voting: bool)
    requires DriftOk(d, seats) && t in seats
    ensures DriftOk(SeatDrift(d, t, seats[t], now, renamed, roleTold, voting), seats[t := now])
  {
  }

  lemma SameLooksKeepDrift(d: Drift, seats: Seats, t: Sid, now: Seat, voting: bool)
    requires DriftOk(d, seats) && t in seats
    requires now.name == seats[t].name && now.role == seats[t].role && now.vote == seats[t].vote
    ensures SeatDrift(d, t, seats[t], now, false, false, voting) == d
  {
  }

  /** A command that changes no seat and announces nothing about one leaves the drift alone. */
  lemma SameSeatsKeepDrift(d: Drift, room: RoomData, s: Sid, cmd: Command, after: RoomData)
    requires DriftOk(d, room.seats) && after.seats == room.seats
    requires !(room.phase == PhaseReveal && after.phase == PhaseVoting)
    requires !Renames(room, s, cmd) && !ChangesRole(room, s, cmd)
    ensures DriftAfter(d, room, s, cmd, after) == d
  {
    var t := Subject(s, cmd);
    if t in room.seats {
      SameLooksKeepDrift(d, room.seats, t, room.seats[t], cmd.Vote?);
    } else {
      ForgetIsOk(d, room.seats, t);
    }
  }

  /** The update brings every entry that agreed with the old seat into agreement with the new one. */
  ghost predicate Carries(update: Peer -> Peer, t: Sid, was: Seat, d: Drift, now: Seat, d': Drift) {
    && (forall p: Peer :: update(p).sessionId == p.sessionId)
    && (forall p: Peer :: p.sessionId == t && Agrees(p, was, d) ==> Agrees(update(p), now, d'))
  }

  function WithList(r: Replica, ps: seq<Peer>): Replica
    requires r.room.Some?
  {
    r.(room := Some(r.room.value.(participants := ps)))
  }

  /** A copy of which only the list changed mirrors a room of which only the seats changed, if the two match. */
  lemma NewListMirrors(r: Replica, room: RoomData, d: Drift, ps: seq<Peer>, after: RoomData, d': Drift)
    requires Mirrors(r, room, d) && after == room.(seats := after.seats, lastActivity := after.lastActivity)
    requires Matches(ps, after.seats, d')
    ensures Mirrors(WithList(r, ps), after, d')
  {
  }

  /** A copy whose list is updated follows a room in which the subject's seat is rewritten. */
  lemma SeatUpdateMirrors(r: Replica, room: RoomData, s: Sid, cmd: Command, d: Drift, r': Replica, after: RoomData,
                          t: Sid, seat: Seat, update: Peer -> Peer)
    requires Mirrors(r, room, d) && t == Subject(s, cmd) && t in room.seats
    requires after == room.(seats := room.seats[t := seat], lastActivity := after.lastActivity)
    requires seat.joinedAt == room.seats[t].joinedAt
    requires r' == WithList(r, UpdatePeer(r.room.value.participants, t, update))
    requires Carries(update, t, room.seats[t], d, seat, DriftAfter(d, room, s, cmd, after))
    ensures Mirrors(r', after, DriftAfter(d, room, s, cmd, after))
  {
    SeatDriftIsOk(d, room.seats, t, seat, Renames(room, s, cmd), ChangesRole(room, s, cmd), cmd.Vote?);
    SeatDriftStaysElsewhere(d, t, room.seats[t], seat, Renames(room, s, cmd), ChangesRole(room, s, cmd), cmd.Vote?);
    var ps, d' := r.room.value.participants, DriftAfter(d, room, s, cmd, after);
    UpdateMatches(ps, room.seats, d, t, update, seat, d');
    NewListMirrors(r, room, d, UpdatePeer(ps, t, update), after, d');
  }

  /** A command refused without touching the room or telling anyone. */
  lemma RefusedFollows(r: Replica, room: RoomData, s: Sid, cmd: Command, d: Drift)
    requires Mirrors(r, room, d) && !Renames(room, s, cmd) && !ChangesRole(room, s, cmd)
    ensures Mirrors(r, room, DriftAfter(d, room, s, cmd, room))
  {
    SameSeatsKeepDrift(d, room, s, cmd, room);
  }

  lemma CastMirrors(room: RoomData, s: Sid, value: Card, after: RoomData, r: Replica, d: Drift)
    requires Mirrors(r, room, d) && s in room.seats && value != Blank
    requires after == room.(seats := room.seats[s := room.seats[s].(vote := value)], lastActivity := after.lastActivity)
    ensures Mirrors(Apply(r, VoteCast(s)), after, DriftAfter(d, room, s, Vote(value), after))
  {
    SeatUpdateMirrors(r, room, s, Vote(value), d, Apply(r, VoteCast(s)), after, s, after.seats[s],
                      Flagged(true));
  }

  lemma RetractMirrors(room: RoomData, s: Sid, after: RoomData, r: Replica, d: Drift)
    requires Mirrors(r, room, d) && RoomSpec.HasVoted(room, s)
    requires after == room.(seats := room.seats[s := room.seats[s].(vote := Blank)], lastActivity := after.lastActivity)
    ensures Mirrors(Apply(r, VoteRetracted(s)), after, DriftAfter(d, room, s, Vote(Blank), after))
  {
    SeatUpdateMirrors(r, room, s, Vote(Blank), d, Apply(r, VoteRetracted(s)), after, s, after.seats[s],
                      Flagged(false));
  }

  lemma BlankAgainMirrors(room: RoomData, s: Sid, after: RoomData, r: Replica, d: Drift)
    requires Mirrors(r, room, d) && s in room.seats && room.seats[s].vote == Blank
    requires after == room.(seats := room.seats[s := room.seats[s].(vote := Blank)], lastActivity := after.lastActivity)
    ensures Mirrors(r, after, DriftAfter(d, room, s, Vote(Blank), after))
  {
    assert after.seats == room.seats;
    SameSeatsKeepDrift(d, room, s, Vote(Blank), after);
  }

  lemma VoteFollows(room: RoomData, s: Sid, value: Card, now: Time, r: Replica, d: Drift)
    requires Mirrors(r, room, d)
    ensures Carried(ReactVote(room, s, value, now), room, s, Vote(value), r, d)
  {
    var step := RoomSpec.CastVote(room, s, value, now);
    if step.outcome.Refused? {
      RefusedFollows(r, room, s, Vote(value), d);
    } else if value != Blank {
      ApplyOne(r, VoteCast(s));
      CastMirrors(room, s, value, step.room, r, d);
    } else if RoomSpec.HasVoted(room, s) {
      ApplyOne(r, VoteRetracted(s));
      RetractMirrors(room, s, step.room, r, d);
    } else {
      BlankAgainMirrors(room, s, step.room, r, d);
    }
  }

  lemma RevealedMirrors(r: Replica, room: RoomData, s: Sid, d: Drift, result: RoundResult, after: RoomData)
    requires Mirrors(r, room, d) && after == room.(phase := PhaseReveal, lastActivity := after.lastActivity)
    ensures Mirrors(Apply(r, VotesRevealed(result)), after, DriftAfter(d, room, s, Reveal, after))
  {
    SameSeatsKeepDrift(d, room, s, Reveal, after);
    VotesShownMatch(r.room.value.participants, room.seats, d, result.votes);
  }

  lemma RevealFollows(room: RoomData, s: Sid, now: Time, r: Replica, d: Drift)
    requires Mirrors(r, room, d)
    ensures Carried(ReactReveal(room, s, now), room, s, Reveal, r, d)
  {
    var step := RoomSpec.Reveal(room, now);
    if step.outcome.Refused? {
      RefusedFollows(r, room, s, Reveal, d);
    } else {
      var result := Stats.Summarize(Stats.Ballot(room.seats));
      ApplyOne(r, VotesRevealed(result));
      RevealedMirrors(r, room, s, d, result, step.room);
    }
  }

  lemma ReadKeepsMirror(r: Replica, room: RoomData, d: Drift, now: Time)
    requires Mirrors(r, room, d)
    ensures Mirrors(r, RoomSpec.TimerInfo(room, now), d)
  {
  }

  lemma ReadKeepsDrift(d: Drift, before: RoomData, s: Sid, cmd: Command, after: RoomData, now: Time)
    ensures DriftAfter(d, before, s, cmd, RoomSpec.TimerInfo(after, now)) == DriftAfter(d, before, s, cmd, after)
  {
  }

  lemma NewRoundFollows(room: RoomData, s: Sid, now: Time, r: Replica, d: Drift)
    requires RoomSpec.RoomOk(room) && Mirrors(r, room, d)
    ensures Carried(ReactNewRound(room, s, now), room, s, NewRound, r, d)
  {
    var re := ReactNewRound(room, s, now);
    if re.toOthers == [] {
      ReadKeepsMirror(r, room, d, now);
      SameSeatsKeepDrift(d, room, s, NewRound, re.room.value);
    } else {
      ResetMirrors(r, room, d, re.room.value, re.toOthers[1].timer);
      ApplyTwo(r, RoundReset, re.toOthers[1]);
    }
  }

  lemma ResetMirrors(r: Replica, room: RoomData, d: Drift, after: RoomData, timer: TimerPayload)
    requires Mirrors(r, room, d) && TimersMatch(timer, after.timer)
    requires after == room.(seats := RoomSpec.WithoutVotes(room.seats), phase := PhaseVoting, timer := after.timer,
                            lastActivity := after.lastActivity)
    ensures Mirrors(Apply(Apply(r, RoundReset), TimerUpdated(timer)), after, d.(votes := {}))
  {
    ResetMatches(r.room.value.participants, room.seats, d);
  }

  lemma RenamedMirrors(room: RoomData, s: Sid, cmd: Command, stored: Text, after: RoomData, r: Replica, d: Drift)
    requires Mirrors(r, room, d) && Renames(room, s, cmd)
    requires after == room.(seats := room.seats[s := room.seats[s].(name := stored)],
                            lastActivity := after.lastActivity)
    ensures Mirrors(Apply(r, NameUpdated(s, stored)), after, DriftAfter(d, room, s, cmd, after))
  {
    SeatUpdateMirrors(r, room, s, cmd, d, Apply(r, NameUpdated(s, stored)), after, s, after.seats[s],
                      Named(stored));
  }

  lemma NameFollows(room: RoomData, s: Sid, name: Text, now: Time, r: Replica, d: Drift)
    requires Mirrors(r, room, d) && s != ""
    ensures Carried(ReactName(room, s, name, now), room, s, UpdateName(name), r, d)
  {
    var step := RoomSpec.UpdateName(room, s, name, now);
    if step.outcome.Refused? {
      RefusedFollows(r, room, s, UpdateName(name), d);
    } else {
      var stored := step.room.seats[s].name;
      ApplyOne(r, NameUpdated(s, stored));
      RenamedMirrors(room, s, UpdateName(name), stored, step.room, r, d);
    }
  }

  /** A new status for one session, its seat otherwise showing the same. */
  lemma StatusMatches(ps: seq<Peer>, seats: Seats, d: Drift, t: Sid, status: Status, seat: Seat)
    requires Matches(ps, seats, d) && t in seats && seat.joinedAt == seats[t].joinedAt
    requires InfoOf(seat) == InfoOf(seats[t]).(status := status)
    ensures Matches(UpdatePeer(ps, t, AtStatus(status)), seats[t := seat], d)
  {
    UpdateMatches(ps, seats, d, t, AtStatus(status), seat, d);
  }

  /** A command that changes nothing a list shows but the subject's status. */
  lemma StatusKeepsDrift(d: Drift, room: RoomData, s: Sid, cmd: Command, after: RoomData)
    requires DriftOk(d, room.seats) && cmd.Presence? && s in room.seats && s in after.seats && after.phase == room.phase
    requires InfoOf(after.seats[s]) == InfoOf(room.seats[s]).(status := after.seats[s].status)
    requires after.seats[s].vote == room.seats[s].vote
    ensures DriftAfter(d, room, s, cmd, after) == d
  {
    SameLooksKeepDrift(d, room.seats, s, after.seats[s], false);
  }

  /** Announcing a status carries a copy over whenever its list then matches the new seats. */
  lemma AnnouncedStatusMirrors(r: Replica, room: RoomData, d: Drift, t: Sid, status: Status, after: RoomData, d': Drift)
    requires Mirrors(r, room, d) && after == room.(seats := after.seats, lastActivity := after.lastActivity)
    requires Matches(UpdatePeer(r.room.value.participants, t, AtStatus(status)), after.seats, d')
    ensures Mirrors(Apply(r, PresenceChanged(t, status)), after, d')
  {
    var ps := UpdatePeer(r.room.value.participants, t, AtStatus(status));
    NewListMirrors(r, room, d, ps, after, d');
    assert Apply(r, PresenceChanged(t, status)) == WithList(r, ps);
  }

  lemma PresentMirrors(room: RoomData, s: Sid, cmd: Command, status: Status, seat: Seat, after: RoomData, r: Replica,
                       d: Drift)
    requires Mirrors(r, room, d) && cmd.Presence? && s in room.seats
    requires seat == room.seats[s].(status := status, lastPing := seat.lastPing)
    requires after == room.(seats := room.seats[s := seat], lastActivity := after.lastActivity)
    ensures Mirrors(Apply(r, PresenceChanged(s, status)), after, DriftAfter(d, room, s, cmd, after))
  {
    var ps := r.room.value.participants;
    StatusKeepsDrift(d, room, s, cmd, after);
    StatusMatches(ps, room.seats, d, s, status, seat);
    AnnouncedStatusMirrors(r, room, d, s, status, after, d);
  }

  lemma PresenceFollows(room: RoomData, s: Sid, status: StatusField, now: Time, r: Replica, d: Drift)
    requires Mirrors(r, room, d)
    ensures Carried(ReactPresence(room, s, status, now), room, s, Presence(status), r, d)
  {
    var step := RoomSpec.UpdatePresence(room, s, status, now);
    if step.outcome.Refused? {
      RefusedFollows(r, room, s, Presence(status), d);
    } else {
      ApplyOne(r, PresenceChanged(s, status.status));
      PresentMirrors(room, s, Presence(status), status.status, step.room.seats[s], step.room, r, d);
    }
  }

  lemma RoleToldMirrors(room: RoomData, s: Sid, cmd: Command, role: Role, after: RoomData, r: Replica, d: Drift)
    requires Mirrors(r, room, d) && ChangesRole(room, s, cmd)
    requires after == room.(seats := room.seats[s := RoomSpec.WithRole(room.seats[s], role)],
                            lastActivity := after.lastActivity)
    ensures Mirrors(Apply(r, RoleUpdated(s, role)), after, DriftAfter(d, room, s, cmd, after))
  {
    SeatUpdateMirrors(r, room, s, cmd, d, Apply(r, RoleUpdated(s, role)), after, s, after.seats[s],
                      InRole(role));
  }

  lemma RoleFollows(room: RoomData, s: Sid, role: RoleField, now: Time, r: Replica, d: Drift)
    requires Mirrors(r, room, d) && s != ""
    ensures Carried(ReactRole(room, s, role, now), room, s, UpdateRole(role), r, d)
  {
    var step := RoomSpec.UpdateRole(room, s, role, now);
    if step.outcome.Refused? {
      RefusedFollows(r, room, s, UpdateRole(role), d);
    } else {
      ApplyOne(r, RoleUpdated(s, role.role));
      RoleToldMirrors(room, s, UpdateRole(role), role.role, step.room, r, d);
    }
  }

  lemma TimerToldMirrors(r: Replica, room: RoomData, d: Drift, timer: TimerPayload, after: RoomData)
    requires Mirrors(r, room, d) && TimersMatch(timer, after.timer)
    requires after == room.(timer := after.timer, lastActivity := after.lastActivity)
    ensures Mirrors(Apply(r, TimerUpdated(timer)), after, d)
  {
  }

  lemma TimerFollows(room: RoomData, s: Sid, cmd: Command, step: RoomSpec.Step, now: Time, r: Replica, d: Drift)
    requires Mirrors(r, room, d) && !cmd.Join? && !cmd.UpdateName? && !cmd.UpdateRole?
    requires step.room == room.(timer := step.room.timer, lastActivity := step.room.lastActivity)
    requires step.outcome.Refused? ==> step.room == room
    ensures Carried(ReactTimer(room, s, step, now), room, s, cmd, r, d)
  {
    var re := ReactTimer(room, s, step, now);
    SameSeatsKeepDrift(d, room, s, cmd, re.room.value);
    if step.outcome.Done? {
      ApplyOne(r, re.toOthers[0]);
      TimerToldMirrors(r, room, d, re.toOthers[0].timer, re.room.value);
    }
  }

  lemma LeftMirrors(room: RoomData, s: Sid, after: RoomData, r: Replica, d: Drift)
    requires Mirrors(r, room, d)
    requires after == room.(seats := room.seats - {s}, lastActivity := after.lastActivity)
    ensures Mirrors(Apply(r, ParticipantLeft(s)), after, DriftAfter(d, room, s, Leave, after))
  {
    LeaveMatches(r.room.value.participants, room.seats, d, s);
    NewListMirrors(r, room, d, Without(r.room.value.participants, s), after, Forget(d, s));
  }

  lemma LeaveFollows(room: RoomData, s: Sid, now: Time, r: Replica, d: Drift)
    requires Mirrors(r, room, d)
    ensures Carried(ReactLeave(room, s, now), room, s, Leave, r, d)
  {
    var after := RoomSpec.Leave(room, s, now).room;
    ApplyOne(r, ParticipantLeft(s));
    assert room.seats - {s} == after.seats;
    LeftMirrors(room, s, after, r, d);
  }

  /** A rejoin is announced as nothing but a new status. */
  lemma RejoinedMatches(ps: seq<Peer>, seats: Seats, d: Drift, t: Sid, seat: Seat)
    requires Matches(ps, seats, d) && t in seats && seat.status == Active && seat.joinedAt == seats[t].joinedAt
    requires seat.vote == seats[t].vote || seat.vote == Blank
    ensures Matches(UpdatePeer(ps, t, AtStatus(Active)), seats[t := seat],
                    SeatDrift(d, t, seats[t], seat, false, false, false))
  {
    SeatDriftIsOk(d, seats, t, seat, false, false, false);
    SeatDriftStaysElsewhere(d, t, seats[t], seat, false, false, false);
    UpdateMatches(ps, seats, d, t, AtStatus(Active), seat,
                  SeatDrift(d, t, seats[t], seat, false, false, false));
  }

  lemma RejoinDrift(d: Drift, room: RoomData, s: Sid, cmd: Command, seat: Seat, after: RoomData)
    requires cmd.Join? && cmd.sid in room.seats
    requires after.seats == room.seats[cmd.sid := seat] && after.phase == room.phase
    ensures DriftAfter(d, room, s, cmd, after) == SeatDrift(d, cmd.sid, room.seats[cmd.sid], seat, false, false, false)
  {
  }

  lemma RejoinedMirrors(room: RoomData, t: Sid, seat: Seat, after: RoomData, r: Replica, d: Drift)
    requires Mirrors(r, room, d) && t in room.seats
    requires seat.status == Active && seat.joinedAt == room.seats[t].joinedAt
    requires seat.vote == room.seats[t].vote || seat.vote == Blank
    requires after == room.(seats := room.seats[t := seat], lastActivity := after.lastActivity)
    ensures Mirrors(Apply(r, PresenceChanged(t, Active)), after,
                    SeatDrift(d, t, room.seats[t], seat, false, false, false))
  {
    var ps := r.room.value.participants;
    RejoinedMatches(ps, room.seats, d, t, seat);
    AnnouncedStatusMirrors(r, room, d, t, Active, after, SeatDrift(d, t, room.seats[t], seat, false, false, false));
  }

  lemma RejoinMirrors(room: RoomData, s: Sid, cmd: Command, name: Text, role: Role, now: Time, r: Replica, d: Drift)
    requires Mirrors(r, room, d) && cmd.Join? && cmd.sid in room.seats
    ensures var after := RoomSpec.Admit(room, cmd.sid, name, role, now).room;
            Mirrors(Apply(r, PresenceChanged(cmd.sid, Active)), after, DriftAfter(d, room, s, cmd, after))
  {
    var after := RoomSpec.Admit(room, cmd.sid, name, role, now).room;
    RejoinedMirrors(room, cmd.sid, after.seats[cmd.sid], after, r, d);
    RejoinDrift(d, room, s, cmd, after.seats[cmd.sid], after);
  }

  lemma FirstJoinMirrors(room: RoomData, s: Sid, cmd: Command, name: Text, role: Role, now: Time, r: Replica, d: Drift)
    requires RoomSpec.RoomOk(room) && Mirrors(r, room, d) && cmd.Join? && cmd.sid !in room.seats
    requires ArrivesLast(room.seats, cmd.sid, now) && |room.seats| < MAX_PARTICIPANTS
    ensures var after := RoomSpec.Admit(room, cmd.sid, name, role, now).room;
            Mirrors(Apply(r, ParticipantJoined(cmd.sid, name, Active, role)), after, DriftAfter(d, room, s, cmd, after))
  {
    AppendMatchesIffLast(r.room.value.participants, room.seats, d, cmd.sid, name, role, now);
    ForgetIsOk(d, room.seats, cmd.sid);
  }

  /** What a join amounts to once its checks are done. */
  ghost predicate JoinOutcome(re: Reaction, room: RoomData, cmd: Command, name: Text, role: Role, now: Time)
    requires cmd.Join?
  {
    var step := RoomSpec.Admit(room, cmd.sid, name, role, now);
    && Admits(room, cmd) && step.outcome.Done?
    && re.room == Some(RoomSpec.TimerInfo(step.room, now))
    && re.toOthers == [if cmd.sid in room.seats then PresenceChanged(cmd.sid, Active)
                       else ParticipantJoined(cmd.sid, name, Active, role)]
  }

  lemma JoinCases(room: RoomData, s: Sid, roomId: string, cmd: Command, now: Time)
    requires cmd.Join?
    ensures var re := ReactJoin(Some(room), s, roomId, cmd, now);
            || (re.room == Some(room) && re.toOthers == [])
            || (var stored, role := RoomSpec.StoredName(cmd.userName), RoomSpec.JoinRole(cmd.role);
                stored.Some? && role.Some? && JoinOutcome(re, room, cmd, stored.value, role.value, now))
  {
  }

  lemma JoinCarries(re: Reaction, room: RoomData, s: Sid, cmd: Command, name: Text, role: Role, now: Time,
                    r: Replica, d: Drift)
    requires RoomSpec.RoomOk(room) && Mirrors(r, room, d)
    requires cmd.Join? && InOrder(room, cmd, now) && JoinOutcome(re, room, cmd, name, role, now)
    ensures Carried(re, room, s, cmd, r, d)
  {
    AdmitMirrors(room, s, cmd, name, role, now, r, d, re.toOthers[0]);
    ApplyOne(r, re.toOthers[0]);
  }

  lemma NothingCarries(re: Reaction, room: RoomData, s: Sid, cmd: Command, r: Replica, d: Drift)
    requires Mirrors(r, room, d) && !Renames(room, s, cmd) && !ChangesRole(room, s, cmd)
    requires re.room == Some(room) && re.toOthers == []
    ensures Carried(re, room, s, cmd, r, d)
  {
    RefusedFollows(r, room, s, cmd, d);
  }

  lemma JoinFollows(room: RoomData, s: Sid, roomId: string, cmd: Command, now: Time, r: Replica, d: Drift)
    requires RoomSpec.RoomOk(room) && Mirrors(r, room, d)
    requires cmd.Join? && InOrder(room, cmd, now)
    ensures Carried(ReactJoin(Some(room), s, roomId, cmd, now), room, s, cmd, r, d)
  {
    var re := ReactJoin(Some(room), s, roomId, cmd, now);
    JoinCases(room, s, roomId, cmd, now);
    if re.room == Some(room) && re.toOthers == [] {
      NothingCarries(re, room, s, cmd, r, d);
    } else {
      var stored, role := RoomSpec.StoredName(cmd.userName), RoomSpec.JoinRole(cmd.role);
      JoinCarries(re, room, s, cmd, stored.value, role.value, now, r, d);
    }
  }

  lemma AdmitMirrors(room: RoomData, s: Sid, cmd: Command, name: Text, role: Role, now: Time, r: Replica, d: Drift,
                     m: Message)
    requires RoomSpec.RoomOk(room) && Mirrors(r, room, d) && cmd.Join? && InOrder(room, cmd, now)
    requires Admits(room, cmd) && RoomSpec.Admit(room, cmd.sid, name, role, now).outcome.Done?
    requires m == if cmd.sid in room.seats then PresenceChanged(cmd.sid, Active)
                  else ParticipantJoined(cmd.sid, name, Active, role)
    ensures var after := RoomSpec.TimerInfo(RoomSpec.Admit(room, cmd.sid, name, role, now).room, now);
            Mirrors(Apply(r, m), after, DriftAfter(d, room, s, cmd, after))
  {
    var after := RoomSpec.Admit(room, cmd.sid, name, role, now).room;
    if cmd.sid in room.seats {
      RejoinMirrors(room, s, cmd, name, role, now, r, d);
    } else {
      FirstJoinMirrors(room, s, cmd, name, role, now, r, d);
    }
    ReadKeepsMirror(Apply(r, m), after, DriftAfter(d, room, s, cmd, after), now);
    ReadKeepsDrift(d, room, s, cmd, after, now);
  }

  /** The commuting square of one handler: its messages for the other clients, applied to a copy of the
      old room, give a copy of the new one.  Only clearing the room breaks it. */
  lemma OthersFollow(room: RoomData, s: Sid, roomId: string, cmd: Command, now: Time, r: Replica, d: Drift)
    requires RoomSpec.RoomOk(room) && Mirrors(r, room, d) && InOrder(room, cmd, now)
    requires RoomCleared !in React(Some(room), s, roomId, cmd, now).toOthers
    ensures Carried(React(Some(room), s, roomId, cmd, now), room, s, cmd, r, d)
  {
    var re := React(Some(room), s, roomId, cmd, now);
    if cmd.Join? {
      JoinFollows(room, s, roomId, cmd, now, r, d);
    } else if cmd.Malformed? || s == "" {
      RefusedFollows(r, room, s, cmd, d);
    } else {
      match cmd {
        case Vote(value) => VoteFollows(room, s, value, now, r, d);
        case Reveal => RevealFollows(room, s, now, r, d);
        case NewRound => NewRoundFollows(room, s, now, r, d);
        case ClearRoom => assert false;
        case UpdateName(name) => NameFollows(room, s, name, now, r, d);
        case Presence(status) => PresenceFollows(room, s, status, now, r, d);
        case UpdateRole(role) => RoleFollows(room, s, role, now, r, d);
        case TimerSetDuration(t) => TimerFollows(room, s, cmd, RoomSpec.SetTimerDuration(room, t, now), now, r, d);
        case TimerStart => TimerFollows(room, s, cmd, RoomSpec.StartTimer(room, now), now, r, d);
        case TimerReset => TimerFollows(room, s, cmd, RoomSpec.ResetTimer(room, now), now, r, d);
        case Leave => LeaveFollows(room, s, now, r, d);
      }
    }
  }

  /** The acting client's own messages: a room_state after a successful join, otherwise what everyone
      else gets or a single error. */
  lemma OwnMessages(room: Option<RoomData>, s: Sid, roomId: string, cmd: Command, now: Time)
    ensures var re := React(room, s, roomId, cmd, now);
            || re.toSelf == re.toOthers
            || (exists code :: re.toSelf == [ErrorMsg(code)] && re.toOthers == [])
            || re.session == ""
            || (cmd.Join? && |re.toSelf| == 1 && re.toSelf[0].RoomStateMsg?)
  {
  }

  ghost predicate HasState(ms: seq<Message>) { exists i :: 0 <= i < |ms| && ms[i].RoomStateMsg? }

  function JoinedRoom(room: Option<RoomData>, roomId: string, cmd: Command, now: Time): RoomData
    requires cmd.Join?
  {
    var r := if room.Some? then room.value else RoomSpec.NewRoom(roomId, RoomNameFor(cmd), cmd.userName, now);
    RoomSpec.Join(r, cmd.sid, cmd.userName, cmd.role, now).room
  }

  lemma OthersGetNoState(room: Option<RoomData>, s: Sid, roomId: string, cmd: Command, now: Time)
    ensures !HasState(React(room, s, roomId, cmd, now).toOthers)
  {
  }

  lemma OnlyJoinSendsState(room: Option<RoomData>, s: Sid, roomId: string, cmd: Command, now: Time)
    ensures HasState(React(room, s, roomId, cmd, now).toSelf) ==> cmd.Join?
  {
    OthersGetNoState(room, s, roomId, cmd, now);
  }

  lemma JoinSendsState(room: Option<RoomData>, s: Sid, roomId: string, cmd: Command, now: Time)
    requires cmd.Join?
    ensures var re := ReactJoin(room, s, roomId, cmd, now);
            var joined := JoinedRoom(room, roomId, cmd, now);
            HasState(re.toSelf) ==>
              && re.session == cmd.sid && cmd.sid != ""
              && re.toSelf == [RoomStateMsg(StateOf(joined, now))]
              && re.room == Some(RoomSpec.TimerInfo(joined, now))
  {
  }

  /** A successful join leaves the joining client with an exact copy, whatever it showed before. */
  lemma JoinerIsSynced(room: Option<RoomData>, s: Sid, roomId: string, cmd: Command, now: Time, r: Replica)
    requires room.Some? ==> RoomSpec.RoomOk(room.value)
    requires HasState(React(room, s, roomId, cmd, now).toSelf)
    ensures var re := React(room, s, roomId, cmd, now);
            re.room.Some? && Mirrors(ApplyAll(r, re.toSelf), re.room.value, NO_DRIFT)
  {
    ReactKeepsRoomOk(room, s, roomId, cmd, now);
    OnlyJoinSendsState(room, s, roomId, cmd, now);
    JoinSendsState(room, s, roomId, cmd, now);
    var joined := JoinedRoom(room, roomId, cmd, now);
    RoomSpec.RoomIsKeyed(React(room, s, roomId, cmd, now).room.value);
    ApplyOne(r, RoomStateMsg(StateOf(joined, now)));
    LoadedStateMirrors(joined, now, r);
  }

  /** The acting client, if it stays joined and was sent no room_state, got what everyone else got or one error. */
  lemma OwnMessagesAreShared(room: Option<RoomData>, s: Sid, roomId: string, cmd: Command, now: Time, r: Replica)
    requires React(room, s, roomId, cmd, now).session != ""
    requires !HasState(React(room, s, roomId, cmd, now).toSelf)
    ensures var re := React(room, s, roomId, cmd, now);
            re.toSelf == re.toOthers || ApplyAll(r, re.toSelf) == ApplyAll(r, re.toOthers)
  {
    OwnMessages(room, s, roomId, cmd, now);
    if code :| React(room, s, roomId, cmd, now).toSelf == [ErrorMsg(code)] {
      ApplyOne(r, ErrorMsg(code));
    }
  }

  lemma SelfFollows(room: RoomData, s: Sid, roomId: string, cmd: Command, now: Time, r: Replica, d: Drift)
    requires RoomSpec.RoomOk(room) && Mirrors(r, room, d) && InOrder(room, cmd, now)
    requires RoomCleared !in React(Some(room), s, roomId, cmd, now).toSelf
    requires React(Some(room), s, roomId, cmd, now).session != ""
    requires !HasState(React(Some(room), s, roomId, cmd, now).toSelf)
    ensures var re := React(Some(room), s, roomId, cmd, now);
            re.room.Some?
            && Mirrors(ApplyAll(r, re.toSelf), re.room.value, DriftAfter(d, room, s, cmd, re.room.value))
  {
    OwnMessagesAreShared(Some(room), s, roomId, cmd, now, r);
    NoClearUnlessAnnounced(Some(room), s, roomId, cmd, now);
    OthersFollow(room, s, roomId, cmd, now, r, d);
  }

  lemma NoClearUnlessAnnounced(room: Option<RoomData>, s: Sid, roomId: string, cmd: Command, now: Time)
    ensures var re := React(room, s, roomId, cmd, now); RoomCleared in re.toOthers ==> RoomCleared in re.toSelf
  {
  }

  /** The announcement of a lost connection. */
  lemma DisconnectFollows(room: RoomData, s: Sid, r: Replica, d: Drift)
    requires Mirrors(r, room, d)
    ensures Mirrors(ApplyAll(r, [PresenceChanged(s, Disconnected)]), RoomSpec.MarkDisconnected(room, s), d)
  {
    ApplyOne(r, PresenceChanged(s, Disconnected));
    DisconnectedMatches(r.room.value.participants, room.seats, d, s);
  }

  lemma DisconnectedMatches(ps: seq<Peer>, seats: Seats, d: Drift, s: Sid)
    requires Matches(ps, seats, d)
    ensures var qs := UpdatePeer(ps, s, AtStatus(Disconnected));
            if s in seats then Matches(qs, seats[s := seats[s].(status := Disconnected)], d) else Matches(qs, seats, d)
  {
    var update := AtStatus(Disconnected);
    if s in seats {
      StatusMatches(ps, seats, d, s, Disconnected, seats[s].(status := Disconnected));
    } else {
      assert UpdatePeer(ps, s, update) == ps;
    }
  }

  // ----- what the drift is for -----

  /** After a rejoin, another client's entry shows the stored name, role and vote flag exactly when the rejoin
      changed neither and gave up no vote: the handler announces only the presence. */
  lemma RejoinIsShownIffUnchanged(room: RoomData, s: Sid, name: Text, role: Role, now: Time, r: Replica, i: nat)
    requires RoomSpec.RoomOk(room) && Mirrors(r, room, NO_DRIFT) && s in room.seats
    requires i < |r.room.value.participants| && r.room.value.participants[i].sessionId == s
    ensures var seat := RoomSpec.Admit(room, s, name, role, now).room.seats[s];
            var shown := Apply(r, PresenceChanged(s, Active)).room.value.participants[i];
            && (shown.userName == seat.name <==> room.seats[s].name == name)
            && (shown.role == seat.role <==> room.seats[s].role == role)
            && (shown.hasVoted == (seat.vote != Blank) <==> room.seats[s].vote == Blank || role == Voter)
  {
    assert Agrees(r.room.value.participants[i], room.seats[s], NO_DRIFT);
  }

  /** After a role change, another client's entry flags the vote correctly exactly when no vote was given up. */
  lemma RoleChangeIsShownIffNoVoteLost(room: RoomData, s: Sid, role: Role, now: Time, r: Replica, i: nat)
    requires RoomSpec.RoomOk(room) && Mirrors(r, room, NO_DRIFT) && s in room.seats
    requires i < |r.room.value.participants| && r.room.value.participants[i].sessionId == s
    ensures var seat := RoomSpec.UpdateRole(room, s, RoleField(role), now).room.seats[s];
            var shown := Apply(r, RoleUpdated(s, role)).room.value.participants[i];
            && shown.role == seat.role
            && (shown.hasVoted == (seat.vote != Blank) <==> room.seats[s].vote == Blank || role == Voter)
  {
    assert Agrees(r.room.value.participants[i], room.seats[s], NO_DRIFT);
  }
}
