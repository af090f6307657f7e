/** The room as the server holds it, updated in place (internal/domain/room.go).  Every method is proved
    to have exactly the effect of the function of the same name in RoomSpec. */
module RoomState {
  import opened Common
  import opened Names
  import opened RoomTypes
  import opened RoomSpec
  import Stats

  class Participant {
    const sessionId: Sid
    var name: Text
    var vote: Card
    var status: Status
    var role: Role
    var lastPing: Time
    const joinedAt: Time

    constructor (sessionId: Sid, name: Text, role: Role, now: Time)
      ensures Value() == Seat(sessionId, name, Blank, Active, role, now, now)
    {
      this.sessionId, this.name, this.role := sessionId, name, role;
      vote, status, lastPing, joinedAt := Blank, Active, now, now;
    }

    function Value(): Seat
      reads this
    {
      Seat(sessionId, name, vote, status, role, lastPing, joinedAt)
    }
  }

  class Room {
    const id: string
    const name: Text
    const createdBy: Text
    var phase: Phase
    var participants: map<Sid, Participant>
    var timer: Timer
    var lastActivity: Time

    ghost function Repr(): set<object>
      reads this`participants
    {
      {this} + participants.Values
    }

    /** Each participant object sits in the map once, under its own session id. */
    ghost predicate Valid()
      reads this`participants, participants.Values
    {
      && (forall s :: s in participants ==> participants[s].sessionId == s)
      && (forall s, t :: s in participants && t in participants && s != t ==> participants[s] != participants[t])
    }

    function Seats(): Seats
      reads this`participants, participants.Values
    {
      map s | s in participants :: participants[s].Value()
    }

    function Data(): RoomData
      reads this, participants.Values
    {
      RoomData(id, name, createdBy, phase, Seats(), timer, lastActivity)
    }

    constructor (id: string, name: Text, createdBy: Text, now: Time)
      ensures Valid() && fresh(Repr())
      ensures Data() == NewRoom(id, name, createdBy, now)
    {
      var clean := SanitizeName(name);
      if |clean| > MAX_ROOM_NAME {
        clean := clean[..MAX_ROOM_NAME];
      }
      this.id, this.name, this.createdBy := id, clean, createdBy;
      phase := PhaseVoting;
      participants := map[];
      timer := Timer(DEFAULT_TIMER_DURATION, TimerIdle, None);
      lastActivity := now;
    }

    /** The seats after one participant object, already in the map, has been written to. */
    twostate lemma SeatWritten(sid: Sid)
      requires old(Valid()) && participants == old(participants) && sid in participants
      requires forall s :: s in participants && s != sid ==> participants[s].Value() == old(participants[s].Value())
      ensures Valid() && Seats() == old(Seats())[sid := participants[sid].Value()]
    {
    }

    /** The seats after a new participant object was put into the map. */
    twostate lemma SeatAdded(sid: Sid, new p: Participant)
      requires old(Valid()) && sid !in old(participants) && p.sessionId == sid
      requires participants == old(participants)[sid := p]
      requires forall s :: s in old(participants) ==>
                 participants[s] != p && participants[s].Value() == old(participants[s].Value())
      ensures Valid() && Seats() == old(Seats())[sid := p.Value()]
    {
    }

    lemma SeatCount()
      ensures |Seats()| == |participants|
    {
      assert Seats().Keys == participants.Keys;
      assert |Seats()| == |Seats().Keys| && |participants| == |participants.Keys|;
    }

    method StoreName(name: Text) returns (stored: Text)
      ensures stored == if StoredName(name).None? then [] else StoredName(name).value
    {
      stored := SanitizeName(name);
      if stored == [] {
        return;
      }
      if |stored| > MAX_PARTICIPANT_NAME {
        stored := stored[..MAX_PARTICIPANT_NAME];
      }
    }

    /** The re-join half of Join: restores a participant under its new name and role. */
    method Rejoin(p: Participant, name: Text, role: Role, now: Time)
      requires Valid() && p.sessionId in participants && participants[p.sessionId] == p
      modifies p, this`lastActivity
      ensures Valid()
      ensures var seat := WithRole(old(p.Value()).(name := name, status := Active, lastPing := now), role);
              Data() == WithSeat(old(Data()), p.sessionId, seat, now)
    {
      p.name := name;
      p.role := role;
      p.status := Active;
      p.lastPing := now;
      if role == Observer {
        p.vote := Blank;
      }
      lastActivity := now;
      SeatWritten(p.sessionId);
    }

    /** The first-time half of Join: a new participant with no vote. */
    method Enter(sessionId: Sid, name: Text, role: Role, now: Time) returns (p: Participant)
      requires Valid() && sessionId !in participants
      modifies this
      ensures Valid() && fresh(p) && participants == old(participants)[sessionId := p]
      ensures Data() == WithSeat(old(Data()), sessionId, Seat(sessionId, name, Blank, Active, role, now, now), now)
    {
      p := new Participant(sessionId, name, role, now);
      participants := participants[sessionId := p];
      lastActivity := now;
      SeatAdded(sessionId, p);
    }

    /** The second half of Join, after its checks of name and role. */
    method Admit(sessionId: Sid, name: Text, role: Role, now: Time)
      returns (participant: Participant?, isNew: bool, outcome: Outcome)
      requires Valid()
      modifies Repr()
      ensures Valid() && fresh(Repr() - old(Repr()))
      ensures var step := RoomSpec.Admit(old(Data()), sessionId, name, role, now);
              Data() == step.room && outcome == step.outcome
      ensures outcome.Done? ==> isNew == (sessionId !in old(participants))
                                && sessionId in participants && participant == participants[sessionId]
    {
      if sessionId in participants {
        participant := participants[sessionId];
        Rejoin(participant, name, role, now);
        return participant, false, Done;
      }
      SeatCount();
      if |participants| >= MAX_PARTICIPANTS {
        return null, false, Refused(RoomFull);
      }
      participant := Enter(sessionId, name, role, now);
      return participant, true, Done;
    }

    /** Adds or re-joins a participant. */
    method Join(sessionId: Sid, name: Text, role: RoleField, now: Time)
      returns (participant: Participant?, isNew: bool, outcome: Outcome)
      requires Valid()
      modifies Repr()
      ensures Valid() && fresh(Repr() - old(Repr()))
      ensures var step := RoomSpec.Join(old(Data()), sessionId, name, role, now);
              Data() == step.room && outcome == step.outcome
      ensures outcome.Done? ==> isNew == (sessionId !in old(participants))
                                && sessionId in participants && participant == participants[sessionId]
    {
      var stored := StoreName(name);
      if stored == [] {
        return null, false, Refused(InvalidName);
      }
      var known := role;
      if known == NoRole {
        known := RoleField(Voter);
      }
      if !known.RoleField? {
        return null, false, Refused(InvalidRole);
      }
      participant, isNew, outcome := Admit(sessionId, stored, known.role, now);
    }

    method Leave(sessionId: Sid, now: Time) returns (existed: bool)
      requires Valid()
      modifies this
      ensures Valid() && Repr() <= old(Repr())
      ensures var step := RoomSpec.Leave(old(Data()), sessionId, now);
              Data() == step.room && existed == step.outcome.Done?
    {
      if sessionId !in participants {
        return false;
      }
      ghost var before := Seats();
      participants := participants - {sessionId};
      lastActivity := now;
      assert Seats() == before - {sessionId};
      return true;
    }

    method UpdateRole(sessionId: Sid, role: RoleField, now: Time) returns (outcome: Outcome)
      requires Valid()
      modifies Repr()
      ensures Valid() && Repr() == old(Repr())
      ensures var step := RoomSpec.UpdateRole(old(Data()), sessionId, role, now);
              Data() == step.room && outcome == step.outcome
    {
      if !role.RoleField? {
        return Refused(InvalidRole);
      }
      if sessionId !in participants {
        return Refused(NotInRoom);
      }
      var p := participants[sessionId];
      p.role := role.role;
      if role.role == Observer {
        p.vote := Blank;
      }
      lastActivity := now;
      SeatWritten(sessionId);
      return Done;
    }

    method CastVote(sessionId: Sid, value: Card, now: Time) returns (outcome: Outcome)
      requires Valid()
      modifies Repr()
      ensures Valid() && Repr() == old(Repr())
      ensures var step := RoomSpec.CastVote(old(Data()), sessionId, value, now);
              Data() == step.room && outcome == step.outcome
    {
      if phase != PhaseVoting {
        return Refused(VotingLocked);
      }
      if !ValidVote(value) {
        return Refused(InvalidCard);
      }
      if sessionId !in participants {
        return Refused(NotInRoom);
      }
      var p := participants[sessionId];
      if p.role == Observer {
        return Refused(ObserversCannotVote);
      }
      p.vote := value;
      lastActivity := now;
      SeatWritten(sessionId);
      return Done;
    }

    lemma SeatsAreKeyed()
      requires Valid()
      ensures Keyed(Seats())
    {
    }

    method Reveal(now: Time) returns (result: Option<RoundResult>, outcome: Outcome)
      requires Valid()
      modifies this
      ensures Valid() && Repr() == old(Repr())
      ensures var step := RoomSpec.Reveal(old(Data()), now);
              Data() == step.room && outcome == step.outcome
      ensures outcome.Done? ==> result == Some(Stats.Summarize(Stats.Ballot(Seats())))
    {
      if phase == PhaseReveal {
        return None, Refused(AlreadyRevealed);
      }
      phase := PhaseReveal;
      lastActivity := now;
      assert Seats() == old(Seats());
      SeatsAreKeyed();
      var r := Stats.CalculateResult(Seats());
      return Some(r), Done;
    }

    /** The loop of NewRound over all participants. */
    method ClearVotes()
      requires Valid()
      modifies participants.Values
      ensures Valid() && Seats() == WithoutVotes(old(Seats()))
    {
      var remaining := participants.Keys;
      while remaining != {}
        invariant remaining <= participants.Keys
        invariant Valid()
        invariant forall s :: s in participants ==>
                    participants[s].Value() == if s in remaining then old(participants[s].Value())
                                               else old(participants[s].Value()).(vote := Blank)
      {
        var s :| s in remaining;
        participants[s].vote := Blank;
        remaining := remaining - {s};
      }
    }

    method NewRound(now: Time) returns (outcome: Outcome)
      requires Valid()
      modifies Repr()
      ensures Valid() && Repr() == old(Repr())
      ensures var step := RoomSpec.NewRound(old(Data()), now);
              Data() == step.room && outcome == step.outcome
    {
      if phase == PhaseVoting {
        return Refused(AlreadyVoting);
      }
      ClearVotes();
      phase := PhaseVoting;
      var _ := ResetTimer(now);
      lastActivity := now;
      assert timer == RoomSpec.ResetTimer(old(Data()), now).room.timer;
      assert Seats() == WithoutVotes(old(Seats()));
      return Done;
    }

    method ClearRoom(now: Time)
      requires Valid()
      modifies this
      ensures Valid() && Repr() == {this}
      ensures Data() == RoomSpec.ClearRoom(old(Data()), now)
    {
      participants := map[];
      phase := PhaseVoting;
      timer := Timer(DEFAULT_TIMER_DURATION, TimerIdle, None);
      lastActivity := now;
    }

    method UpdateName(sessionId: Sid, name: Text, now: Time) returns (outcome: Outcome)
      requires Valid()
      modifies Repr()
      ensures Valid() && Repr() == old(Repr())
      ensures var step := RoomSpec.UpdateName(old(Data()), sessionId, name, now);
              Data() == step.room && outcome == step.outcome
    {
      var stored := StoreName(name);
      if stored == [] {
        return Refused(InvalidName);
      }
      if sessionId !in participants {
        return Refused(NotInRoom);
      }
      participants[sessionId].name := stored;
      lastActivity := now;
      SeatWritten(sessionId);
      return Done;
    }

    method UpdatePresence(sessionId: Sid, status: StatusField, now: Time) returns (outcome: Outcome)
      requires Valid()
      modifies Repr()
      ensures Valid() && Repr() == old(Repr())
      ensures var step := RoomSpec.UpdatePresence(old(Data()), sessionId, status, now);
              Data() == step.room && outcome == step.outcome
    {
      if status != StatusField(Active) && status != StatusField(Idle) {
        return Refused(InvalidStatus);
      }
      if sessionId !in participants {
        return Refused(NotInRoom);
      }
      var p := participants[sessionId];
      p.status := status.status;
      p.lastPing := now;
      lastActivity := now;
      SeatWritten(sessionId);
      return Done;
    }

    predicate HasVoted(sessionId: Sid)
      reads this, participants.Values
      ensures HasVoted(sessionId) == RoomSpec.HasVoted(Data(), sessionId)
    {
      sessionId in participants && participants[sessionId].vote != Blank
    }

    method SetTimerDuration(d: int, now: Time) returns (outcome: Outcome)
      requires Valid()
      modifies this
      ensures Valid() && participants == old(participants)
      ensures var step := RoomSpec.SetTimerDuration(old(Data()), d, now);
              Data() == step.room && outcome == step.outcome
    {
      if timer.state != TimerIdle {
        return Refused(TimerNotIdle);
      }
      if d < MIN_TIMER_DURATION || d > MAX_TIMER_DURATION {
        return Refused(InvalidDuration);
      }
      timer := timer.(duration := d);
      lastActivity := now;
      return Done;
    }

    method StartTimer(now: Time) returns (changed: bool)
      requires Valid()
      modifies this
      ensures Valid() && participants == old(participants)
      ensures var step := RoomSpec.StartTimer(old(Data()), now);
              Data() == step.room && changed == step.outcome.Done?
    {
      if timer.state != TimerIdle {
        return false;
      }
      timer := timer.(state := TimerRunning);
      timer := timer.(startedAt := Some(now));
      lastActivity := now;
      return true;
    }

    method ResetTimer(now: Time) returns (changed: bool)
      requires Valid()
      modifies this`timer, this`lastActivity
      ensures Valid()
      ensures var step := RoomSpec.ResetTimer(old(Data()), now);
              Data() == step.room && changed == step.outcome.Done?
    {
      if timer.state == TimerIdle {
        return false;
      }
      timer := timer.(state := TimerIdle);
      timer := timer.(startedAt := None);
      lastActivity := now;
      return true;
    }

    /** A snapshot of the timer; a running timer found to be over is stored as expired. */
    method TimerInfo(now: Time) returns (snap: TimerSnapshot)
      requires Valid()
      modifies this`timer
      ensures Valid()
      ensures Data() == RoomSpec.TimerInfo(old(Data()), now)
      ensures snap == ReadTimer(old(timer), now).1
    {
      snap := TimerSnapshot(timer.duration, timer.state, timer.startedAt, 0);
      match timer.state {
        case TimerIdle =>
          snap := snap.(remaining := timer.duration);
        case TimerRunning =>
          var elapsed := WholeSeconds(now - if timer.startedAt.Some? then timer.startedAt.value else 0);
          var remaining := timer.duration - elapsed;
          if remaining <= 0 {
            timer := timer.(state := TimerExpired);
            snap := snap.(state := TimerExpired, remaining := 0);
          } else {
            snap := snap.(remaining := remaining);
          }
        case TimerExpired =>
      }
    }

    /** The status write the server makes itself when a connection ends (internal/server/ws.go). */
    method MarkDisconnected(sessionId: Sid)
      requires Valid()
      modifies participants.Values
      ensures Valid()
      ensures Data() == RoomSpec.MarkDisconnected(old(Data()), sessionId)
    {
      if sessionId in participants {
        participants[sessionId].status := Disconnected;
        SeatWritten(sessionId);
      }
    }

    /** The ping-time write of the room manager (internal/server/room_manager.go). */
    method UpdatePing(sessionId: Sid, now: Time)
      requires Valid()
      modifies participants.Values
      ensures Valid()
      ensures Data() == RoomSpec.UpdatePing(old(Data()), sessionId, now)
    {
      if sessionId in participants {
        participants[sessionId].lastPing := now;
        SeatWritten(sessionId);
      }
    }
  }
}
