/** What every room operation does, as functions on values (internal/domain/room.go).  The class in
    Room.dfy is proved to do the same in place; the run-level properties are proved about these functions. */
module RoomSpec {
  import opened Common
  import opened Names
  import opened RoomTypes

  datatype RoomError =
    | InvalidName | InvalidRole | RoomFull | NotInRoom
    | VotingLocked | InvalidCard | ObserversCannotVote
    | AlreadyRevealed | AlreadyVoting | InvalidStatus
    | TimerNotIdle | InvalidDuration | NothingToDo

  /** How an operation ended; NothingToDo stands for the plain `false` of Leave, StartTimer and ResetTimer. */
  datatype Outcome = Done | Refused(error: RoomError)

  datatype Step = Step(room: RoomData, outcome: Outcome)

  /** A display name as it is stored, or None when nothing printable is left of it. */
  function StoredName(name: Text): Option<Text> {
    var clean := Sanitize(name);
    if clean == [] then None else Some(Truncate(clean, MAX_PARTICIPANT_NAME))
  }

  /** The role an arriving role field stands for when joining; an absent one means voter. */
  function JoinRole(role: RoleField): Option<Role> {
    match role
    case NoRole => Some(Voter)
    case RoleField(r) => Some(r)
    case BadRole => None
  }

  function Touch(r: RoomData, now: Time): RoomData { r.(lastActivity := now) }

  function WithSeat(r: RoomData, sid: Sid, p: Seat, now: Time): RoomData {
    r.(seats := r.seats[sid := p], lastActivity := now)
  }

  /** A participant with a new role; an observer holds no vote. */
  function WithRole(p: Seat, role: Role): Seat {
    p.(role := role, vote := if role == Observer then Blank else p.vote)
  }

  function NewRoom(id: string, name: Text, createdBy: Text, now: Time): RoomData {
    RoomData(id, Truncate(Sanitize(name), MAX_ROOM_NAME), createdBy, PhaseVoting, map[],
             Timer(DEFAULT_TIMER_DURATION, TimerIdle, None), now)
  }

  function Join(r: RoomData, sid: Sid, name: Text, role: RoleField, now: Time): Step {
    var stored, known := StoredName(name), JoinRole(role);
    if stored.None? then Step(r, Refused(InvalidName))
    else if known.None? then Step(r, Refused(InvalidRole))
    else Admit(r, sid, stored.value, known.value, now)
  }

  /** Joining under a name and role that passed the checks. */
  function Admit(r: RoomData, sid: Sid, name: Text, role: Role, now: Time): Step {
    if sid in r.seats then
      var p := WithRole(r.seats[sid].(name := name, status := Active, lastPing := now), role);
      Step(WithSeat(r, sid, p, now), Done)
    else if |r.seats| >= MAX_PARTICIPANTS then Step(r, Refused(RoomFull))
    else Step(WithSeat(r, sid, Seat(sid, name, Blank, Active, role, now, now), now), Done)
  }

  function Leave(r: RoomData, sid: Sid, now: Time): Step {
    if sid !in r.seats then Step(r, Refused(NothingToDo))
    else Step(r.(seats := r.seats - {sid}, lastActivity := now), Done)
  }

  function UpdateRole(r: RoomData, sid: Sid, role: RoleField, now: Time): Step {
    if !role.RoleField? then Step(r, Refused(InvalidRole))
    else if sid !in r.seats then Step(r, Refused(NotInRoom))
    else Step(WithSeat(r, sid, WithRole(r.seats[sid], role.role), now), Done)
  }

  function CastVote(r: RoomData, sid: Sid, value: Card, now: Time): Step {
    if r.phase != PhaseVoting then Step(r, Refused(VotingLocked))
    else if !ValidVote(value) then Step(r, Refused(InvalidCard))
    else if sid !in r.seats then Step(r, Refused(NotInRoom))
    else if r.seats[sid].role == Observer then Step(r, Refused(ObserversCannotVote))
    else Step(WithSeat(r, sid, r.seats[sid].(vote := value), now), Done)
  }

  function Reveal(r: RoomData, now: Time): Step {
    if r.phase == PhaseReveal then Step(r, Refused(AlreadyRevealed))
    else Step(r.(phase := PhaseReveal, lastActivity := now), Done)
  }

  function WithoutVotes(seats: Seats): Seats {
    map s | s in seats :: seats[s].(vote := Blank)
  }

  function NewRound(r: RoomData, now: Time): Step {
    if r.phase == PhaseVoting then Step(r, Refused(AlreadyVoting))
    else Step(r.(seats := WithoutVotes(r.seats), phase := PhaseVoting, timer := ResetTimer(r, now).room.timer,
                 lastActivity := now), Done)
  }

  function ClearRoom(r: RoomData, now: Time): RoomData {
    r.(seats := map[], phase := PhaseVoting, timer := Timer(DEFAULT_TIMER_DURATION, TimerIdle, None),
       lastActivity := now)
  }

  function UpdateName(r: RoomData, sid: Sid, name: Text, now: Time): Step {
    var stored := StoredName(name);
    if stored.None? then Step(r, Refused(InvalidName))
    else if sid !in r.seats then Step(r, Refused(NotInRoom))
    else Step(WithSeat(r, sid, r.seats[sid].(name := stored.value), now), Done)
  }

  function UpdatePresence(r: RoomData, sid: Sid, status: StatusField, now: Time): Step {
    if !status.StatusField? || status.status == Disconnected then Step(r, Refused(InvalidStatus))
    else if sid !in r.seats then Step(r, Refused(NotInRoom))
    else Step(WithSeat(r, sid, r.seats[sid].(status := status.status, lastPing := now), now), Done)
  }

  predicate HasVoted(r: RoomData, sid: Sid) { sid in r.seats && r.seats[sid].vote != Blank }

  function SetTimerDuration(r: RoomData, d: int, now: Time): Step {
    if r.timer.state != TimerIdle then Step(r, Refused(TimerNotIdle))
    else if d < MIN_TIMER_DURATION || d > MAX_TIMER_DURATION then Step(r, Refused(InvalidDuration))
    else Step(Touch(r.(timer := r.timer.(duration := d)), now), Done)
  }

  function StartTimer(r: RoomData, now: Time): Step {
    if r.timer.state != TimerIdle then Step(r, Refused(NothingToDo))
    else Step(Touch(r.(timer := r.timer.(state := TimerRunning, startedAt := Some(now))), now), Done)
  }

  function StoppedTimer(t: Timer): Timer { t.(state := TimerIdle, startedAt := None) }

  function ResetTimer(r: RoomData, now: Time): Step {
    if r.timer.state == TimerIdle then Step(r, Refused(NothingToDo))
    else Step(Touch(r.(timer := StoppedTimer(r.timer)), now), Done)
  }

  /** Reading the timer: a running timer that has used up its duration becomes expired on the spot,
      keeping its start time. */
  function ReadTimer(t: Timer, now: Time): (Timer, TimerSnapshot) {
    match t.state
    case TimerIdle => (t, TimerSnapshot(t.duration, t.state, t.startedAt, t.duration))
    case TimerExpired => (t, TimerSnapshot(t.duration, t.state, t.startedAt, 0))
    case TimerRunning =>
      var elapsed := WholeSeconds(now - if t.startedAt.Some? then t.startedAt.value else 0);
      if t.duration - elapsed <= 0
      then (t.(state := TimerExpired), TimerSnapshot(t.duration, TimerExpired, t.startedAt, 0))
      else (t, TimerSnapshot(t.duration, t.state, t.startedAt, t.duration - elapsed))
  }

  function TimerInfo(r: RoomData, now: Time): RoomData { r.(timer := ReadTimer(r.timer, now).0) }

  /** The server's own write when a connection goes away: no activity is recorded. */
  function MarkDisconnected(r: RoomData, sid: Sid): RoomData {
    if sid in r.seats then r.(seats := r.seats[sid := r.seats[sid].(status := Disconnected)]) else r
  }

  function UpdatePing(r: RoomData, sid: Sid, now: Time): RoomData {
    if sid in r.seats then r.(seats := r.seats[sid := r.seats[sid].(lastPing := now)]) else r
  }

  // ----- stored names -----

  /** A stored name has 1 to 30 code points, none of them stripped, all of them the sender's in order, and does not
      start with white space; it ends with white space only where a longer name was cut right after one. */
  lemma StoredNameShape(name: Text)
    requires StoredName(name).Some?
    ensures var n := StoredName(name).value;
            && 1 <= |n| <= 30 && NoDropped(n) && Subsequence(n, name) && !IsSpace(n[0])
            && (IsSpace(n[|n| - 1]) ==> |n| == 30 < |Sanitize(name)|)
  {
    CutNameShape(name, MAX_PARTICIPANT_NAME);
  }

  /** A stored name is trimmed exactly when nothing was cut, or the cut did not fall right after white space. */
  lemma StoredNameIsTrimmedIff(name: Text)
    requires StoredName(name).Some?
    ensures var clean := Sanitize(name);
            Trimmed(StoredName(name).value) <==>
              |clean| <= 30 || !IsSpace(clean[29])
  {
    SanitizeShape(name);
  }

  /** Storing a stored name again changes nothing exactly when it does not end with white space and has no run of
      more than three marks. */
  lemma StoredAgainIff(name: Text)
    requires StoredName(name).Some?
    ensures var n := StoredName(name).value;
            StoredName(n) == Some(n) <==> !IsSpace(n[|n| - 1]) && ShortRuns(n, 0)
  {
    CutNameShape(name, MAX_PARTICIPANT_NAME);
    CutAgainIff(name, MAX_PARTICIPANT_NAME);
  }

  /** A stored name that is not trimmed: twenty-nine letters, a space, and a letter too many. */
  lemma StoredNameCanEndInSpace()
    ensures var letter, space := Plain('a', false, false), Plain(' ', true, false);
            var name := seq(29, i => letter) + [space, letter];
            StoredName(name) == Some(name[..30]) && !Trimmed(name[..30])
  {
    var letter, space := Plain('a', false, false), Plain(' ', true, false);
    var name := seq(29, i => letter) + [space, letter];
    assert forall i :: 0 <= i < |name| ==> !IsDropped(name[i]) && !name[i].Mark?;
    NoMarksIsShort(name, 0);
    ShortRunsPassUnchanged(name, 0);
    TrimmedIsFixed(name);
  }

  // ----- runs -----

  datatype RoomOp =
    | OpJoin(sid: Sid, name: Text, role: RoleField)
    | OpLeave(sid: Sid)
    | OpRole(sid: Sid, role: RoleField)
    | OpVote(sid: Sid, value: Card)
    | OpReveal
    | OpNewRound
    | OpClear
    | OpName(sid: Sid, name: Text)
    | OpPresence(sid: Sid, status: StatusField)
    | OpSetDuration(duration: int)
    | OpStartTimer
    | OpResetTimer
    | OpTimerInfo
    | OpDisconnect(sid: Sid)
    | OpPing(sid: Sid)

  datatype Event = Event(op: RoomOp, at: Time)

  function Perform(r: RoomData, e: Event): Step {
    match e.op
    case OpJoin(sid, name, role) => Join(r, sid, name, role, e.at)
    case OpLeave(sid) => Leave(r, sid, e.at)
    case OpRole(sid, role) => UpdateRole(r, sid, role, e.at)
    case OpVote(sid, value) => CastVote(r, sid, value, e.at)
    case OpReveal => Reveal(r, e.at)
    case OpNewRound => NewRound(r, e.at)
    case OpClear => Step(ClearRoom(r, e.at), Done)
    case OpName(sid, name) => UpdateName(r, sid, name, e.at)
    case OpPresence(sid, status) => UpdatePresence(r, sid, status, e.at)
    case OpSetDuration(d) => SetTimerDuration(r, d, e.at)
    case OpStartTimer => StartTimer(r, e.at)
    case OpResetTimer => ResetTimer(r, e.at)
    case OpTimerInfo => Step(TimerInfo(r, e.at), Done)
    case OpDisconnect(sid) => Step(MarkDisconnected(r, sid), Done)
    case OpPing(sid) => Step(UpdatePing(r, sid, e.at), Done)
  }

  /** The room after a run, most recent event last. */
  function Run(start: RoomData, events: seq<Event>): RoomData {
    if events == [] then start
    else Perform(Run(start, events[..|events| - 1]), events[|events| - 1]).room
  }

  // ----- the room invariant -----

  predicate SeatOk(s: Sid, p: Seat) {
    && p.sessionId == s
    && ValidVote(p.vote)
    && (p.role == Observer ==> p.vote == Blank)
    && 1 <= |p.name| <= MAX_PARTICIPANT_NAME
  }

  ghost predicate SeatsOk(seats: Seats) { forall s :: s in seats ==> SeatOk(s, seats[s]) }

  predicate TimerOk(t: Timer) {
    && MIN_TIMER_DURATION <= t.duration <= MAX_TIMER_DURATION
    && (t.startedAt.Some? <==> t.state != TimerIdle)
  }

  ghost predicate RoomOk(r: RoomData) {
    && |r.seats| <= MAX_PARTICIPANTS
    && SeatsOk(r.seats)
    && TimerOk(r.timer)
    && |r.name| <= MAX_ROOM_NAME
  }

  lemma RoomIsKeyed(r: RoomData)
    requires RoomOk(r)
    ensures Keyed(r.seats)
  {
    assert forall s :: s in r.seats ==> SeatOk(s, r.seats[s]);
  }

  lemma NewRoomOk(id: string, name: Text, createdBy: Text, now: Time)
    ensures RoomOk(NewRoom(id, name, createdBy, now))
  {
  }

  lemma SeatCounts(seats: Seats, sid: Sid, p: Seat)
    ensures |seats[sid := p]| == |seats| + if sid in seats then 0 else 1
    ensures |seats - {sid}| <= |seats|
    ensures |WithoutVotes(seats)| == |seats|
  {
    assert |seats| == |seats.Keys| && |seats[sid := p]| == |seats[sid := p].Keys|;
    assert seats[sid := p].Keys == seats.Keys + {sid};
    assert |seats - {sid}| == |(seats - {sid}).Keys|;
    assert (seats - {sid}).Keys == seats.Keys - {sid};
    assert |WithoutVotes(seats)| == |WithoutVotes(seats).Keys|;
    assert WithoutVotes(seats).Keys == seats.Keys;
  }

  /** No operation takes the room past its fifty seats. */
  lemma PerformKeepsCapacity(r: RoomData, e: Event)
    requires |r.seats| <= 50
    ensures |Perform(r, e).room.seats| <= 50
  {
    var r' := Perform(r, e).room;
    match e.op {
      case OpJoin(sid, _, _) => if r' != r { SeatCounts(r.seats, sid, r'.seats[sid]); }
      case OpLeave(sid) => if r' != r { SeatCounts(r.seats, sid, r.seats[sid]); }
      case OpRole(sid, _) => if r' != r { SeatCounts(r.seats, sid, r'.seats[sid]); }
      case OpVote(sid, _) => if r' != r { SeatCounts(r.seats, sid, r'.seats[sid]); }
      case OpName(sid, _) => if r' != r { SeatCounts(r.seats, sid, r'.seats[sid]); }
      case OpPresence(sid, _) => if r' != r { SeatCounts(r.seats, sid, r'.seats[sid]); }
      case OpDisconnect(sid) => if r' != r { SeatCounts(r.seats, sid, r'.seats[sid]); }
      case OpPing(sid) => if r' != r { SeatCounts(r.seats, sid, r'.seats[sid]); }
      case OpNewRound => if s :| s in r.seats { SeatCounts(r.seats, s, r.seats[s]); }
      case _ =>
    }
  }

  lemma SeatUpdateOk(seats: Seats, sid: Sid, p: Seat)
    requires SeatsOk(seats) && SeatOk(sid, p)
    ensures SeatsOk(seats[sid := p])
  {
  }

  lemma PerformKeepsSeatsOk(r: RoomData, e: Event)
    requires SeatsOk(r.seats)
    ensures SeatsOk(Perform(r, e).room.seats)
  {
    var r' := Perform(r, e).room;
    if r' != r {
      match e.op {
        case OpJoin(sid, _, _) => SeatUpdateOk(r.seats, sid, r'.seats[sid]);
        case OpRole(sid, _) => SeatUpdateOk(r.seats, sid, r'.seats[sid]);
        case OpVote(sid, _) => SeatUpdateOk(r.seats, sid, r'.seats[sid]);
        case OpName(sid, _) => SeatUpdateOk(r.seats, sid, r'.seats[sid]);
        case OpPresence(sid, _) => SeatUpdateOk(r.seats, sid, r'.seats[sid]);
        case OpDisconnect(sid) => SeatUpdateOk(r.seats, sid, r'.seats[sid]);
        case OpPing(sid) => SeatUpdateOk(r.seats, sid, r'.seats[sid]);
        case _ =>
      }
    }
  }

  lemma PerformKeepsTimerOk(r: RoomData, e: Event)
    requires TimerOk(r.timer)
    ensures TimerOk(Perform(r, e).room.timer) && Perform(r, e).room.name == r.name
  {
  }

  lemma RefusalChangesNothing(r: RoomData, e: Event)
    ensures Perform(r, e).outcome != Done ==> Perform(r, e).room == r
  {
  }

  /** Every operation, accepted or refused, keeps the room invariant; a refused one changes nothing. */
  lemma PerformKeepsRoomOk(r: RoomData, e: Event)
    requires RoomOk(r)
    ensures RoomOk(Perform(r, e).room)
    ensures Perform(r, e).outcome != Done ==> Perform(r, e).room == r
  {
    PerformKeepsCapacity(r, e);
    PerformKeepsSeatsOk(r, e);
    PerformKeepsTimerOk(r, e);
    RefusalChangesNothing(r, e);
  }

  /** The invariant over every operation sequence from a new room. */
  lemma {:induction false} RunKeepsRoomOk(start: RoomData, events: seq<Event>)
    requires RoomOk(start)
    ensures RoomOk(Run(start, events))
  {
    if events == [] {
    } else {
      RunKeepsRoomOk(start, events[..|events| - 1]);
      PerformKeepsRoomOk(Run(start, events[..|events| - 1]), events[|events| - 1]);
    }
  }
}
