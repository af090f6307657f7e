/** The messages between server and browsers, and what each server handler does with a command, as one
    function on values (internal/server/events.go, internal/server/ws.go, internal/server/room_manager.go). */
module Protocol {
  import opened Common
  import opened Names
  import opened RoomTypes
  import RoomSpec
  import Stats
  import opened Sorting

  datatype ErrorCode = InvalidMessage | InvalidName | InvalidVote | RoomFull | RateLimited | RoomNotFound

  datatype Info = Info(sessionId: Sid, userName: Text, status: Status, hasVoted: bool, role: Role)

  /** startedAt is in Unix milliseconds. */
  datatype TimerPayload = TimerPayload(duration: int, state: TimerState, startedAt: Option<int>, remaining: int)

  datatype RoomPayload = RoomPayload(roomId: string, roomName: Text, createdBy: Text, phase: Phase,
                                     participants: seq<Info>, result: Option<RoundResult>, timer: TimerPayload)

  datatype Message =
    | RoomStateMsg(state: RoomPayload)
    | ParticipantJoined(joined: Sid, userName: Text, status: Status, role: Role)
    | ParticipantLeft(left: Sid)
    | VoteCast(voter: Sid)
    | VoteRetracted(retractor: Sid)
    | VotesRevealed(result: RoundResult)
    | RoundReset
    | RoomCleared
    | PresenceChanged(who: Sid, presence: Status)
    | NameUpdated(named: Sid, newName: Text)
    | RoleUpdated(holder: Sid, newRole: Role)
    | TimerUpdated(timer: TimerPayload)
    | ErrorMsg(code: ErrorCode)

  /** Commands after JSON decoding.  Malformed stands for an envelope or payload that does not decode, or
      an unknown type, with the error code its handler answers.  `creationAllowed` is the answer the
      room-creation rate limiter would give. */
  datatype Command =
    | Join(sid: Sid, userName: Text, roomName: Text, role: RoleField, creationAllowed: bool)
    | Vote(value: Card)
    | Reveal
    | NewRound
    | ClearRoom
    | UpdateName(name: Text)
    | Presence(status: StatusField)
    | UpdateRole(newRole: RoleField)
    | TimerSetDuration(duration: int)
    | TimerStart
    | TimerReset
    | Leave
    | Malformed(answer: ErrorCode)

  predicate ValidSessionId(s: Sid) {
    |s| == 32 && forall i :: 0 <= i < |s| ==> 'a' <= s[i] <= 'f' || '0' <= s[i] <= '9'
  }

  // ----- the room_state payload -----

  function InfoOf(p: Seat): Info { Info(p.sessionId, p.name, p.status, p.vote != Blank, p.role) }

  /** The order of the participant list: by join time, then by session id. */
  predicate Earlier(a: (Time, Sid), b: (Time, Sid)) {
    a.0 < b.0 || (a.0 == b.0 && Less(a.1, b.1))
  }

  function JoinKey(seats: Seats, s: Sid): (Time, Sid) {
    (if s in seats then seats[s].joinedAt else 0, s)
  }

  function InfoKey(seats: Seats): Info -> (Time, Sid) { (i: Info) => JoinKey(seats, i.sessionId) }

  ghost function InfoSet(seats: Seats): set<Info> { set s | s in seats :: InfoOf(seats[s]) }

  ghost function Roster(seats: Seats): seq<Info> {
    SortBy(Listing(InfoSet(seats)), InfoKey(seats), Earlier)
  }

  function TimerPayloadOf(s: TimerSnapshot): TimerPayload {
    TimerPayload(s.duration, s.state, Millis(s.startedAt), s.remaining)
  }

  function Millis(t: Option<Time>): Option<int> {
    if t.Some? then Some(t.value / 1_000_000) else None
  }

  ghost function StateOf(r: RoomData, now: Time): RoomPayload {
    RoomPayload(r.id, r.name, r.createdBy, r.phase, Roster(r.seats),
                if r.phase == PhaseReveal then Some(Stats.Summarize(Stats.Ballot(r.seats))) else None,
                TimerPayloadOf(RoomSpec.ReadTimer(r.timer, now).1))
  }

  lemma EarlierIsStrictTotalOrder()
    ensures StrictTotalOrder(Earlier)
  {
    LessIsStrictTotalOrder();
  }

  lemma InfosHaveDistinctKeys(seats: Seats, infos: seq<Info>)
    requires Keyed(seats)
    requires forall i :: i in infos ==> i.sessionId in seats && i == InfoOf(seats[i.sessionId])
    requires forall i, j :: 0 <= i < j < |infos| ==> infos[i] != infos[j]
    ensures forall i, j :: 0 <= i < j < |infos| ==> InfoKey(seats)(infos[i]) != InfoKey(seats)(infos[j])
  {
    forall i, j | 0 <= i < j < |infos|
      ensures InfoKey(seats)(infos[i]) != InfoKey(seats)(infos[j])
    {
      assert infos[i] in infos && infos[j] in infos;
    }
  }

  lemma RosterIsSorted(seats: Seats)
    requires Keyed(seats)
    ensures SortedBy(Roster(seats), InfoKey(seats), Earlier)
    ensures forall i :: i in Roster(seats) <==> i.sessionId in seats && i == InfoOf(seats[i.sessionId])
  {
    var listing := Listing(InfoSet(seats));
    ListingIsComplete(InfoSet(seats));
    assert forall i :: i in listing <==> i in InfoSet(seats);
    InfosHaveDistinctKeys(seats, listing);
    EarlierIsStrictTotalOrder();
    SortBySorts(listing, InfoKey(seats), Earlier);
  }

  /** The participant list depends on what each seat shows and on the join times. */
  lemma RosterOfSameInfos(a: Seats, b: Seats)
    requires Keyed(a) && Keyed(b) && a.Keys == b.Keys
    requires forall s :: s in a ==> InfoOf(a[s]) == InfoOf(b[s]) && a[s].joinedAt == b[s].joinedAt
    ensures Roster(a) == Roster(b)
  {
    RosterIsSorted(a);
    RosterIsSorted(b);
    var xs, ys := Roster(a), Roster(b);
    forall i, j | 0 <= i < j < |ys|
      ensures Earlier(InfoKey(a)(ys[i]), InfoKey(a)(ys[j]))
    {
      assert Earlier(InfoKey(b)(ys[i]), InfoKey(b)(ys[j]));
    }
    EarlierIsStrictTotalOrder();
    SortedIsUnique(xs, ys, InfoKey(a), Earlier);
  }

  // ----- reactions -----

  /** What a handler does: the room it leaves, the session id the client keeps, whether the client is
      registered with the room from then on, the messages for the client itself, and the messages for
      every other registered client, each list in order of sending. */
  datatype Reaction = Reaction(room: Option<RoomData>, session: Sid, toSelf: seq<Message>, toOthers: seq<Message>)

  ghost function Answer(room: Option<RoomData>, session: Sid, code: ErrorCode): Reaction {
    Reaction(room, session, [ErrorMsg(code)], [])
  }

  ghost function Announce(room: RoomData, session: Sid, ms: seq<Message>): Reaction {
    Reaction(Some(room), session, ms, ms)
  }

  ghost function ReactJoin(room: Option<RoomData>, session: Sid, roomId: string, cmd: Command, now: Time): Reaction
    requires cmd.Join?
  {
    if cmd.sid == "" || !ValidSessionId(cmd.sid) then Answer(room, session, InvalidMessage)
    else if cmd.userName == [] then Answer(room, session, InvalidName)
    else if room.None? && !cmd.creationAllowed then Answer(room, session, RateLimited)
    else
      var r := if room.Some? then room.value
               else RoomSpec.NewRoom(roomId, RoomNameFor(cmd), cmd.userName, now);
      var step := RoomSpec.Join(r, cmd.sid, cmd.userName, cmd.role, now);
      if step.outcome.Refused? then
        Answer(Some(r), session, if step.outcome.error.RoomFull? then RoomFull else InvalidName)
      else
        var p := step.room.seats[cmd.sid];
        Reaction(Some(RoomSpec.TimerInfo(step.room, now)), cmd.sid, [RoomStateMsg(StateOf(step.room, now))],
                 [if cmd.sid in r.seats then PresenceChanged(cmd.sid, Active)
                  else ParticipantJoined(cmd.sid, p.name, Active, p.role)])
  }

  /** A join that is accepted: its fields pass the checks, and the participant is seated or there is a seat. */
  predicate Admits(room: RoomData, cmd: Command)
    requires cmd.Join?
  {
    && cmd.sid != "" && ValidSessionId(cmd.sid) && cmd.userName != []
    && RoomSpec.StoredName(cmd.userName).Some? && RoomSpec.JoinRole(cmd.role).Some?
    && (cmd.sid in room.seats || |room.seats| < MAX_PARTICIPANTS)
  }

  function RoomNameFor(cmd: Command): Text
    requires cmd.Join?
  {
    if cmd.roomName == [] then cmd.userName + Literal("'s Room") else cmd.roomName
  }

  ghost function ReactVote(r: RoomData, session: Sid, value: Card, now: Time): Reaction {
    var step := RoomSpec.CastVote(r, session, value, now);
    if step.outcome.Refused? then Answer(Some(r), session, InvalidVote)
    else if value != Blank then Announce(step.room, session, [VoteCast(session)])
    else if RoomSpec.HasVoted(r, session) then Announce(step.room, session, [VoteRetracted(session)])
    else Announce(step.room, session, [])
  }

  ghost function ReactReveal(r: RoomData, session: Sid, now: Time): Reaction {
    var step := RoomSpec.Reveal(r, now);
    if step.outcome.Refused? then Answer(Some(r), session, InvalidMessage)
    else Announce(step.room, session, [VotesRevealed(Stats.Summarize(Stats.Ballot(r.seats)))])
  }

  /** The timer is read, and possibly stored as expired, even when the new round is refused. */
  ghost function ReactNewRound(r: RoomData, session: Sid, now: Time): Reaction {
    var step := RoomSpec.NewRound(r, now);
    var read := RoomSpec.TimerInfo(step.room, now);
    if step.outcome.Refused? then Answer(Some(read), session, InvalidMessage)
    else Announce(read, session, [RoundReset, TimerUpdated(TimerPayloadOf(RoomSpec.ReadTimer(step.room.timer, now).1))])
  }

  ghost function ReactName(r: RoomData, session: Sid, name: Text, now: Time): Reaction {
    var step := RoomSpec.UpdateName(r, session, name, now);
    if step.outcome.Refused? then Answer(Some(r), session, InvalidName)
    else Announce(step.room, session, [NameUpdated(session, step.room.seats[session].name)])
  }

  ghost function ReactPresence(r: RoomData, session: Sid, status: StatusField, now: Time): Reaction {
    var step := RoomSpec.UpdatePresence(r, session, status, now);
    if step.outcome.Refused? then Answer(Some(r), session, InvalidMessage)
    else Announce(step.room, session, [PresenceChanged(session, status.status)])
  }

  ghost function ReactRole(r: RoomData, session: Sid, role: RoleField, now: Time): Reaction {
    var step := RoomSpec.UpdateRole(r, session, role, now);
    if step.outcome.Refused? then Answer(Some(r), session, InvalidMessage)
    else Announce(step.room, session, [RoleUpdated(session, role.role)])
  }

  /** The three timer handlers: only a refused duration is answered with an error. */
  ghost function ReactTimer(r: RoomData, session: Sid, step: RoomSpec.Step, now: Time): Reaction {
    if step.outcome == RoomSpec.Refused(RoomSpec.NothingToDo) then Announce(r, session, [])
    else if step.outcome.Refused? then Answer(Some(r), session, InvalidMessage)
    else Announce(RoomSpec.TimerInfo(step.room, now), session,
                  [TimerUpdated(TimerPayloadOf(RoomSpec.ReadTimer(step.room.timer, now).1))])
  }

  ghost function ReactLeave(r: RoomData, session: Sid, now: Time): Reaction {
    Reaction(Some(RoomSpec.Leave(r, session, now).room), "", [], [ParticipantLeft(session)])
  }

  ghost function React(room: Option<RoomData>, session: Sid, roomId: string, cmd: Command, now: Time): Reaction {
    if cmd.Malformed? then Answer(room, session, cmd.answer)
    else if cmd.Join? then ReactJoin(room, session, roomId, cmd, now)
    else if cmd.Leave? && (session == "" || room.None?) then Reaction(room, session, [], [])
    else if session == "" then Answer(room, session, InvalidMessage)
    else if room.None? then Answer(room, session, RoomNotFound)
    else
      var r := room.value;
      match cmd
      case Vote(value) => ReactVote(r, session, value, now)
      case Reveal => ReactReveal(r, session, now)
      case NewRound => ReactNewRound(r, session, now)
      case ClearRoom => Announce(RoomSpec.ClearRoom(r, now), session, [RoomCleared])
      case UpdateName(name) => ReactName(r, session, name, now)
      case Presence(status) => ReactPresence(r, session, status, now)
      case UpdateRole(role) => ReactRole(r, session, role, now)
      case TimerSetDuration(d) => ReactTimer(r, session, RoomSpec.SetTimerDuration(r, d, now), now)
      case TimerStart => ReactTimer(r, session, RoomSpec.StartTimer(r, now), now)
      case TimerReset => ReactTimer(r, session, RoomSpec.ResetTimer(r, now), now)
      case Leave => ReactLeave(r, session, now)
  }

  // ----- one room, its connections, and their send buffers -----

  type ClientId = nat

  const SEND_BUFFER_SIZE: nat := 32

  datatype Conn = Conn(session: Sid, buffer: seq<Message>, closed: bool)

  datatype Sys = Sys(room: Option<RoomData>, conns: map<ClientId, Conn>, registered: set<ClientId>)

  /** Queueing for a client: a full buffer closes the connection instead. */
  function Send(c: Conn, m: Message): Conn {
    if |c.buffer| < SEND_BUFFER_SIZE then c.(buffer := c.buffer + [m]) else c.(closed := true)
  }

  function SendAll(c: Conn, ms: seq<Message>): Conn
    decreases |ms|
  {
    if ms == [] then c else SendAll(Send(c, ms[0]), ms[1..])
  }

  /** Carrying out a reaction: client `c` gets its own messages, every other registered client the rest. */
  function CarryOut(s: Sys, c: ClientId, re: Reaction): Sys
    requires c in s.conns
  {
    Sys(re.room,
        map d | d in s.conns ::
          if d == c then SendAll(s.conns[d].(session := re.session), re.toSelf)
          else if d in s.registered then SendAll(s.conns[d], re.toOthers)
          else s.conns[d],
        if re.session == "" then s.registered - {c} else s.registered + {c})
  }

  /** One handler run to completion for client `c`. */
  ghost function Handle(s: Sys, roomId: string, c: ClientId, cmd: Command, now: Time): Sys
    requires c in s.conns
  {
    CarryOut(s, c, React(s.room, s.conns[c].session, roomId, cmd, now))
  }

  /** The cleanup when a connection ends: mark and announce the participant as disconnected, then forget
      the client. */
  ghost function Drop(s: Sys, c: ClientId): Sys
    requires c in s.conns
  {
    var sid := s.conns[c].session;
    var announced := sid != "" && s.room.Some?;
    Sys(if announced then Some(RoomSpec.MarkDisconnected(s.room.value, sid)) else s.room,
        map d | d in s.conns && d != c ::
          if announced && d in s.registered then Send(s.conns[d], PresenceChanged(sid, Disconnected)) else s.conns[d],
        s.registered - {c})
  }

  /** A client is registered with the room exactly while it has a session id, and a room with registered
      clients exists. */
  ghost predicate SysOk(s: Sys) {
    && s.registered <= s.conns.Keys
    && (forall c :: c in s.conns ==> (c in s.registered <==> s.conns[c].session != ""))
    && (s.registered != {} ==> s.room.Some?)
    && (s.room.Some? ==> RoomSpec.RoomOk(s.room.value))
  }

  lemma {:induction false} SendAllKeepsSession(c: Conn, ms: seq<Message>)
    ensures SendAll(c, ms).session == c.session
    ensures c.closed ==> SendAll(c, ms).closed
    ensures !SendAll(c, ms).closed ==> SendAll(c, ms).buffer == c.buffer + ms
    ensures |c.buffer| <= SEND_BUFFER_SIZE ==> |SendAll(c, ms).buffer| <= SEND_BUFFER_SIZE
    decreases |ms|
  {
    if ms != [] {
      SendAllKeepsSession(Send(c, ms[0]), ms[1..]);
      assert [ms[0]] + ms[1..] == ms;
    } else {
      assert c.buffer + ms == c.buffer;
    }
  }

  /** Exactly the first messages that fit among 32 are queued, in order, and the connection is closed exactly when one
      does not fit. */
  lemma {:induction false} SendAllQueuesWhatFits(c: Conn, ms: seq<Message>)
    requires |c.buffer| <= 32
    ensures var free := 32 - |c.buffer|;
            && SendAll(c, ms).buffer == c.buffer + (if |ms| <= free then ms else ms[..free])
            && (SendAll(c, ms).closed <==> c.closed || |ms| > free)
    decreases |ms|
  {
    if ms == [] {
    } else {
      SendAllQueuesWhatFits(Send(c, ms[0]), ms[1..]);
      assert [ms[0]] + ms[1..] == ms;
      var free := 32 - |c.buffer|;
      if 0 < free < |ms| {
        assert [ms[0]] + ms[1..][..free - 1] == ms[..free];
      }
    }
  }

  /** The room operation behind a command of a joined client. */
  function OpOf(session: Sid, cmd: Command): RoomSpec.RoomOp {
    match cmd
    case Join(sid, name, _, role, _) => RoomSpec.OpJoin(sid, name, role)
    case Vote(value) => RoomSpec.OpVote(session, value)
    case Reveal => RoomSpec.OpReveal
    case NewRound => RoomSpec.OpNewRound
    case ClearRoom => RoomSpec.OpClear
    case UpdateName(name) => RoomSpec.OpName(session, name)
    case Presence(status) => RoomSpec.OpPresence(session, status)
    case UpdateRole(role) => RoomSpec.OpRole(session, role)
    case TimerSetDuration(d) => RoomSpec.OpSetDuration(d)
    case TimerStart => RoomSpec.OpStartTimer
    case TimerReset => RoomSpec.OpResetTimer
    case Leave => RoomSpec.OpLeave(session)
    case Malformed(_) => RoomSpec.OpTimerInfo
  }

  /** A handler's effect on an existing room: nothing, or its room operation, or that followed by a
      reading of the timer. */
  ghost predicate Follows(r: RoomData, op: RoomSpec.RoomOp, now: Time, r': Option<RoomData>) {
    var after := RoomSpec.Perform(r, RoomSpec.Event(op, now)).room;
    r' == Some(r) || r' == Some(after) || r' == Some(RoomSpec.TimerInfo(after, now))
  }

  lemma JoinReactionFollows(r: RoomData, session: Sid, roomId: string, cmd: Command, now: Time)
    requires cmd.Join?
    ensures Follows(r, OpOf(session, cmd), now, ReactJoin(Some(r), session, roomId, cmd, now).room)
  {
  }

  lemma TimerReactionFollows(r: RoomData, session: Sid, op: RoomSpec.RoomOp, step: RoomSpec.Step, now: Time)
    requires step == RoomSpec.Perform(r, RoomSpec.Event(op, now))
    ensures Follows(r, op, now, ReactTimer(r, session, step, now).room)
  {
  }

  lemma RoundReactionsFollow(r: RoomData, session: Sid, now: Time)
    ensures Follows(r, RoomSpec.OpReveal, now, ReactReveal(r, session, now).room)
    ensures Follows(r, RoomSpec.OpNewRound, now, ReactNewRound(r, session, now).room)
  {
  }

  lemma SeatReactionsFollow(r: RoomData, session: Sid, value: Card, name: Text, status: StatusField, role: RoleField,
                            now: Time)
    ensures Follows(r, RoomSpec.OpVote(session, value), now, ReactVote(r, session, value, now).room)
    ensures Follows(r, RoomSpec.OpName(session, name), now, ReactName(r, session, name, now).room)
    ensures Follows(r, RoomSpec.OpPresence(session, status), now, ReactPresence(r, session, status, now).room)
    ensures Follows(r, RoomSpec.OpRole(session, role), now, ReactRole(r, session, role, now).room)
    ensures Follows(r, RoomSpec.OpLeave(session), now, ReactLeave(r, session, now).room)
  {
  }

  /** A handler's effect on an existing room is that of its room operation, if any. */
  lemma ReactionFollows(r: RoomData, session: Sid, roomId: string, cmd: Command, now: Time)
    ensures Follows(r, OpOf(session, cmd), now, React(Some(r), session, roomId, cmd, now).room)
  {
    if cmd.Join? {
      JoinReactionFollows(r, session, roomId, cmd, now);
    } else if !cmd.Malformed? && session != "" {
      match cmd {
        case Vote(value) => SeatReactionsFollow(r, session, value, [], BadStatus, BadRole, now);
        case UpdateName(name) => SeatReactionsFollow(r, session, Blank, name, BadStatus, BadRole, now);
        case Presence(status) => SeatReactionsFollow(r, session, Blank, [], status, BadRole, now);
        case UpdateRole(role) => SeatReactionsFollow(r, session, Blank, [], BadStatus, role, now);
        case Leave => SeatReactionsFollow(r, session, Blank, [], BadStatus, BadRole, now);
        case Reveal => RoundReactionsFollow(r, session, now);
        case NewRound => RoundReactionsFollow(r, session, now);
        case ClearRoom =>
        case TimerSetDuration(d) =>
          TimerReactionFollows(r, session, RoomSpec.OpSetDuration(d), RoomSpec.SetTimerDuration(r, d, now), now);
        case TimerStart => TimerReactionFollows(r, session, RoomSpec.OpStartTimer, RoomSpec.StartTimer(r, now), now);
        case TimerReset => TimerReactionFollows(r, session, RoomSpec.OpResetTimer, RoomSpec.ResetTimer(r, now), now);
      }
    }
  }

  lemma FollowingKeepsRoomOk(r: RoomData, op: RoomSpec.RoomOp, now: Time, r': Option<RoomData>)
    requires RoomSpec.RoomOk(r) && Follows(r, op, now, r')
    ensures r'.Some? && RoomSpec.RoomOk(r'.value)
  {
    RoomSpec.PerformKeepsRoomOk(r, RoomSpec.Event(op, now));
  }

  /** A join that finds no room behaves as one that finds a new, empty room, unless it creates none. */
  lemma JoinCreatesRoom(session: Sid, roomId: string, cmd: Command, now: Time)
    requires cmd.Join?
    ensures var re := React(None, session, roomId, cmd, now);
            var empty := RoomSpec.NewRoom(roomId, RoomNameFor(cmd), cmd.userName, now);
            (re.room.None? && re.session == session) || re == React(Some(empty), session, roomId, cmd, now)
  {
  }

  /** Every handler keeps the room invariant. */
  lemma ReactKeepsRoomOk(room: Option<RoomData>, session: Sid, roomId: string, cmd: Command, now: Time)
    requires room.Some? ==> RoomSpec.RoomOk(room.value)
    ensures var re := React(room, session, roomId, cmd, now);
            && (re.room.Some? ==> RoomSpec.RoomOk(re.room.value))
            && (room.Some? ==> re.room.Some?)
            && (re.session != "" && re.session != session ==> re.room.Some?)
  {
    if room.Some? {
      ReactionFollows(room.value, session, roomId, cmd, now);
      FollowingKeepsRoomOk(room.value, OpOf(session, cmd), now, React(room, session, roomId, cmd, now).room);
    } else if cmd.Join? {
      var empty := RoomSpec.NewRoom(roomId, RoomNameFor(cmd), cmd.userName, now);
      RoomSpec.NewRoomOk(roomId, RoomNameFor(cmd), cmd.userName, now);
      JoinCreatesRoom(session, roomId, cmd, now);
      ReactionFollows(empty, session, roomId, cmd, now);
      FollowingKeepsRoomOk(empty, OpOf(session, cmd), now, React(Some(empty), session, roomId, cmd, now).room);
    }
  }

  lemma CarryOutSessions(s: Sys, c: ClientId, re: Reaction)
    requires c in s.conns
    ensures var s' := CarryOut(s, c, re);
            && s'.conns.Keys == s.conns.Keys
            && forall d :: d in s.conns ==> s'.conns[d].session == if d == c then re.session else s.conns[d].session
  {
    SendAllKeepsSession(s.conns[c].(session := re.session), re.toSelf);
    forall d | d in s.conns
      ensures SendAll(s.conns[d], re.toOthers).session == s.conns[d].session
    {
      SendAllKeepsSession(s.conns[d], re.toOthers);
    }
  }

  lemma CarryOutKeepsSysOk(s: Sys, c: ClientId, re: Reaction)
    requires SysOk(s) && c in s.conns
    requires re.room.Some? ==> RoomSpec.RoomOk(re.room.value)
    requires s.room.Some? ==> re.room.Some?
    requires re.session != "" && re.session != s.conns[c].session ==> re.room.Some?
    ensures SysOk(CarryOut(s, c, re))
  {
    CarryOutSessions(s, c, re);
  }

  lemma HandleKeepsSysOk(s: Sys, roomId: string, c: ClientId, cmd: Command, now: Time)
    requires SysOk(s) && c in s.conns
    ensures SysOk(Handle(s, roomId, c, cmd, now))
  {
    ReactKeepsRoomOk(s.room, s.conns[c].session, roomId, cmd, now);
    CarryOutKeepsSysOk(s, c, React(s.room, s.conns[c].session, roomId, cmd, now));
  }

  lemma DropKeepsSysOk(s: Sys, c: ClientId)
    requires SysOk(s) && c in s.conns
    ensures SysOk(Drop(s, c))
  {
    if s.room.Some? {
      RoomSpec.PerformKeepsRoomOk(s.room.value, RoomSpec.Event(RoomSpec.OpDisconnect(s.conns[c].session), 0));
    }
  }
}
