/** What the handlers promise, each said about rooms and messages and not by how a handler computes it: the room a
    first join makes, who is refused what, whom an operation can touch, and which timer is told. */
module HandlerLaws {
  import opened Common
  import opened Names
  import opened RoomTypes
  import RoomSpec
  import RoomHistory
  import opened Protocol
  import opened CoherentSteps
  import opened Runs
  import opened CoherentRuns

  // ----- the room a first join makes -----

  function Cut(t: Text, limit: nat): Text { if |t| > limit then t[..limit] else t }

  /** The name of a new room: the one that was sent, or the creator's followed by "'s Room", sanitised and cut at 60
      code points. */
  predicate NamedByJoin(name: Text, cmd: Command)
    requires cmd.Join?
  {
    name == Cut(Sanitize(if cmd.roomName != [] then cmd.roomName else cmd.userName + Literal("'s Room")), 60)
  }

  lemma MakesRoomIff(session: Sid, roomId: string, cmd: Command, now: Time)
    ensures React(None, session, roomId, cmd, now).room.Some?
            <==> cmd.Join? && ValidSessionId(cmd.sid) && cmd.userName != [] && cmd.creationAllowed
  {
  }

  lemma NewRoomIsNamed(roomId: string, cmd: Command, now: Time)
    requires cmd.Join?
    ensures var r := RoomSpec.NewRoom(roomId, RoomNameFor(cmd), cmd.userName, now);
            && r.id == roomId && r.createdBy == cmd.userName && NamedByJoin(r.name, cmd)
            && r.seats == map[] && r.phase == PhaseVoting && r.timer == Timer(30, TimerIdle, None)
            && r.lastActivity == now
  {
  }

  lemma FirstJoinKeepsRest(r: RoomData, cmd: Command, now: Time)
    requires cmd.Join? && r.seats == map[] && r.timer.state == TimerIdle && r.lastActivity == now
    ensures var after := RoomSpec.TimerInfo(RoomSpec.Join(r, cmd.sid, cmd.userName, cmd.role, now).room, now);
            after.(seats := map[]) == r && after.seats.Keys <= {cmd.sid}
  {
  }

  lemma FirstJoinLeaves(session: Sid, roomId: string, cmd: Command, now: Time)
    requires cmd.Join? && React(None, session, roomId, cmd, now).room.Some?
    ensures var after := React(None, session, roomId, cmd, now).room.value;
            after.(seats := map[]) == RoomSpec.NewRoom(roomId, RoomNameFor(cmd), cmd.userName, now)
            && after.seats.Keys <= {cmd.sid}
  {
    NewRoomIsNamed(roomId, cmd, now);
    FirstJoinKeepsRest(RoomSpec.NewRoom(roomId, RoomNameFor(cmd), cmd.userName, now), cmd, now);
  }

  /** Where there was no room, a command leaves one exactly if it is a join with a valid session id and a user name,
      and the creation limit allows it, even when the join itself is refused.  The room has the connection's room id,
      the user as creator, the name sent, no participant but the joiner, and an idle timer of thirty seconds. */
  lemma FirstJoinMakesRoom(session: Sid, roomId: string, cmd: Command, now: Time)
    ensures var after := React(None, session, roomId, cmd, now).room;
            && (after.Some? <==> cmd.Join? && ValidSessionId(cmd.sid) && cmd.userName != [] && cmd.creationAllowed)
            && (after.Some? ==>
                  var r := after.value;
                  && r.id == roomId && r.createdBy == cmd.userName && NamedByJoin(r.name, cmd)
                  && r.seats.Keys <= {cmd.sid} && r.phase == PhaseVoting
                  && r.timer == Timer(30, TimerIdle, None) && r.lastActivity == now)
  {
    MakesRoomIff(session, roomId, cmd, now);
    if React(None, session, roomId, cmd, now).room.Some? {
      FirstJoinLeaves(session, roomId, cmd, now);
      NewRoomIsNamed(roomId, cmd, now);
    }
  }

  /** No event changes the id, name or creator of a room that exists before and after it. */
  lemma EventKeepsIdentity(w: World, roomId: string, e: WorldEvent)
    requires SameClients(w) && w.sys.room.Some? && Step(w, roomId, e).sys.room.Some?
    ensures var before, after := w.sys.room.value, Step(w, roomId, e).sys.room.value;
            after.id == before.id && after.name == before.name && after.createdBy == before.createdBy
  {
    if e.Act? && e.client in w.sys.conns {
      var session := w.sys.conns[e.client].session;
      ReactionFollows(w.sys.room.value, session, roomId, e.cmd, e.at);
      OperationKeepsIdentity(w.sys.room.value, RoomSpec.Event(OpOf(session, e.cmd), e.at));
    }
  }

  lemma OperationKeepsIdentity(r: RoomData, e: RoomSpec.Event)
    ensures var after := RoomSpec.Perform(r, e).room;
            after.id == r.id && after.name == r.name && after.createdBy == r.createdBy
  {
  }

  /** The join that made the room that exists after the run. */
  ghost function Maker(roomId: string, events: seq<WorldEvent>): Option<Command> {
    if events == [] then None
    else
      var earlier, e := events[..|events| - 1], events[|events| - 1];
      var before, after := RunWorld(roomId, earlier).sys.room, RunWorld(roomId, events).sys.room;
      if after.None? then None else if before.None? && e.Act? then Some(e.cmd) else Maker(roomId, earlier)
  }

  /** On every run a room that exists goes by the connection's id, and has the creator and the name of the join that
      made it. */
  lemma {:induction false} RoomKeepsItsMakersName(roomId: string, events: seq<WorldEvent>)
    ensures var room, maker := RunWorld(roomId, events).sys.room, Maker(roomId, events);
            room.Some? ==> && maker.Some? && maker.value.Join?
                           && room.value.id == roomId && room.value.createdBy == maker.value.userName
                           && NamedByJoin(room.value.name, maker.value)
  {
    if events == [] {
    } else {
      var earlier, e := events[..|events| - 1], events[|events| - 1];
      var w := RunWorld(roomId, earlier);
      RoomKeepsItsMakersName(roomId, earlier);
      if w.sys.room.Some? && Step(w, roomId, e).sys.room.Some? {
        EventKeepsIdentity(w, roomId, e);
      } else if Step(w, roomId, e).sys.room.Some? {
        OnlyJoinsMakeRooms(w, roomId, e);
      }
    }
  }

  lemma OnlyJoinsMakeRooms(w: World, roomId: string, e: WorldEvent)
    requires SameClients(w) && w.sys.room.None? && Step(w, roomId, e).sys.room.Some?
    ensures e.Act? && e.cmd.Join?
    ensures var r := Step(w, roomId, e).sys.room.value;
            r.id == roomId && r.createdBy == e.cmd.userName && NamedByJoin(r.name, e.cmd)
  {
    if e.Act? && e.client in w.sys.conns {
      FirstJoinMakesRoom(w.sys.conns[e.client].session, roomId, e.cmd, e.at);
    }
  }

  // ----- which operations are carried out -----

  /** A card of the deck, no card, or the question mark: half a point, or 0, 1, 2, 3, 5, 8, 13, 20, 40 or 100 points. */
  predicate IsOnDeck(c: Card) {
    || c == Blank || c == Unsure || c == Points(1)
    || (c.Points? && c.halves % 2 == 0 && c.halves / 2 in {0, 1, 2, 3, 5, 8, 13, 20, 40, 100})
  }

  /** The operation is carried out, told from the room and the operation. */
  predicate Accepts(r: RoomData, op: RoomSpec.RoomOp) {
    match op
    case OpJoin(sid, name, role) =>
      Sanitize(name) != [] && role != BadRole && (sid in r.seats || |r.seats| < 50)
    case OpLeave(sid) => sid in r.seats
    case OpRole(sid, role) => sid in r.seats && role.RoleField?
    case OpVote(sid, value) =>
      r.phase == PhaseVoting && sid in r.seats && r.seats[sid].role == Voter && IsOnDeck(value)
    case OpReveal => r.phase == PhaseVoting
    case OpNewRound => r.phase == PhaseReveal
    case OpName(sid, name) => sid in r.seats && Sanitize(name) != []
    case OpPresence(sid, status) =>
      sid in r.seats && (status == StatusField(Active) || status == StatusField(Idle))
    case OpSetDuration(d) => r.timer.state == TimerIdle && 30 <= d <= 600
    case OpStartTimer => r.timer.state == TimerIdle
    case OpResetTimer => r.timer.state != TimerIdle
    case _ => true
  }

  lemma CarriedOutIff(r: RoomData, e: RoomSpec.Event)
    ensures RoomSpec.Perform(r, e).outcome.Done? <==> Accepts(r, e.op)
  {
  }

  /** The participant an operation is about, if it is about one. */
  function About(op: RoomSpec.RoomOp): Option<Sid> {
    match op
    case OpJoin(sid, _, _) => Some(sid)
    case OpLeave(sid) => Some(sid)
    case OpRole(sid, _) => Some(sid)
    case OpVote(sid, _) => Some(sid)
    case OpName(sid, _) => Some(sid)
    case OpPresence(sid, _) => Some(sid)
    case OpDisconnect(sid) => Some(sid)
    case OpPing(sid) => Some(sid)
    case _ => None
  }

  /** An operation about one participant leaves everybody else, the phase and the timer as they were.  Of the others,
      a reveal and the timer's operations touch no participant, a new round takes nothing but cards, and clearing
      leaves nobody. */
  lemma OthersAreUntouched(r: RoomData, e: RoomSpec.Event, s: Sid)
    requires About(e.op) != Some(s)
    ensures var after := RoomSpec.Perform(r, e).room;
            if e.op.OpClear? then after.seats == map[]
            else
              && (s in after.seats <==> s in r.seats)
              && (s in r.seats ==>
                    after.seats[s] == if e.op.OpNewRound? && r.phase == PhaseReveal then r.seats[s].(vote := Blank)
                                      else r.seats[s])
    ensures About(e.op).Some? ==>
              RoomSpec.Perform(r, e).room.phase == r.phase && RoomSpec.Perform(r, e).room.timer == r.timer
  {
  }

  /** What an operation that is carried out makes of the participant it is about. */
  lemma SubjectBecomes(r: RoomData, e: RoomSpec.Event, s: Sid)
    requires About(e.op) == Some(s) && Accepts(r, e.op)
    ensures var after := RoomSpec.Perform(r, e).room;
            match e.op
            case OpJoin(_, name, role) =>
              && s in after.seats
              && var p := after.seats[s];
                 && p.sessionId == (if s in r.seats then r.seats[s].sessionId else s)
                 && p.name == Cut(Sanitize(name), 30) && p.status == Active && p.lastPing == e.at
                 && p.role == (if role == RoleField(Observer) then Observer else Voter)
                 && p.joinedAt == (if s in r.seats then r.seats[s].joinedAt else e.at)
                 && p.vote == (if s in r.seats && p.role == Voter then r.seats[s].vote else Blank)
            case OpLeave(_) => s !in after.seats
            case OpRole(_, role) =>
              && s in after.seats
              && after.seats[s] == r.seats[s].(role := role.role,
                                               vote := if role.role == Voter then r.seats[s].vote else Blank)
            case OpVote(_, value) => s in after.seats && after.seats[s] == r.seats[s].(vote := value)
            case OpName(_, name) =>
              s in after.seats && after.seats[s] == r.seats[s].(name := Cut(Sanitize(name), 30))
            case OpPresence(_, status) =>
              s in after.seats && after.seats[s] == r.seats[s].(status := status.status, lastPing := e.at)
            case OpDisconnect(_) =>
              if s in r.seats then s in after.seats && after.seats[s] == r.seats[s].(status := Disconnected)
              else s !in after.seats
            case OpPing(_) =>
              if s in r.seats then s in after.seats && after.seats[s] == r.seats[s].(lastPing := e.at)
              else s !in after.seats
            case _ => true
  {
  }

  /** A use of the room is recorded exactly when an operation is carried out; readings of the timer, pings and lost
      connections are none. */
  lemma UseIsRecordedIff(r: RoomData, e: RoomSpec.Event)
    ensures RoomSpec.Perform(r, e).room.lastActivity
            == if Accepts(r, e.op) && !e.op.OpTimerInfo? && !e.op.OpDisconnect? && !e.op.OpPing? then e.at
               else r.lastActivity
  {
  }

  // ----- who is told of a refusal -----

  /** The error code for a command, told from the room, the client's session and the command. */
  function Refusal(room: Option<RoomData>, s: Sid, cmd: Command): Option<ErrorCode> {
    match cmd
    case Malformed(code) => Some(code)
    case Join(sid, userName, _, role, creationAllowed) =>
      if !ValidSessionId(sid) then Some(InvalidMessage)
      else if userName == [] then Some(InvalidName)
      else if room.None? && !creationAllowed then Some(RateLimited)
      else if Sanitize(userName) == [] || role == BadRole then Some(InvalidName)
      else if room.Some? && sid !in room.value.seats && |room.value.seats| >= 50 then Some(RoomFull)
      else None
    case Leave => None
    case _ =>
      if s == "" then Some(InvalidMessage)
      else if room.None? then Some(RoomNotFound)
      else if Accepts(room.value, OpOf(s, cmd)) || cmd.TimerStart? || cmd.TimerReset? then None
      else if cmd.Vote? then Some(InvalidVote)
      else if cmd.UpdateName? then Some(InvalidName)
      else Some(InvalidMessage)
  }

  /** A refused client is told the code, nobody else is told anything, and the client's session and the room stay as
      they were, but for a timer that is read and a room made for a join that is then refused. */
  ghost predicate RefusedWith(re: Reaction, room: Option<RoomData>, s: Sid, code: ErrorCode) {
    && re.toSelf == [ErrorMsg(code)] && re.toOthers == [] && re.session == s
    && (room.Some? ==> re.room.Some? && re.room.value == room.value.(timer := re.room.value.timer)
                       && re.room.value.timer == room.value.timer.(state := re.room.value.timer.state))
    && (room.None? && re.room.Some? ==> re.room.value.seats == map[])
  }

  ghost predicate TellsNoError(re: Reaction) {
    (forall i :: 0 <= i < |re.toSelf| ==> !re.toSelf[i].ErrorMsg?)
    && (forall i :: 0 <= i < |re.toOthers| ==> !re.toOthers[i].ErrorMsg?)
  }

  ghost predicate AnsweredRightly(re: Reaction, room: Option<RoomData>, s: Sid, cmd: Command) {
    var refusal := Refusal(room, s, cmd);
    if refusal.Some? then RefusedWith(re, room, s, refusal.value) else TellsNoError(re)
  }

  lemma JoinIsAnsweredRightly(room: Option<RoomData>, s: Sid, roomId: string, cmd: Command, now: Time)
    requires cmd.Join?
    ensures AnsweredRightly(ReactJoin(room, s, roomId, cmd, now), room, s, cmd)
  {
  }

  lemma SeatCommandIsAnsweredRightly(room: RoomData, s: Sid, roomId: string, cmd: Command, now: Time)
    requires s != "" && (cmd.Vote? || cmd.UpdateName? || cmd.Presence? || cmd.UpdateRole?)
    ensures AnsweredRightly(React(Some(room), s, roomId, cmd, now), Some(room), s, cmd)
  {
  }

  lemma RevealIsAnsweredRightly(room: RoomData, s: Sid, now: Time)
    requires s != ""
    ensures AnsweredRightly(ReactReveal(room, s, now), Some(room), s, Reveal)
  {
  }

  lemma NewRoundIsAnsweredRightly(room: RoomData, s: Sid, now: Time)
    requires s != ""
    ensures AnsweredRightly(ReactNewRound(room, s, now), Some(room), s, NewRound)
  {
  }

  lemma TimerIsAnsweredRightly(room: RoomData, s: Sid, roomId: string, cmd: Command, now: Time)
    requires s != "" && (cmd.TimerSetDuration? || cmd.TimerStart? || cmd.TimerReset?)
    ensures AnsweredRightly(React(Some(room), s, roomId, cmd, now), Some(room), s, cmd)
  {
  }

  /** Every command is refused exactly when the table says so, with its code, to the sender alone. */
  lemma RefusalsAreTold(room: Option<RoomData>, s: Sid, roomId: string, cmd: Command, now: Time)
    ensures AnsweredRightly(React(room, s, roomId, cmd, now), room, s, cmd)
  {
    if cmd.Join? {
      JoinIsAnsweredRightly(room, s, roomId, cmd, now);
    } else if s != "" && room.Some? {
      if cmd.Vote? || cmd.UpdateName? || cmd.Presence? || cmd.UpdateRole? {
        SeatCommandIsAnsweredRightly(room.value, s, roomId, cmd, now);
      } else if cmd.Reveal? {
        RevealIsAnsweredRightly(room.value, s, now);
      } else if cmd.NewRound? {
        NewRoundIsAnsweredRightly(room.value, s, now);
      } else if cmd.TimerSetDuration? || cmd.TimerStart? || cmd.TimerReset? {
        TimerIsAnsweredRightly(room.value, s, roomId, cmd, now);
      }
    }
  }

  // ----- the timer that is told -----

  /** The payload is what a timer that expires exactly at its deadline shows, with the start in whole milliseconds. */
  predicate TellsAlarm(p: TimerPayload, a: RoomHistory.Alarm, now: Time) {
    var shown := RoomHistory.Shows(a, now);
    && p.duration == shown.duration && p.state == shown.state && p.remaining == shown.remaining
    && p.startedAt == if shown.startedAt.Some? then Some(shown.startedAt.value / 1_000_000) else None
  }

  /** Every timer in the messages is that of the room the handler leaves. */
  ghost predicate TellsTimer(ms: seq<Message>, room: Option<RoomData>, now: Time) {
    forall i :: 0 <= i < |ms| ==>
      && (ms[i].TimerUpdated? ==> room.Some? && TellsAlarm(ms[i].timer, RoomHistory.AlarmOf(room.value), now))
      && (ms[i].RoomStateMsg? ==> room.Some? && TellsAlarm(ms[i].state.timer, RoomHistory.AlarmOf(room.value), now))
  }

  lemma ReadTimerTellsAlarm(r: RoomData, now: Time)
    requires RoomHistory.Faithful(r.timer, now)
    ensures TellsAlarm(TimerPayloadOf(RoomSpec.ReadTimer(r.timer, now).1),
                       RoomHistory.AlarmOf(RoomSpec.TimerInfo(r, now)), now)
  {
    RoomHistory.ReadIsShow(r, now);
  }

  /** What a handler tells about timers: nothing, or the reading it stores. */
  ghost predicate TellsReading(ms: seq<Message>, r: RoomData, now: Time) {
    var p := TimerPayloadOf(RoomSpec.ReadTimer(r.timer, now).1);
    forall i :: 0 <= i < |ms| ==>
      (ms[i].TimerUpdated? ==> ms[i].timer == p) && (ms[i].RoomStateMsg? ==> ms[i].state.timer == p)
  }

  ghost predicate ReadsTimer(re: Reaction, r: RoomData, now: Time) {
    && re.room.Some?
    && (re.room == Some(RoomSpec.TimerInfo(r, now)) || (NoTimers(re.toSelf) && NoTimers(re.toOthers)))
    && TellsReading(re.toSelf, r, now) && TellsReading(re.toOthers, r, now)
  }

  predicate NoTimers(ms: seq<Message>) {
    forall i :: 0 <= i < |ms| ==> !ms[i].TimerUpdated? && !ms[i].RoomStateMsg?
  }

  lemma JoinTellsOneTimer(room: Option<RoomData>, s: Sid, roomId: string, cmd: Command, now: Time)
    requires cmd.Join?
    ensures var re := ReactJoin(room, s, roomId, cmd, now);
            NoTimers(re.toOthers) && (HasState(re.toSelf) || NoTimers(re.toSelf))
  {
    var re := ReactJoin(room, s, roomId, cmd, now);
    assert re.toSelf[0].RoomStateMsg? ==> HasState(re.toSelf);
  }

  lemma JoinReads(room: Option<RoomData>, s: Sid, roomId: string, cmd: Command, now: Time)
    requires cmd.Join? && HasState(ReactJoin(room, s, roomId, cmd, now).toSelf)
    ensures ReadsTimer(ReactJoin(room, s, roomId, cmd, now), JoinedRoom(room, roomId, cmd, now), now)
  {
    JoinTellsOneTimer(room, s, roomId, cmd, now);
    JoinSendsState(room, s, roomId, cmd, now);
  }

  lemma TimerCommandReads(room: RoomData, s: Sid, step: RoomSpec.Step, now: Time)
    ensures var re := ReactTimer(room, s, step, now);
            (NoTimers(re.toSelf) && NoTimers(re.toOthers)) || ReadsTimer(re, step.room, now)
  {
  }

  lemma NewRoundReads(room: RoomData, s: Sid, now: Time)
    ensures var re := ReactNewRound(room, s, now);
            (NoTimers(re.toSelf) && NoTimers(re.toOthers)) || ReadsTimer(re, RoomSpec.NewRound(room, now).room, now)
  {
  }

  lemma OtherCommandsTellNoTimer(room: RoomData, s: Sid, roomId: string, cmd: Command, now: Time)
    requires !cmd.Join? && !cmd.NewRound? && !cmd.TimerSetDuration? && !cmd.TimerStart? && !cmd.TimerReset?
    ensures var re := React(Some(room), s, roomId, cmd, now); NoTimers(re.toSelf) && NoTimers(re.toOthers)
  {
  }

  lemma RoomCommandReads(room: RoomData, s: Sid, roomId: string, cmd: Command, now: Time)
    requires !cmd.Join?
    ensures var re, after := React(Some(room), s, roomId, cmd, now),
                             RoomSpec.Perform(room, RoomSpec.Event(OpOf(s, cmd), now)).room;
            (NoTimers(re.toSelf) && NoTimers(re.toOthers)) || ReadsTimer(re, after, now)
  {
    if cmd.NewRound? {
      NewRoundReads(room, s, now);
    } else if cmd.TimerSetDuration? || cmd.TimerStart? || cmd.TimerReset? {
      TimerCommandReads(room, s, RoomSpec.Perform(room, RoomSpec.Event(OpOf(s, cmd), now)), now);
    } else {
      OtherCommandsTellNoTimer(room, s, roomId, cmd, now);
    }
  }

  lemma ReadingTellsTimer(re: Reaction, r: RoomData, now: Time)
    requires ReadsTimer(re, r, now) && RoomHistory.Faithful(r.timer, now)
    ensures TellsTimer(re.toSelf, re.room, now) && TellsTimer(re.toOthers, re.room, now)
  {
    ReadTimerTellsAlarm(r, now);
  }

  lemma NoTimersTellNothing(re: Reaction, now: Time)
    requires NoTimers(re.toSelf) && NoTimers(re.toOthers)
    ensures TellsTimer(re.toSelf, re.room, now) && TellsTimer(re.toOthers, re.room, now)
  {
  }

  lemma JoinLeavesTimer(room: Option<RoomData>, roomId: string, cmd: Command, since: Time, now: Time)
    requires cmd.Join? && since <= now && (room.Some? ==> RoomHistory.Faithful(room.value.timer, since))
    ensures RoomHistory.Faithful(JoinedRoom(room, roomId, cmd, now).timer, now)
  {
  }

  lemma JoinTellsRightTimer(room: Option<RoomData>, s: Sid, roomId: string, cmd: Command, since: Time, now: Time)
    requires cmd.Join? && since <= now && (room.Some? ==> RoomHistory.Faithful(room.value.timer, since))
    ensures var re := ReactJoin(room, s, roomId, cmd, now);
            TellsTimer(re.toSelf, re.room, now) && TellsTimer(re.toOthers, re.room, now)
  {
    var re := ReactJoin(room, s, roomId, cmd, now);
    JoinTellsOneTimer(room, s, roomId, cmd, now);
    if HasState(re.toSelf) {
      JoinReads(room, s, roomId, cmd, now);
      JoinLeavesTimer(room, roomId, cmd, since, now);
      ReadingTellsTimer(re, JoinedRoom(room, roomId, cmd, now), now);
    } else {
      NoTimersTellNothing(re, now);
    }
  }

  lemma CommandTellsRightTimer(room: RoomData, s: Sid, roomId: string, cmd: Command, since: Time, now: Time)
    requires !cmd.Join? && since <= now && RoomHistory.Faithful(room.timer, since)
    ensures var re := React(Some(room), s, roomId, cmd, now);
            TellsTimer(re.toSelf, re.room, now) && TellsTimer(re.toOthers, re.room, now)
  {
    var re, e := React(Some(room), s, roomId, cmd, now), RoomSpec.Event(OpOf(s, cmd), now);
    RoomCommandReads(room, s, roomId, cmd, now);
    RoomHistory.StaysFaithful(room, e, since);
    if NoTimers(re.toSelf) && NoTimers(re.toOthers) {
      NoTimersTellNothing(re, now);
    } else {
      ReadingTellsTimer(re, RoomSpec.Perform(room, e).room, now);
    }
  }

  /** Every timer told by a handler, in a timer_updated or a room_state, is the timer of the room it leaves, as one that
      expires exactly at its deadline would show it at that moment. */
  lemma ToldTimersAreRight(room: Option<RoomData>, s: Sid, roomId: string, cmd: Command, since: Time, now: Time)
    requires room.Some? ==> RoomHistory.Faithful(room.value.timer, since)
    requires since <= now
    ensures var re := React(room, s, roomId, cmd, now);
            TellsTimer(re.toSelf, re.room, now) && TellsTimer(re.toOthers, re.room, now)
  {
    if cmd.Join? {
      JoinTellsRightTimer(room, s, roomId, cmd, since, now);
    } else if room.Some? {
      CommandTellsRightTimer(room.value, s, roomId, cmd, since, now);
    } else {
      NoTimersTellNothing(React(room, s, roomId, cmd, now), now);
    }
  }

  /** Reading the timer stores the state it shows, and nothing else. */
  lemma ReadingStoresWhatItShows(r: RoomData, now: Time)
    ensures RoomSpec.TimerInfo(r, now)
            == r.(timer := r.timer.(state := RoomSpec.ReadTimer(r.timer, now).1.state))
  {
  }
}
