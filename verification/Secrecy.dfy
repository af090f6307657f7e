/** Vote secrecy as a property of two runs that differ only in which card is played. */
module Secrecy {
  import opened Common
  import opened Names
  import opened RoomTypes
  import RoomSpec
  import opened Protocol
  import opened Replica
  import opened Runs

  predicate IsCard(c: Card) { ValidVote(c) && c != Blank }

  predicate SameSeat(a: Seat, b: Seat) {
    a.(vote := b.vote) == b && (a.vote == Blank <==> b.vote == Blank)
  }

  ghost predicate SameSeats(a: Seats, b: Seats) {
    a.Keys == b.Keys && forall s :: s in a ==> SameSeat(a[s], b[s])
  }

  /** Rooms that differ at most in which card each voter holds. */
  ghost predicate SameButCards(a: RoomData, b: RoomData) {
    a.(seats := b.seats) == b && SameSeats(a.seats, b.seats)
  }

  ghost predicate SameRooms(a: Option<RoomData>, b: Option<RoomData>) {
    a.Some? == b.Some? && (a.Some? ==> SameButCards(a.value, b.value))
  }

  /** Commands that are the same except, for a vote, which valid card is sent. */
  predicate SameCommand(x: Command, y: Command) {
    x == y || (x.Vote? && y.Vote? && IsCard(x.value) && IsCard(y.value))
  }

  predicate SameEvent(x: WorldEvent, y: WorldEvent) {
    x == y || (x.Act? && y.Act? && x.client == y.client && x.at == y.at && SameCommand(x.cmd, y.cmd))
  }

  // ----- the roster shows no cards -----

  lemma SameRoster(a: Seats, b: Seats)
    requires Keyed(a) && Keyed(b) && SameSeats(a, b)
    ensures Roster(a) == Roster(b)
  {
    forall s | s in a
      ensures InfoOf(a[s]) == InfoOf(b[s]) && a[s].joinedAt == b[s].joinedAt
    {
      assert SameSeat(a[s], b[s]);
    }
    RosterOfSameInfos(a, b);
  }

  lemma SameState(a: RoomData, b: RoomData, now: Time)
    requires SameButCards(a, b) && a.phase == PhaseVoting && Keyed(a.seats) && Keyed(b.seats)
    ensures StateOf(a, now) == StateOf(b, now)
  {
    SameRoster(a.seats, b.seats);
  }

  // ----- one operation -----

  lemma SameSeatUpdate(a: Seats, b: Seats, s: Sid, p: Seat, q: Seat)
    requires SameSeats(a, b) && SameSeat(p, q)
    ensures SameSeats(a[s := p], b[s := q])
  {
  }

  lemma SameCount(a: Seats, b: Seats)
    requires a.Keys == b.Keys
    ensures |a| == |b|
  {
    assert |a| == |a.Keys| && |b| == |b.Keys|;
  }

  /** Both rooms rewrite the seat of `s`, or neither does. */
  lemma SameSeatSteps(a: RoomData, b: RoomData, x: RoomSpec.Step, y: RoomSpec.Step, s: Sid, p: Seat, q: Seat)
    requires SameButCards(a, b) && SameSeat(p, q) && x.outcome == y.outcome
    requires x.room == a.(seats := a.seats[s := p], lastActivity := x.room.lastActivity) || (x.room == a && y.room == b)
    requires y.room == b.(seats := b.seats[s := q], lastActivity := x.room.lastActivity) || (x.room == a && y.room == b)
    ensures SameButCards(x.room, y.room)
  {
    SameSeatUpdate(a.seats, b.seats, s, p, q);
  }

  lemma SameSeatOf(a: RoomData, b: RoomData, s: Sid)
    requires SameButCards(a, b)
    ensures s in a.seats <==> s in b.seats
    ensures s in a.seats ==> SameSeat(a.seats[s], b.seats[s])
    ensures |a.seats| == |b.seats|
  {
    SameCount(a.seats, b.seats);
  }

  ghost predicate SameSteps(x: RoomSpec.Step, y: RoomSpec.Step) {
    SameButCards(x.room, y.room) && x.outcome == y.outcome
  }

  lemma SameCastVote(a: RoomData, b: RoomData, s: Sid, v: Card, u: Card, now: Time)
    requires SameButCards(a, b) && (v == u || (IsCard(v) && IsCard(u)))
    ensures SameSteps(RoomSpec.CastVote(a, s, v, now), RoomSpec.CastVote(b, s, u, now))
  {
    SameSeatOf(a, b, s);
    if s in a.seats {
      SameSeatSteps(a, b, RoomSpec.CastVote(a, s, v, now), RoomSpec.CastVote(b, s, u, now), s,
                    a.seats[s].(vote := v), b.seats[s].(vote := u));
    }
  }

  lemma SameAdmit(a: RoomData, b: RoomData, s: Sid, name: Text, role: Role, now: Time)
    requires SameButCards(a, b)
    ensures SameSteps(RoomSpec.Admit(a, s, name, role, now), RoomSpec.Admit(b, s, name, role, now))
  {
    SameSeatOf(a, b, s);
    var x, y := RoomSpec.Admit(a, s, name, role, now), RoomSpec.Admit(b, s, name, role, now);
    if s in x.room.seats {
      SameSeatSteps(a, b, x, y, s, x.room.seats[s], y.room.seats[s]);
    }
  }

  lemma SameUpdateRole(a: RoomData, b: RoomData, s: Sid, role: RoleField, now: Time)
    requires SameButCards(a, b)
    ensures SameSteps(RoomSpec.UpdateRole(a, s, role, now), RoomSpec.UpdateRole(b, s, role, now))
  {
    SameSeatOf(a, b, s);
    var x, y := RoomSpec.UpdateRole(a, s, role, now), RoomSpec.UpdateRole(b, s, role, now);
    if s in a.seats {
      SameSeatSteps(a, b, x, y, s, x.room.seats[s], y.room.seats[s]);
    }
  }

  lemma SameUpdateName(a: RoomData, b: RoomData, s: Sid, name: Text, now: Time)
    requires SameButCards(a, b)
    ensures SameSteps(RoomSpec.UpdateName(a, s, name, now), RoomSpec.UpdateName(b, s, name, now))
  {
    SameSeatOf(a, b, s);
    var x, y := RoomSpec.UpdateName(a, s, name, now), RoomSpec.UpdateName(b, s, name, now);
    if s in a.seats {
      SameSeatSteps(a, b, x, y, s, x.room.seats[s], y.room.seats[s]);
    }
  }

  lemma SameUpdatePresence(a: RoomData, b: RoomData, s: Sid, status: StatusField, now: Time)
    requires SameButCards(a, b)
    ensures SameSteps(RoomSpec.UpdatePresence(a, s, status, now), RoomSpec.UpdatePresence(b, s, status, now))
  {
    SameSeatOf(a, b, s);
    var x, y := RoomSpec.UpdatePresence(a, s, status, now), RoomSpec.UpdatePresence(b, s, status, now);
    if s in a.seats {
      SameSeatSteps(a, b, x, y, s, x.room.seats[s], y.room.seats[s]);
    }
  }

  /** A new round forgets the cards: rooms that differed only in them become equal. */
  lemma NewRoundForgets(a: RoomData, b: RoomData, now: Time)
    requires SameButCards(a, b)
    ensures SameSteps(RoomSpec.NewRound(a, now), RoomSpec.NewRound(b, now))
    ensures a.phase == PhaseReveal ==> RoomSpec.NewRound(a, now).room == RoomSpec.NewRound(b, now).room
  {
    assert forall s :: s in a.seats ==> SameSeat(a.seats[s], b.seats[s]);
    assert RoomSpec.WithoutVotes(a.seats) == RoomSpec.WithoutVotes(b.seats);
  }

  lemma SameLeave(a: RoomData, b: RoomData, s: Sid, now: Time)
    requires SameButCards(a, b)
    ensures SameSteps(RoomSpec.Leave(a, s, now), RoomSpec.Leave(b, s, now))
  {
    assert forall t :: t in a.seats ==> SameSeat(a.seats[t], b.seats[t]);
  }

  // ----- one handler -----

  /** Whatever the phase, a handler leaves alike rooms alike and keeps the same session. */
  ghost predicate SameReactions(x: Reaction, y: Reaction) {
    SameRooms(x.room, y.room) && x.session == y.session
  }

  ghost predicate SameReactionsAndMessages(x: Reaction, y: Reaction) {
    SameReactions(x, y) && x.toSelf == y.toSelf && x.toOthers == y.toOthers
  }

  lemma SameReactVote(a: RoomData, b: RoomData, s: Sid, v: Card, u: Card, now: Time)
    requires SameButCards(a, b) && (v == u || (IsCard(v) && IsCard(u)))
    ensures SameReactionsAndMessages(ReactVote(a, s, v, now), ReactVote(b, s, u, now))
  {
    SameCastVote(a, b, s, v, u, now);
    SameSeatOf(a, b, s);
  }

  lemma SameReactReveal(a: RoomData, b: RoomData, s: Sid, now: Time)
    requires SameButCards(a, b)
    ensures SameReactions(ReactReveal(a, s, now), ReactReveal(b, s, now))
  {
  }

  lemma SameReactNewRound(a: RoomData, b: RoomData, s: Sid, now: Time)
    requires SameButCards(a, b)
    ensures SameReactionsAndMessages(ReactNewRound(a, s, now), ReactNewRound(b, s, now))
    ensures a.phase == PhaseReveal ==> ReactNewRound(a, s, now).room == ReactNewRound(b, s, now).room
  {
    NewRoundForgets(a, b, now);
  }

  lemma SameReactName(a: RoomData, b: RoomData, s: Sid, name: Text, now: Time)
    requires SameButCards(a, b)
    ensures SameReactionsAndMessages(ReactName(a, s, name, now), ReactName(b, s, name, now))
  {
    SameUpdateName(a, b, s, name, now);
    var x, y := RoomSpec.UpdateName(a, s, name, now), RoomSpec.UpdateName(b, s, name, now);
    SameSeatOf(x.room, y.room, s);
  }

  lemma SameReactPresence(a: RoomData, b: RoomData, s: Sid, status: StatusField, now: Time)
    requires SameButCards(a, b)
    ensures SameReactionsAndMessages(ReactPresence(a, s, status, now), ReactPresence(b, s, status, now))
  {
    SameUpdatePresence(a, b, s, status, now);
  }

  lemma SameReactRole(a: RoomData, b: RoomData, s: Sid, role: RoleField, now: Time)
    requires SameButCards(a, b)
    ensures SameReactionsAndMessages(ReactRole(a, s, role, now), ReactRole(b, s, role, now))
  {
    SameUpdateRole(a, b, s, role, now);
  }

  lemma SameReactTimer(a: RoomData, b: RoomData, s: Sid, x: RoomSpec.Step, y: RoomSpec.Step, now: Time)
    requires SameButCards(a, b) && SameSteps(x, y)
    ensures SameReactionsAndMessages(ReactTimer(a, s, x, now), ReactTimer(b, s, y, now))
  {
  }

  lemma SameReactLeave(a: RoomData, b: RoomData, s: Sid, now: Time)
    requires SameButCards(a, b)
    ensures SameReactionsAndMessages(ReactLeave(a, s, now), ReactLeave(b, s, now))
  {
    SameLeave(a, b, s, now);
  }

  ghost function JoinStep(r: RoomData, cmd: Command, now: Time): RoomSpec.Step
    requires cmd.Join?
  {
    RoomSpec.Join(r, cmd.sid, cmd.userName, cmd.role, now)
  }

  /** The join on the room object, and the state sent after it. */
  lemma SameJoin(a: RoomData, b: RoomData, cmd: Command, now: Time)
    requires SameButCards(a, b) && cmd.Join?
    ensures SameSteps(JoinStep(a, cmd, now), JoinStep(b, cmd, now))
    ensures RoomSpec.RoomOk(a) && RoomSpec.RoomOk(b) && a.phase == PhaseVoting
            && JoinStep(a, cmd, now).outcome.Done? ==>
              StateOf(JoinStep(a, cmd, now).room, now) == StateOf(JoinStep(b, cmd, now).room, now)
  {
    var stored, role := RoomSpec.StoredName(cmd.userName), RoomSpec.JoinRole(cmd.role);
    if stored.Some? && role.Some? {
      SameAdmit(a, b, cmd.sid, stored.value, role.value, now);
      SameStateAfterAdmit(a, b, cmd.sid, stored.value, role.value, now);
    }
  }

  lemma SameReactJoin(a: RoomData, b: RoomData, session: Sid, roomId: string, cmd: Command, now: Time)
    requires SameButCards(a, b) && cmd.Join?
    ensures SameReactions(ReactJoin(Some(a), session, roomId, cmd, now), ReactJoin(Some(b), session, roomId, cmd, now))
  {
    SameJoin(a, b, cmd, now);
  }

  lemma SameJoinNews(a: RoomData, b: RoomData, session: Sid, roomId: string, cmd: Command, now: Time)
    requires SameButCards(a, b) && cmd.Join?
    ensures ReactJoin(Some(a), session, roomId, cmd, now).toOthers
         == ReactJoin(Some(b), session, roomId, cmd, now).toOthers
  {
    SameJoin(a, b, cmd, now);
    SameSeatOf(a, b, cmd.sid);
    SameSeatOf(JoinStep(a, cmd, now).room, JoinStep(b, cmd, now).room, cmd.sid);
  }

  lemma SameJoinAnswer(a: RoomData, b: RoomData, session: Sid, roomId: string, cmd: Command, now: Time)
    requires SameButCards(a, b) && cmd.Join? && RoomSpec.RoomOk(a) && RoomSpec.RoomOk(b) && a.phase == PhaseVoting
    ensures ReactJoin(Some(a), session, roomId, cmd, now).toSelf == ReactJoin(Some(b), session, roomId, cmd, now).toSelf
  {
    SameJoin(a, b, cmd, now);
  }

  lemma SameStateAfterAdmit(a: RoomData, b: RoomData, s: Sid, name: Text, role: Role, now: Time)
    requires SameButCards(a, b)
    ensures RoomSpec.RoomOk(a) && RoomSpec.RoomOk(b) && a.phase == PhaseVoting ==>
              StateOf(RoomSpec.Admit(a, s, name, role, now).room, now)
              == StateOf(RoomSpec.Admit(b, s, name, role, now).room, now)
  {
    if RoomSpec.RoomOk(a) && RoomSpec.RoomOk(b) && a.phase == PhaseVoting {
      SameAdmit(a, b, s, name, role, now);
      AdmitKeepsKeys(a, s, name, role, now);
      AdmitKeepsKeys(b, s, name, role, now);
      SameState(RoomSpec.Admit(a, s, name, role, now).room, RoomSpec.Admit(b, s, name, role, now).room, now);
    }
  }

  lemma AdmitKeepsKeys(r: RoomData, s: Sid, name: Text, role: Role, now: Time)
    requires RoomSpec.RoomOk(r)
    ensures Keyed(RoomSpec.Admit(r, s, name, role, now).room.seats)
    ensures RoomSpec.Admit(r, s, name, role, now).room.phase == r.phase
  {
    RoomSpec.RoomIsKeyed(r);
  }

  /** The handler of a command, without the cases that need no room. */
  lemma SameReactInRoom(a: RoomData, b: RoomData, s: Sid, roomId: string, x: Command, y: Command, now: Time)
    requires SameButCards(a, b) && SameCommand(x, y) && s != "" && !x.Join? && !x.Malformed?
    ensures SameReactions(React(Some(a), s, roomId, x, now), React(Some(b), s, roomId, y, now))
    ensures !x.Reveal? ==>
              SameReactionsAndMessages(React(Some(a), s, roomId, x, now), React(Some(b), s, roomId, y, now))
  {
    match x {
      case Vote(v) => SameReactVote(a, b, s, v, y.value, now);
      case Reveal => SameReactReveal(a, b, s, now);
      case NewRound => SameReactNewRound(a, b, s, now);
      case ClearRoom =>
      case UpdateName(name) => SameReactName(a, b, s, name, now);
      case Presence(status) => SameReactPresence(a, b, s, status, now);
      case UpdateRole(role) => SameReactRole(a, b, s, role, now);
      case TimerSetDuration(d) =>
        SameReactTimer(a, b, s, RoomSpec.SetTimerDuration(a, d, now), RoomSpec.SetTimerDuration(b, d, now), now);
      case TimerStart => SameReactTimer(a, b, s, RoomSpec.StartTimer(a, now), RoomSpec.StartTimer(b, now), now);
      case TimerReset => SameReactTimer(a, b, s, RoomSpec.ResetTimer(a, now), RoomSpec.ResetTimer(b, now), now);
      case Leave => SameReactLeave(a, b, s, now);
    }
  }

  /** In the voting phase the messages are the same too, unless the command reveals the votes. */
  lemma SameReact(a: Option<RoomData>, b: Option<RoomData>, s: Sid, roomId: string, x: Command, y: Command, now: Time)
    requires SameRooms(a, b) && SameCommand(x, y)
    requires (a.Some? ==> RoomSpec.RoomOk(a.value)) && (b.Some? ==> RoomSpec.RoomOk(b.value))
    ensures SameReactions(React(a, s, roomId, x, now), React(b, s, roomId, y, now))
    ensures (a.Some? ==> a.value.phase == PhaseVoting && React(a, s, roomId, x, now).room.Some?
                         && React(a, s, roomId, x, now).room.value.phase == PhaseVoting) ==>
              SameReactionsAndMessages(React(a, s, roomId, x, now), React(b, s, roomId, y, now))
  {
    if a.Some? {
      if x.Join? {
        SameReactJoin(a.value, b.value, s, roomId, x, now);
        SameJoinNews(a.value, b.value, s, roomId, x, now);
        if a.value.phase == PhaseVoting {
          SameJoinAnswer(a.value, b.value, s, roomId, x, now);
        }
      } else if s != "" && !x.Malformed? {
        SameReactInRoom(a.value, b.value, s, roomId, x, y, now);
      }
    }
  }

  // ----- runs -----

  /** The server's rooms agree up to cards, and the same clients hold the same sessions. */
  ghost predicate SameServers(v: World, w: World) {
    SameRooms(v.sys.room, w.sys.room) && v.sys.registered == w.sys.registered
    && SameSessions(v.sys.conns, w.sys.conns)
  }

  ghost predicate SameSessions(a: map<ClientId, Conn>, b: map<ClientId, Conn>) {
    a.Keys == b.Keys && forall c :: c in a ==> a[c].session == b[c].session
  }

  lemma SameSessionsUpdate(a: map<ClientId, Conn>, b: map<ClientId, Conn>, c: ClientId, p: Conn, q: Conn)
    requires SameSessions(a, b) && p.session == q.session
    ensures SameSessions(a[c := p], b[c := q])
  {
  }

  lemma SameDroppedSessions(s: Sys, t: Sys, c: ClientId)
    requires c in s.conns && c in t.conns && SameSessions(s.conns, t.conns)
    ensures SameSessions(Drop(s, c).conns, Drop(t, c).conns)
  {
    assert Drop(s, c).conns.Keys == s.conns.Keys - {c};
    assert Drop(t, c).conns.Keys == t.conns.Keys - {c};
  }

  /** In addition every send buffer, every message in flight and every browser's copy is the same. */
  ghost predicate SameToClients(v: World, w: World) {
    && SameRooms(v.sys.room, w.sys.room) && v.sys.registered == w.sys.registered
    && v.sys.conns == w.sys.conns && v.wire == w.wire && v.replicas == w.replicas
  }

  ghost predicate BothOk(v: World, w: World) {
    SameClients(v) && SameClients(w) && SysOk(v.sys) && SysOk(w.sys)
  }

  ghost predicate StillVoting(w: World) { w.sys.room.Some? ==> w.sys.room.value.phase == PhaseVoting }

  lemma SameCarriedServers(s: Sys, t: Sys, c: ClientId, re: Reaction, re': Reaction)
    requires c in s.conns && c in t.conns && SameSessions(s.conns, t.conns) && s.registered == t.registered
    requires SameReactions(re, re')
    ensures var s', t' := CarryOut(s, c, re), CarryOut(t, c, re');
            SameRooms(s'.room, t'.room) && s'.registered == t'.registered && SameSessions(s'.conns, t'.conns)
  {
    var s', t' := CarryOut(s, c, re), CarryOut(t, c, re');
    assert s'.conns.Keys == s.conns.Keys && t'.conns.Keys == t.conns.Keys;
    forall d | d in s.conns
      ensures s'.conns[d].session == t'.conns[d].session
    {
      SendAllKeepsSession(s.conns[d].(session := re.session), re.toSelf);
      SendAllKeepsSession(t.conns[d].(session := re'.session), re'.toSelf);
      SendAllKeepsSession(s.conns[d], re.toOthers);
      SendAllKeepsSession(t.conns[d], re'.toOthers);
    }
  }

  lemma SameCarriedConns(s: Sys, t: Sys, c: ClientId, re: Reaction, re': Reaction)
    requires c in s.conns && s.conns == t.conns && s.registered == t.registered
    requires SameReactionsAndMessages(re, re')
    ensures CarryOut(s, c, re).conns == CarryOut(t, c, re').conns
  {
  }

  lemma SameCarriedClients(v: World, w: World, c: ClientId, re: Reaction, re': Reaction, x: World, y: World)
    requires c in v.sys.conns && SameToClients(v, w) && SameReactionsAndMessages(re, re')
    requires x == v.(sys := CarryOut(v.sys, c, re), notes := x.notes)
    requires y == w.(sys := CarryOut(w.sys, c, re'), notes := y.notes)
    ensures SameToClients(x, y)
  {
    SameCarriedConns(v.sys, w.sys, c, re, re');
  }

  lemma SameActServers(v: World, w: World, roomId: string, c: ClientId, x: Command, y: Command, now: Time)
    requires BothOk(v, w) && c in v.sys.conns && c in w.sys.conns && SameCommand(x, y) && SameServers(v, w)
    ensures SameServers(ActStep(v, roomId, c, x, now), ActStep(w, roomId, c, y, now))
  {
    var s, t := v.sys, w.sys;
    SameReact(s.room, t.room, s.conns[c].session, roomId, x, y, now);
    SameCarriedServers(s, t, c, React(s.room, s.conns[c].session, roomId, x, now),
                       React(t.room, t.conns[c].session, roomId, y, now));
  }

  lemma SameActClients(v: World, w: World, roomId: string, c: ClientId, x: Command, y: Command, now: Time)
    requires BothOk(v, w) && c in v.sys.conns && c in w.sys.conns && SameCommand(x, y) && SameToClients(v, w)
    requires StillVoting(v) && StillVoting(ActStep(v, roomId, c, x, now))
    ensures SameToClients(ActStep(v, roomId, c, x, now), ActStep(w, roomId, c, y, now))
  {
    var s, t := v.sys, w.sys;
    SameReact(s.room, t.room, s.conns[c].session, roomId, x, y, now);
    ReactKeepsRoomOk(s.room, s.conns[c].session, roomId, x, now);
    SameCarriedClients(v, w, c, React(s.room, s.conns[c].session, roomId, x, now),
                       React(t.room, t.conns[c].session, roomId, y, now),
                       ActStep(v, roomId, c, x, now), ActStep(w, roomId, c, y, now));
  }

  lemma SameDisconnect(a: RoomData, b: RoomData, s: Sid)
    requires SameButCards(a, b)
    ensures SameButCards(RoomSpec.MarkDisconnected(a, s), RoomSpec.MarkDisconnected(b, s))
  {
    SameSeatOf(a, b, s);
    if s in a.seats {
      SameSeatUpdate(a.seats, b.seats, s, a.seats[s].(status := Disconnected), b.seats[s].(status := Disconnected));
    }
  }

  lemma SamePing(a: RoomData, b: RoomData, s: Sid, now: Time)
    requires SameButCards(a, b)
    ensures SameButCards(RoomSpec.UpdatePing(a, s, now), RoomSpec.UpdatePing(b, s, now))
  {
    SameSeatOf(a, b, s);
    if s in a.seats {
      SameSeatUpdate(a.seats, b.seats, s, a.seats[s].(lastPing := now), b.seats[s].(lastPing := now));
    }
  }

  lemma SameDepartServers(v: World, w: World, c: ClientId)
    requires BothOk(v, w) && c in v.sys.conns && c in w.sys.conns && SameServers(v, w)
    ensures SameServers(DepartStep(v, c), DepartStep(w, c))
  {
    if v.sys.room.Some? {
      SameDisconnect(v.sys.room.value, w.sys.room.value, v.sys.conns[c].session);
    }
    SameDroppedSessions(v.sys, w.sys, c);
  }

  lemma SameDepartClients(v: World, w: World, c: ClientId)
    requires BothOk(v, w) && c in v.sys.conns && c in w.sys.conns && SameToClients(v, w)
    ensures SameToClients(DepartStep(v, c), DepartStep(w, c))
  {
    if v.sys.room.Some? {
      SameDisconnect(v.sys.room.value, w.sys.room.value, v.sys.conns[c].session);
    }
    assert Drop(v.sys, c).conns == Drop(w.sys, c).conns;
  }

  lemma SamePingStep(v: World, w: World, c: ClientId, now: Time)
    requires BothOk(v, w) && c in v.sys.conns && c in w.sys.conns && SameServers(v, w)
    ensures SameServers(PingStep(v, c, now), PingStep(w, c, now))
    ensures SameToClients(v, w) ==> SameToClients(PingStep(v, c, now), PingStep(w, c, now))
  {
    if v.sys.room.Some? {
      SamePing(v.sys.room.value, w.sys.room.value, v.sys.conns[c].session, now);
    }
  }

  lemma SamePumpServers(v: World, w: World, c: ClientId)
    requires SameClients(v) && SameClients(w) && c in v.sys.conns && c in w.sys.conns && SameServers(v, w)
    ensures SameServers(PumpStep(v, c), PumpStep(w, c))
  {
    PumpUpdatesConn(v, c);
    PumpUpdatesConn(w, c);
    SameSessionsUpdate(v.sys.conns, w.sys.conns, c, PumpStep(v, c).sys.conns[c], PumpStep(w, c).sys.conns[c]);
  }

  lemma SameStepServers(v: World, w: World, roomId: string, x: WorldEvent, y: WorldEvent)
    requires BothOk(v, w) && SameEvent(x, y) && SameServers(v, w)
    ensures SameServers(Step(v, roomId, x), Step(w, roomId, y))
  {
    match x {
      case Act(c, cmd, now) => if c in v.sys.conns { SameActServers(v, w, roomId, c, cmd, y.cmd, now); }
      case Depart(c) => if c in v.sys.conns { SameDepartServers(v, w, c); }
      case Ping(c, now) => if c in v.sys.conns { SamePingStep(v, w, c, now); }
      case Pump(c) => if c in v.sys.conns { SamePumpServers(v, w, c); }
      case Arrive(c, shown) => SameArrivalServers(v, w, roomId, c, shown);
      case Deliver(c) => DeliverLeavesServer(v, roomId, c); DeliverLeavesServer(w, roomId, c);
      case Collect =>
    }
  }

  lemma SameArrivalServers(v: World, w: World, roomId: string, c: ClientId, shown: Replica)
    requires SameClients(v) && SameClients(w) && SameServers(v, w)
    ensures SameServers(Step(v, roomId, Arrive(c, shown)), Step(w, roomId, Arrive(c, shown)))
  {
    SameSessionsUpdate(v.sys.conns, w.sys.conns, c, Conn("", [], false), Conn("", [], false));
  }

  lemma DeliverLeavesServer(w: World, roomId: string, c: ClientId)
    requires SameClients(w)
    ensures Step(w, roomId, Deliver(c)).sys == w.sys
  {
  }

  lemma SameStepClients(v: World, w: World, roomId: string, x: WorldEvent, y: WorldEvent)
    requires BothOk(v, w) && SameEvent(x, y) && SameToClients(v, w)
    requires StillVoting(v) && StillVoting(Step(v, roomId, x))
    ensures SameToClients(Step(v, roomId, x), Step(w, roomId, y))
  {
    match x {
      case Act(c, cmd, now) => if c in v.sys.conns { SameActClients(v, w, roomId, c, cmd, y.cmd, now); }
      case Depart(c) => if c in v.sys.conns { SameDepartClients(v, w, c); }
      case Ping(c, now) => if c in v.sys.conns { SamePingStep(v, w, c, now); }
      case Pump(c) => SameMoveClients(v, w, roomId, x);
      case Deliver(c) => SameMoveClients(v, w, roomId, x);
      case Arrive(c, shown) =>
      case Collect =>
    }
  }

  lemma SameMoveClients(v: World, w: World, roomId: string, x: WorldEvent)
    requires SameClients(v) && SameClients(w) && SameToClients(v, w) && (x.Pump? || x.Deliver?)
    ensures SameToClients(Step(v, roomId, x), Step(w, roomId, x))
  {
  }

  ghost predicate SameRuns(xs: seq<WorldEvent>, ys: seq<WorldEvent>) {
    |xs| == |ys| && forall i :: 0 <= i < |xs| ==> SameEvent(xs[i], ys[i])
  }

  /** Two runs that differ only in the cards played keep rooms that differ only in the cards held. */
  lemma {:induction false} RunsStayAlike(roomId: string, xs: seq<WorldEvent>, ys: seq<WorldEvent>)
    requires SameRuns(xs, ys)
    ensures SameServers(RunWorld(roomId, xs), RunWorld(roomId, ys))
  {
    if xs == [] {
    } else {
      var n := |xs| - 1;
      RunsStayAlike(roomId, xs[..n], ys[..n]);
      RunKeepsSysOk(roomId, xs[..n]);
      RunKeepsSysOk(roomId, ys[..n]);
      SameStepServers(RunWorld(roomId, xs[..n]), RunWorld(roomId, ys[..n]), roomId, xs[n], ys[n]);
    }
  }

  /** Vote secrecy.  As long as no reveal has succeeded, nothing any client was, is being, or is about to be
      sent, and nothing any browser shows, depends on which cards were played. */
  lemma {:induction false} VoteSecrecy(roomId: string, xs: seq<WorldEvent>, ys: seq<WorldEvent>)
    requires SameRuns(xs, ys)
    requires forall k :: 0 <= k <= |xs| ==> StillVoting(RunWorld(roomId, xs[..k]))
    ensures SameToClients(RunWorld(roomId, xs), RunWorld(roomId, ys))
  {
    assert xs[..|xs|] == xs;
    if xs == [] {
    } else {
      var n := |xs| - 1;
      forall k | 0 <= k <= n
        ensures StillVoting(RunWorld(roomId, xs[..n][..k]))
      {
        assert xs[..n][..k] == xs[..k];
      }
      VoteSecrecy(roomId, xs[..n], ys[..n]);
      RunKeepsSysOk(roomId, xs[..n]);
      RunKeepsSysOk(roomId, ys[..n]);
      SameStepClients(RunWorld(roomId, xs[..n]), RunWorld(roomId, ys[..n]), roomId, xs[n], ys[n]);
    }
  }

  // ----- secrecy in every round -----

  /** What the event queues for client `d`. */
  ghost function QueuedBy(w: World, roomId: string, e: WorldEvent, d: ClientId): seq<Message>
    requires SameClients(w)
  {
    match e
    case Act(c, cmd, now) =>
      if c in w.sys.conns then MessagesFor(w.sys, React(w.sys.room, w.sys.conns[c].session, roomId, cmd, now), c, d)
      else []
    case Depart(c) =>
      if c in w.sys.conns && w.sys.conns[c].session != "" && w.sys.room.Some? && d in w.sys.registered - {c}
      then [PresenceChanged(w.sys.conns[c].session, Disconnected)] else []
    case _ => []
  }

  /** What `events` queue for client `d` after the run `before`. */
  ghost function QueuedAfter(roomId: string, before: seq<WorldEvent>, events: seq<WorldEvent>, d: ClientId):
    seq<Message>
  {
    if events == [] then []
    else
      var earlier, e := events[..|events| - 1], events[|events| - 1];
      QueuedAfter(roomId, before, earlier, d) + QueuedBy(RunWorld(roomId, before + earlier), roomId, e, d)
  }

  lemma SameReactionsQueueSame(s: Sys, t: Sys, re: Reaction, re': Reaction, c: ClientId, d: ClientId)
    requires SameReactionsAndMessages(re, re') && s.registered == t.registered
    ensures MessagesFor(s, re, c, d) == MessagesFor(t, re', c, d)
  {
  }

  lemma SameActQueued(v: World, w: World, roomId: string, c: ClientId, x: Command, y: Command, now: Time, d: ClientId)
    requires BothOk(v, w) && SameServers(v, w) && SameCommand(x, y) && c in v.sys.conns
    requires StillVoting(v) && StillVoting(ActStep(v, roomId, c, x, now))
    ensures QueuedBy(v, roomId, Act(c, x, now), d) == QueuedBy(w, roomId, Act(c, y, now), d)
  {
    var session := v.sys.conns[c].session;
    SameReact(v.sys.room, w.sys.room, session, roomId, x, y, now);
    ReactKeepsRoomOk(v.sys.room, session, roomId, x, now);
    SameReactionsQueueSame(v.sys, w.sys, React(v.sys.room, session, roomId, x, now),
                           React(w.sys.room, session, roomId, y, now), c, d);
  }

  lemma SameQueuedBy(v: World, w: World, roomId: string, x: WorldEvent, y: WorldEvent, d: ClientId)
    requires BothOk(v, w) && SameServers(v, w) && SameEvent(x, y)
    requires StillVoting(v) && StillVoting(Step(v, roomId, x))
    ensures QueuedBy(v, roomId, x, d) == QueuedBy(w, roomId, y, d)
  {
    if x.Act? && x.client in v.sys.conns {
      SameActQueued(v, w, roomId, x.client, x.cmd, y.cmd, x.at, d);
    }
  }

  lemma SameRunsAppend(us: seq<WorldEvent>, vs: seq<WorldEvent>, xs: seq<WorldEvent>, ys: seq<WorldEvent>)
    requires SameRuns(us, vs) && SameRuns(xs, ys)
    ensures SameRuns(us + xs, vs + ys)
  {
  }

  /** Vote secrecy in every round: whatever was revealed before, as long as the room is voting, what any client is
      sent does not depend on which cards are or were played. */
  lemma {:induction false} SecrecyInEveryRound(roomId: string, us: seq<WorldEvent>, vs: seq<WorldEvent>,
                                               xs: seq<WorldEvent>, ys: seq<WorldEvent>, d: ClientId)
    requires SameRuns(us, vs) && SameRuns(xs, ys)
    requires forall k :: 0 <= k <= |xs| ==> StillVoting(RunWorld(roomId, us + xs[..k]))
    ensures QueuedAfter(roomId, us, xs, d) == QueuedAfter(roomId, vs, ys, d)
  {
    if xs == [] {
    } else {
      var n := |xs| - 1;
      forall k | 0 <= k <= n
        ensures StillVoting(RunWorld(roomId, us + xs[..n][..k]))
      {
        assert xs[..n][..k] == xs[..k];
      }
      SecrecyInEveryRound(roomId, us, vs, xs[..n], ys[..n], d);
      assert xs[..n + 1] == xs;
      LastEventIsSecret(roomId, us, vs, xs, ys, d);
    }
  }

  lemma RunsStayAlikeAndOk(roomId: string, us: seq<WorldEvent>, vs: seq<WorldEvent>)
    requires SameRuns(us, vs)
    ensures SameServers(RunWorld(roomId, us), RunWorld(roomId, vs))
    ensures BothOk(RunWorld(roomId, us), RunWorld(roomId, vs))
  {
    RunsStayAlike(roomId, us, vs);
    RunKeepsSysOk(roomId, us);
    RunKeepsSysOk(roomId, vs);
  }

  lemma RunGoesOn(roomId: string, us: seq<WorldEvent>, xs: seq<WorldEvent>)
    requires xs != []
    ensures RunWorld(roomId, us + xs) == Step(RunWorld(roomId, us + xs[..|xs| - 1]), roomId, xs[|xs| - 1])
  {
    assert (us + xs)[..|us + xs| - 1] == us + xs[..|xs| - 1];
  }

  lemma LastEventIsSecret(roomId: string, us: seq<WorldEvent>, vs: seq<WorldEvent>, xs: seq<WorldEvent>,
                          ys: seq<WorldEvent>, d: ClientId)
    requires SameRuns(us, vs) && SameRuns(xs, ys) && xs != []
    requires StillVoting(RunWorld(roomId, us + xs[..|xs| - 1])) && StillVoting(RunWorld(roomId, us + xs))
    ensures var n := |xs| - 1;
            QueuedBy(RunWorld(roomId, us + xs[..n]), roomId, xs[n], d)
            == QueuedBy(RunWorld(roomId, vs + ys[..n]), roomId, ys[n], d)
  {
    var n := |xs| - 1;
    SameRunsAppend(us, vs, xs[..n], ys[..n]);
    RunsStayAlikeAndOk(roomId, us + xs[..n], vs + ys[..n]);
    RunGoesOn(roomId, us, xs);
    SameQueuedBy(RunWorld(roomId, us + xs[..n]), RunWorld(roomId, vs + ys[..n]), roomId, xs[n], ys[n], d);
  }

  /** A new round that succeeds makes the two rooms equal again, whatever was revealed before. */
  lemma NewRoundErasesCards(roomId: string, xs: seq<WorldEvent>, ys: seq<WorldEvent>, c: ClientId,
                                               now: Time)
    requires SameRuns(xs, ys)
    requires var w := RunWorld(roomId, xs);
             c in w.sys.registered && w.sys.room.Some? && w.sys.room.value.phase == PhaseReveal
    ensures RunWorld(roomId, xs + [Act(c, NewRound, now)]).sys.room
            == RunWorld(roomId, ys + [Act(c, NewRound, now)]).sys.room
    ensures StillVoting(RunWorld(roomId, xs + [Act(c, NewRound, now)]))
  {
    var e := Act(c, NewRound, now);
    assert (xs + [e])[..|xs|] == xs && (ys + [e])[..|ys|] == ys;
    var v, w := RunWorld(roomId, xs), RunWorld(roomId, ys);
    RunsStayAlike(roomId, xs, ys);
    RunKeepsSysOk(roomId, xs);
    RunKeepsSysOk(roomId, ys);
    NewRoundStepErasesCards(v, w, roomId, c, now);
  }

  lemma NewRoundReactionsAgree(a: RoomData, b: RoomData, s: Sid, roomId: string, now: Time)
    requires SameButCards(a, b) && s != "" && a.phase == PhaseReveal
    ensures var x, y := React(Some(a), s, roomId, NewRound, now), React(Some(b), s, roomId, NewRound, now);
            x.room == y.room && x.room.Some? && x.room.value.phase == PhaseVoting
  {
    SameReactNewRound(a, b, s, now);
  }

  lemma NewRoundStepErasesCards(v: World, w: World, roomId: string, c: ClientId, now: Time)
    requires BothOk(v, w) && SameServers(v, w)
    requires c in v.sys.registered && v.sys.room.Some? && v.sys.room.value.phase == PhaseReveal
    ensures Step(v, roomId, Act(c, NewRound, now)).sys.room == Step(w, roomId, Act(c, NewRound, now)).sys.room
    ensures StillVoting(Step(v, roomId, Act(c, NewRound, now)))
  {
    assert c in v.sys.conns && v.sys.conns[c].session != "";
    NewRoundReactionsAgree(v.sys.room.value, w.sys.room.value, v.sys.conns[c].session, roomId, now);
  }
}
