/** The server's side of one room in place: connections with bounded send buffers, the registered clients,
    and the command handlers (internal/server/client.go, internal/server/room_manager.go,
    internal/server/ws.go).  Each handler is proved to do what Protocol.Handle says; a handler is one step. */
module Server {
  import opened Common
  import opened Names
  import opened RoomTypes
  import opened Sorting
  import opened Protocol
  import opened RoomState
  import RoomSpec
  import Stats

  class Client {
    const id: ClientId
    var sessionID: Sid
    var send: seq<Message>
    var done: bool

    constructor (id: ClientId)
      ensures this.id == id && Value() == Conn("", [], false)
    {
      this.id, sessionID, send, done := id, "", [], false;
    }

    function Value(): Conn
      reads this
    {
      Conn(sessionID, send, done)
    }

    /** Queues a message without blocking; a full buffer closes the connection. */
    method Send(msg: Message)
      modifies this
      ensures Value() == Protocol.Send(old(Value()), msg)
    {
      if |send| < SEND_BUFFER_SIZE {
        send := send + [msg];
      } else {
        Close();
      }
    }

    method SendError(code: ErrorCode)
      modifies this
      ensures Value() == Protocol.Send(old(Value()), ErrorMsg(code))
    {
      Send(ErrorMsg(code));
    }

    method Close()
      modifies this`done
      ensures done
    {
      if !done {
        done := true;
      }
    }

    method SetSessionID(id: Sid)
      modifies this`sessionID
      ensures sessionID == id
    {
      sessionID := id;
    }

    /** The write pump taking the next queued message. */
    method Drain() returns (msg: Option<Message>)
      modifies this`send
      ensures old(send) == [] ==> msg == None && send == []
      ensures old(send) != [] ==> msg == Some(old(send)[0]) && send == old(send)[1..]
    {
      if send == [] {
        return None;
      }
      msg := Some(send[0]);
      send := send[1..];
    }
  }

  /** Connections after `m` was queued for every client in `who`. */
  function SendTo(conns: map<ClientId, Conn>, who: set<ClientId>, m: Message): map<ClientId, Conn> {
    map d | d in conns :: if d in who then Protocol.Send(conns[d], m) else conns[d]
  }

  class Hub {
    const roomID: string
    var room: Room?
    var clients: set<Client>
    ghost var conns: map<ClientId, Client>
    ghost var repr: set<object>

    constructor (roomID: string)
      ensures Valid() && fresh(repr) && View() == Sys(None, map[], {})
    {
      this.roomID, room, clients, conns := roomID, null, {}, map[];
      repr := {this};
    }

    ghost predicate ClientsValid()
      reads this`conns, this`clients, conns.Values
    {
      && (forall i :: i in conns ==> conns[i].id == i)
      && (forall c :: c in clients ==> c.id in conns && conns[c.id] == c)
      && (forall i :: i in conns ==> (conns[i] in clients <==> conns[i].sessionID != ""))
    }

    ghost predicate Valid()
      reads this, repr
    {
      && this in repr && conns.Values <= repr && (room != null ==> room in repr && room.Repr() <= repr)
      && ClientsValid()
      && (room != null ==> room.Valid() && this !in room.Repr() && forall i :: i in conns ==> conns[i] !in room.Repr())
    }

    ghost function Conns(): map<ClientId, Conn>
      reads this`conns, conns.Values
    {
      map i | i in conns :: conns[i].Value()
    }

    ghost function RoomValue(): Option<RoomData>
      reads this`room, room, if room == null then {} else room.participants.Values
    {
      if room == null then None else Some(room.Data())
    }

    ghost function Registered(): set<ClientId>
      reads this`clients
    {
      set c | c in clients :: c.id
    }

    ghost function View(): Sys
      reads this, repr
      requires Valid()
    {
      Sys(RoomValue(), Conns(), Registered())
    }

    ghost predicate Knows(c: Client)
      reads this`conns
    {
      c.id in conns && conns[c.id] == c
    }

    // ----- broadcasting -----

    /** Sending to a copied list of clients, in whatever order the map yields them. */
    method SendEach(list: set<Client>, msg: Message)
      requires ClientsValid() && list <= clients
      modifies list
      ensures ClientsValid()
      ensures forall i :: i in conns ==>
                conns[i].Value() == if conns[i] in list then Protocol.Send(old(conns[i].Value()), msg)
                                    else old(conns[i].Value())
    {
      var remaining := list;
      while remaining != {}
        invariant remaining <= list
        invariant forall i :: i in conns ==>
                    conns[i].Value() == if conns[i] in list && conns[i] !in remaining
                                        then Protocol.Send(old(conns[i].Value()), msg) else old(conns[i].Value())
      {
        var c :| c in remaining;
        c.Send(msg);
        remaining := remaining - {c};
      }
    }

    lemma RegisteredIds()
      requires ClientsValid()
      ensures forall i :: i in conns ==> (i in Registered() <==> conns[i] in clients)
    {
    }

    method Broadcast(msg: Message)
      requires Valid()
      modifies clients
      ensures Valid()
      ensures View() == Announced(old(View()), msg)
    {
      ghost var before := Conns();
      RegisteredIds();
      SendEach(clients, msg);
      EachWasSent(before, Conns(), Registered(), msg);
    }

    method BroadcastExcept(msg: Message, except: Client)
      requires Valid() && Knows(except)
      modifies clients - {except}
      ensures Valid()
      ensures View() == AnnouncedExcept(old(View()), except.id, msg)
    {
      ghost var before := Conns();
      RegisteredIds();
      SendEach(clients - {except}, msg);
      EachWasSent(before, Conns(), Registered() - {except.id}, msg);
    }

    /** Answering one client with an error. */
    method Answer(c: Client, code: ErrorCode)
      requires Valid() && Knows(c)
      modifies c
      ensures Valid()
      ensures View() == Answered(old(View()), c.id, code)
    {
      c.SendError(code);
      assert Conns() == old(Conns())[c.id := Protocol.Send(old(Conns())[c.id], ErrorMsg(code))];
    }

    /** Broadcasting completes a reaction that tells everyone the same one thing. */
    method Announce(c: Client, msg: Message, ghost s: Sys, ghost re: Reaction)
      requires Valid() && View() == s.(room := re.room)
      requires Broadcasts(s, c.id, re) && re.toSelf == [msg]
      modifies clients
      ensures Valid() && View() == CarryOut(s, c.id, re)
    {
      CarryOne(s, c.id, re, msg);
      Broadcast(msg);
    }

    method AnnounceTwo(c: Client, first: Message, second: Message, ghost s: Sys, ghost re: Reaction)
      requires Valid() && View() == s.(room := re.room)
      requires Broadcasts(s, c.id, re) && re.toSelf == [first, second]
      modifies clients
      ensures Valid() && View() == CarryOut(s, c.id, re)
    {
      CarryTwo(s, c.id, re, first, second);
      Broadcast(first);
      Broadcast(second);
    }

    /** An error answer completes a refused reaction. */
    method Refuse(c: Client, code: ErrorCode, ghost s: Sys, ghost re: Reaction)
      requires Valid() && Knows(c) && View() == s.(room := re.room)
      requires c.id in s.conns && re.session == s.conns[c.id].session && (c.id in s.registered <==> re.session != "")
      requires re.toSelf == [ErrorMsg(code)] && re.toOthers == []
      modifies c
      ensures Valid() && View() == CarryOut(s, c.id, re)
    {
      CarryAnswer(s, c.id, re, code);
      Answer(c, code);
    }

    // ----- handlers -----

    lemma Standing(c: Client)
      requires Valid() && Knows(c)
      ensures var s := View();
              && c.id in s.conns && s.conns[c.id].session == c.sessionID
              && (c.id in s.registered <==> c.sessionID != "")
              && s.room == RoomValue()
    {
      RegisteredIds();
    }

    /** An operation on the room object leaves the connections alone. */
    twostate lemma RoomActed()
      requires old(Valid()) && unchanged(this) && unchanged(conns.Values)
      requires room != null && room.Valid() && room.Repr() <= old(room.Repr())
      ensures Valid() && View() == old(View()).(room := Some(room.Data()))
    {
      assert Conns() == old(Conns());
    }

    /** The checks most handlers begin with: the client must have joined, and its room must exist. */
    method MayAct(c: Client, ghost cmd: Command, ghost now: Time) returns (ok: bool)
      requires Valid() && Knows(c) && !cmd.Join? && !cmd.Leave? && !cmd.Malformed?
      modifies c
      ensures Valid()
      ensures ok ==> View() == old(View()) && c.sessionID == old(c.sessionID) != "" && room != null
      ensures !ok ==> View() == Handle(old(View()), roomID, c.id, cmd, now)
    {
      Standing(c);
      ghost var re := React(RoomValue(), c.sessionID, roomID, cmd, now);
      if c.sessionID == "" {
        Refuse(c, InvalidMessage, View(), re);
        return false;
      }
      if room == null {
        Refuse(c, RoomNotFound, View(), re);
        return false;
      }
      return true;
    }

    method HandleVote(c: Client, value: Card, now: Time)
      requires Valid() && Knows(c)
      modifies repr - {this}
      ensures Valid()
      ensures View() == Handle(old(View()), roomID, c.id, Vote(value), now)
    {
      ghost var s := View();
      var ok := MayAct(c, Vote(value), now);
      if !ok {
        return;
      }
      Standing(c);
      VoteIsReaction(s, roomID, c.id, value, now);
      var hadVote, outcome := VoteInRoom(c.sessionID, value, now);
      TellVote(c, c.sessionID, value, hadVote, outcome);
    }

    /** What the vote handler tells once it has left the room lock. */
    method TellVote(c: Client, sid: Sid, value: Card, hadVote: bool, outcome: RoomSpec.Outcome)
      requires Valid() && Knows(c)
      modifies clients, c
      ensures Valid()
      ensures View() == VoteTold(old(View()), c.id, sid, value, hadVote, outcome)
    {
      if outcome.Refused? {
        Answer(c, InvalidVote);
      } else if value == Blank && hadVote {
        Broadcast(VoteRetracted(sid));
      } else if value != Blank {
        Broadcast(VoteCast(sid));
      }
    }

    /** The part of the vote handler that runs under the room lock. */
    method VoteInRoom(sid: Sid, value: Card, now: Time) returns (hadVote: bool, outcome: RoomSpec.Outcome)
      requires Valid() && room != null
      modifies room.Repr()
      ensures Valid()
      ensures var r := old(room.Data()); var step := RoomSpec.CastVote(r, sid, value, now);
              View() == old(View()).(room := Some(step.room)) && outcome == step.outcome
              && hadVote == RoomSpec.HasVoted(r, sid)
    {
      hadVote := room.HasVoted(sid);
      outcome := room.CastVote(sid, value, now);
      RoomActed();
    }

    method HandleReveal(c: Client, now: Time)
      requires Valid() && Knows(c)
      modifies repr - {this}
      ensures Valid()
      ensures View() == Handle(old(View()), roomID, c.id, Reveal, now)
    {
      ghost var s := View();
      var ok := MayAct(c, Reveal, now);
      if !ok {
        return;
      }
      Standing(c);
      RevealIsReaction(s, roomID, c.id, now);
      var result, outcome := RevealInRoom(now);
      if outcome.Refused? {
        Answer(c, InvalidMessage);
      } else {
        Broadcast(VotesRevealed(result.value));
      }
    }

    method RevealInRoom(now: Time) returns (result: Option<RoundResult>, outcome: RoomSpec.Outcome)
      requires Valid() && room != null
      modifies room
      ensures Valid()
      ensures var r := old(room.Data()); var step := RoomSpec.Reveal(r, now);
              View() == old(View()).(room := Some(step.room)) && outcome == step.outcome
              && (outcome.Done? ==> result == Some(Stats.Summarize(Stats.Ballot(r.seats))))
    {
      result, outcome := room.Reveal(now);
      assert room.Data().seats == old(room.Data()).seats;
      RoomActed();
    }

    method HandleNewRound(c: Client, now: Time)
      requires Valid() && Knows(c)
      modifies repr - {this}
      ensures Valid()
      ensures View() == Handle(old(View()), roomID, c.id, NewRound, now)
    {
      ghost var s := View();
      var ok := MayAct(c, NewRound, now);
      if !ok {
        return;
      }
      Standing(c);
      ghost var re := ReactNewRound(s.room.value, c.sessionID, now);
      assert Handle(s, roomID, c.id, NewRound, now) == CarryOut(s, c.id, re);
      label acting:
      var outcome := room.NewRound(now);
      var snapshot := room.TimerInfo(now);
      RoomActed@acting();
      if outcome.Refused? {
        Refuse(c, InvalidMessage, s, re);
        return;
      }
      AnnounceTwo(c, RoundReset, TimerUpdated(TimerPayloadOf(snapshot)), s, re);
    }

    /** The room is cleared only after everyone was told. */
    method HandleClearRoom(c: Client, now: Time)
      requires Valid() && Knows(c)
      modifies repr - {this}
      ensures Valid()
      ensures View() == Handle(old(View()), roomID, c.id, ClearRoom, now)
    {
      ghost var s := View();
      var ok := MayAct(c, ClearRoom, now);
      if !ok {
        return;
      }
      Standing(c);
      ghost var re := Protocol.Announce(RoomSpec.ClearRoom(s.room.value, now), c.sessionID, [RoomCleared]);
      assert Handle(s, roomID, c.id, ClearRoom, now) == CarryOut(s, c.id, re);
      CarryOne(s, c.id, re, RoomCleared);
      Broadcast(RoomCleared);
      label acting:
      room.ClearRoom(now);
      RoomActed@acting();
    }

    method HandleUpdateName(c: Client, name: Text, now: Time)
      requires Valid() && Knows(c)
      modifies repr - {this}
      ensures Valid()
      ensures View() == Handle(old(View()), roomID, c.id, UpdateName(name), now)
    {
      ghost var s := View();
      var ok := MayAct(c, UpdateName(name), now);
      if !ok {
        return;
      }
      Standing(c);
      ghost var re := ReactName(s.room.value, c.sessionID, name, now);
      assert Handle(s, roomID, c.id, UpdateName(name), now) == CarryOut(s, c.id, re);
      var stored, outcome := RenameInRoom(c.sessionID, name, now);
      if outcome.Refused? {
        Refuse(c, InvalidName, s, re);
        return;
      }
      Announce(c, NameUpdated(c.sessionID, stored), s, re);
    }

    /** Renaming under the room lock, and reading back what was stored. */
    method RenameInRoom(sid: Sid, name: Text, now: Time) returns (stored: Text, outcome: RoomSpec.Outcome)
      requires Valid() && room != null
      modifies room.Repr()
      ensures Valid()
      ensures var step := RoomSpec.UpdateName(old(room.Data()), sid, name, now);
              View() == old(View()).(room := Some(step.room)) && outcome == step.outcome
              && (outcome.Done? ==> sid in step.room.seats && stored == step.room.seats[sid].name)
    {
      stored := [];
      outcome := room.UpdateName(sid, name, now);
      RoomActed();
      if outcome.Done? {
        stored := room.participants[sid].name;
        assert stored == room.Data().seats[sid].name;
      }
    }

    method HandlePresence(c: Client, status: StatusField, now: Time)
      requires Valid() && Knows(c)
      modifies repr - {this}
      ensures Valid()
      ensures View() == Handle(old(View()), roomID, c.id, Presence(status), now)
    {
      ghost var s := View();
      var ok := MayAct(c, Presence(status), now);
      if !ok {
        return;
      }
      Standing(c);
      ghost var re := ReactPresence(s.room.value, c.sessionID, status, now);
      assert Handle(s, roomID, c.id, Presence(status), now) == CarryOut(s, c.id, re);
      label acting:
      var outcome := room.UpdatePresence(c.sessionID, status, now);
      RoomActed@acting();
      if outcome.Refused? {
        Refuse(c, InvalidMessage, s, re);
        return;
      }
      Announce(c, PresenceChanged(c.sessionID, status.status), s, re);
    }

    method HandleUpdateRole(c: Client, role: RoleField, now: Time)
      requires Valid() && Knows(c)
      modifies repr - {this}
      ensures Valid()
      ensures View() == Handle(old(View()), roomID, c.id, UpdateRole(role), now)
    {
      ghost var s := View();
      var ok := MayAct(c, UpdateRole(role), now);
      if !ok {
        return;
      }
      Standing(c);
      ghost var re := ReactRole(s.room.value, c.sessionID, role, now);
      assert Handle(s, roomID, c.id, UpdateRole(role), now) == CarryOut(s, c.id, re);
      label acting:
      var outcome := room.UpdateRole(c.sessionID, role, now);
      RoomActed@acting();
      if outcome.Refused? {
        Refuse(c, InvalidMessage, s, re);
        return;
      }
      Announce(c, RoleUpdated(c.sessionID, role.role), s, re);
    }

    method HandleTimerSetDuration(c: Client, d: int, now: Time)
      requires Valid() && Knows(c)
      modifies repr - {this}
      ensures Valid()
      ensures View() == Handle(old(View()), roomID, c.id, TimerSetDuration(d), now)
    {
      ghost var s := View();
      var ok := MayAct(c, TimerSetDuration(d), now);
      if !ok {
        return;
      }
      Standing(c);
      ghost var re := ReactTimer(s.room.value, c.sessionID, RoomSpec.SetTimerDuration(s.room.value, d, now), now);
      assert Handle(s, roomID, c.id, TimerSetDuration(d), now) == CarryOut(s, c.id, re);
      label acting:
      var outcome := room.SetTimerDuration(d, now);
      if outcome.Refused? {
        RoomActed@acting();
        Refuse(c, InvalidMessage, s, re);
        return;
      }
      var snapshot := room.TimerInfo(now);
      RoomActed@acting();
      Announce(c, TimerUpdated(TimerPayloadOf(snapshot)), s, re);
    }

    method HandleTimerStart(c: Client, now: Time)
      requires Valid() && Knows(c)
      modifies repr - {this}
      ensures Valid()
      ensures View() == Handle(old(View()), roomID, c.id, TimerStart, now)
    {
      ghost var s := View();
      var ok := MayAct(c, TimerStart, now);
      if !ok {
        return;
      }
      Standing(c);
      ghost var re := ReactTimer(s.room.value, c.sessionID, RoomSpec.StartTimer(s.room.value, now), now);
      assert Handle(s, roomID, c.id, TimerStart, now) == CarryOut(s, c.id, re);
      label acting:
      var changed := room.StartTimer(now);
      if !changed {
        RoomActed@acting();
        CarryNone(s, c.id, re);
        return;
      }
      var snapshot := room.TimerInfo(now);
      RoomActed@acting();
      Announce(c, TimerUpdated(TimerPayloadOf(snapshot)), s, re);
    }

    method HandleTimerReset(c: Client, now: Time)
      requires Valid() && Knows(c)
      modifies repr - {this}
      ensures Valid()
      ensures View() == Handle(old(View()), roomID, c.id, TimerReset, now)
    {
      ghost var s := View();
      var ok := MayAct(c, TimerReset, now);
      if !ok {
        return;
      }
      Standing(c);
      ghost var re := ReactTimer(s.room.value, c.sessionID, RoomSpec.ResetTimer(s.room.value, now), now);
      assert Handle(s, roomID, c.id, TimerReset, now) == CarryOut(s, c.id, re);
      label acting:
      var changed := room.ResetTimer(now);
      if !changed {
        RoomActed@acting();
        CarryNone(s, c.id, re);
        return;
      }
      var snapshot := room.TimerInfo(now);
      RoomActed@acting();
      Announce(c, TimerUpdated(TimerPayloadOf(snapshot)), s, re);
    }

    // ----- joining and leaving -----

    /** GetOrCreateRoom: the existing room, or a new one under the given name and creator. */
    method GetOrCreateRoom(name: Text, createdBy: Text, now: Time)
      requires Valid()
      modifies this`room, this`repr
      ensures Valid() && room != null && fresh(repr - old(repr))
      ensures View() == old(View()).(room := Some(if old(room) != null then old(room.Data())
                                                  else RoomSpec.NewRoom(roomID, name, createdBy, now)))
    {
      if room == null {
        room := new Room(roomID, name, createdBy, now);
        repr := repr + room.Repr();
      }
    }

    /** The join on the room object, which may bring in a new participant object. */
    method JoinRoom(sid: Sid, name: Text, role: RoleField, now: Time)
      returns (participant: Participant?, isNew: bool, outcome: RoomSpec.Outcome)
      requires Valid() && room != null
      modifies room.Repr(), this`repr
      ensures Valid() && fresh(repr - old(repr))
      ensures var step := RoomSpec.Join(old(room.Data()), sid, name, role, now);
              View() == old(View()).(room := Some(step.room)) && outcome == step.outcome
      ensures outcome.Done? ==> isNew == (sid !in old(room.Data()).seats) && sid in room.participants
                                && participant == room.participants[sid]
    {
      assert room.Data().seats.Keys == room.participants.Keys;
      participant, isNew, outcome := room.Join(sid, name, role, now);
      TrackRoom();
      RoomGrew();
    }

    /** Taking the room's present objects into the footprint. */
    ghost method TrackRoom()
      requires room != null && this !in room.Repr()
      modifies this`repr
      ensures repr == old(repr) + room.Repr()
      ensures room.Data() == old(room.Data())
    {
      repr := repr + room.Repr();
    }

    /** A join on the room object leaves the connections alone. */
    twostate lemma RoomGrew()
      requires old(Valid()) && room != null && room == old(room) && clients == old(clients) && conns == old(conns)
      requires unchanged(conns.Values) && room.Valid()
      requires fresh(room.Repr() - old(room.Repr())) && repr == old(repr) + room.Repr()
      ensures Valid() && View() == old(View()).(room := Some(room.Data()))
    {
      assert Conns() == old(Conns());
    }

    /** Connections after one client object was written to. */
    twostate lemma OneConnWritten(c: Client)
      requires conns == old(conns) && Knows(c) && (forall i :: i in conns ==> conns[i].id == i)
      requires forall i :: i in conns && i != c.id ==> conns[i].Value() == old(conns[i].Value())
      ensures Conns() == old(Conns())[c.id := c.Value()]
    {
    }

    /** Giving the client its session id and registering it with the room. */
    method Register(c: Client, sid: Sid)
      requires Valid() && Knows(c) && sid != ""
      modifies this`clients, c
      ensures Valid()
      ensures View() == Seated(old(View()), c.id, sid)
    {
      c.SetSessionID(sid);
      clients := clients + {c};
      OneConnWritten(c);
      assert Registered() == old(Registered()) + {c.id};
    }

    method HandleJoin(c: Client, cmd: Command, now: Time)
      requires Valid() && Knows(c) && cmd.Join?
      modifies repr
      ensures Valid() && conns == old(conns) && fresh(repr - old(repr))
      ensures View() == Handle(old(View()), roomID, c.id, cmd, now)
    {
      ghost var s := View();
      Standing(c);
      ghost var re := ReactJoin(s.room, c.sessionID, roomID, cmd, now);
      if cmd.sid == "" || !ValidSessionId(cmd.sid) {
        Refuse(c, InvalidMessage, s, re);
        return;
      }
      if cmd.userName == [] {
        Refuse(c, InvalidName, s, re);
        return;
      }
      if room == null && !cmd.creationAllowed {
        Refuse(c, RateLimited, s, re);
        return;
      }
      AdmissionIsReaction(s, c.id, roomID, cmd, now);
      AdmitClient(c, cmd, now);
    }

    /** Finding or creating the room and joining it. */
    method EnterRoom(cmd: Command, now: Time)
      returns (name: Text, role: Role, isNew: bool, outcome: RoomSpec.Outcome)
      requires Valid() && cmd.Join?
      modifies repr - clients - conns.Values, this`room, this`repr
      ensures Valid() && room != null && conns == old(conns) && clients == old(clients) && fresh(repr - old(repr))
      ensures var r := RoomToJoin(old(RoomValue()), roomID, cmd, now);
              var step := RoomSpec.Join(r, cmd.sid, cmd.userName, cmd.role, now);
              && View() == old(View()).(room := Some(step.room)) && outcome == step.outcome
              && (outcome.Done? ==> isNew == (cmd.sid !in r.seats) && cmd.sid in step.room.seats
                                    && name == step.room.seats[cmd.sid].name && role == step.room.seats[cmd.sid].role)
    {
      GetOrCreateRoom(RoomNameFor(cmd), cmd.userName, now);
      var participant;
      participant, isNew, outcome := JoinRoom(cmd.sid, cmd.userName, cmd.role, now);
      name, role := [], Voter;
      if outcome.Done? {
        assert room.Data().seats[cmd.sid] == participant.Value();
        name, role := participant.name, participant.role;
      }
    }

    /** What the others are told about a join. */
    method FindNews(cmd: Command, now: Time) returns (news: Message, outcome: RoomSpec.Outcome)
      requires Valid() && cmd.Join?
      modifies repr - clients - conns.Values, this`room, this`repr
      ensures Valid() && room != null && conns == old(conns) && clients == old(clients) && fresh(repr - old(repr))
      ensures var r := RoomToJoin(old(RoomValue()), roomID, cmd, now);
              var step := RoomSpec.Join(r, cmd.sid, cmd.userName, cmd.role, now);
              && View() == old(View()).(room := Some(step.room)) && outcome == step.outcome
              && (outcome.Done? ==> news == JoinNews(r, cmd, step.room))
    {
      var name, role, isNew;
      name, role, isNew, outcome := EnterRoom(cmd, now);
      news := if isNew then ParticipantJoined(cmd.sid, name, Active, role) else PresenceChanged(cmd.sid, Active);
    }

    /** The join handler after its checks of the message and of the room-creation limit. */
    method AdmitClient(c: Client, cmd: Command, now: Time)
      requires Valid() && Knows(c) && cmd.Join? && cmd.sid != ""
      modifies repr, this`repr, this`room, this`clients
      ensures Valid() && conns == old(conns) && fresh(repr - old(repr))
      ensures View() == Admission(old(View()), c.id, roomID, cmd, now)
    {
      var news, outcome := FindNews(cmd, now);
      EndJoin(c, cmd.sid, outcome, news, now);
    }

    /** The client is told why it may not join, or is welcomed. */
    method EndJoin(c: Client, sid: Sid, outcome: RoomSpec.Outcome, news: Message, now: Time)
      requires Valid() && Knows(c) && sid != "" && room != null
      modifies this`clients, clients, c, room`timer
      ensures Valid()
      ensures View() == JoinEnded(old(View()), c.id, sid, outcome, news, now)
    {
      if outcome.Refused? {
        Answer(c, if outcome.error.RoomFull? then RoomFull else InvalidName);
      } else {
        Welcome(c, sid, news, now);
      }
    }

    method SendState(c: Client, state: RoomPayload)
      requires Valid() && Knows(c)
      modifies c
      ensures Valid()
      ensures var s := old(View());
              View() == s.(conns := s.conns[c.id := Protocol.Send(s.conns[c.id], RoomStateMsg(state))])
    {
      ghost var before := Conns();
      c.Send(RoomStateMsg(state));
      assert Conns() == before[c.id := Protocol.Send(before[c.id], RoomStateMsg(state))];
    }

    /** The room's state as it is sent, leaving the timer read. */
    method StateToSend(now: Time) returns (state: RoomPayload)
      requires Valid() && room != null
      modifies room`timer
      ensures Valid()
      ensures state == StateOf(old(room.Data()), now)
      ensures View() == old(View()).(room := Some(RoomSpec.TimerInfo(old(room.Data()), now)))
    {
      state := BuildRoomState(room, now);
      RoomActed();
    }

    /** The end of a successful join: the client is registered and gets the room's state; the others learn of
        the newcomer, or that the participant is active again. */
    method Welcome(c: Client, sid: Sid, news: Message, now: Time)
      requires Valid() && Knows(c) && sid != "" && room != null
      modifies this`clients, clients, c, room`timer
      ensures Valid()
      ensures var r := old(room.Data());
              View() == Welcomed(old(View()).(room := Some(RoomSpec.TimerInfo(r, now))), c.id, sid,
                                 RoomStateMsg(StateOf(r, now)), news)
    {
      Register(c, sid);
      var state := StateToSend(now);
      SendState(c, state);
      BroadcastExcept(news, c);
    }

    /** Removing the client from the room's set and taking its session id away. */
    method Unregister(c: Client)
      requires Valid() && Knows(c)
      modifies this`clients, c
      ensures Valid()
      ensures View() == Unseated(old(View()), c.id)
    {
      clients := clients - {c};
      c.SetSessionID("");
      OneConnWritten(c);
      assert Registered() == old(Registered()) - {c.id};
    }

    /** Room.Leave drops the participant object from the room. */
    method LeaveRoom(sid: Sid, now: Time)
      requires Valid() && room != null
      modifies room
      ensures Valid()
      ensures View() == old(View()).(room := Some(RoomSpec.Leave(old(room.Data()), sid, now).room))
    {
      var _ := room.Leave(sid, now);
      RoomActed();
    }

    method HandleLeave(c: Client, now: Time)
      requires Valid() && Knows(c)
      modifies this`clients, repr - {this}
      ensures Valid()
      ensures View() == Handle(old(View()), roomID, c.id, Leave, now)
    {
      ghost var s := View();
      Standing(c);
      LeaveIsReaction(s, roomID, c.id, now);
      if c.sessionID == "" {
        return;
      }
      if room == null {
        return;
      }
      LeaveRoom(c.sessionID, now);
      BroadcastExcept(ParticipantLeft(c.sessionID), c);
      Unregister(c);
    }

    // ----- the life of a connection -----

    /** A new connection, registered with no room. */
    method Connect(id: ClientId) returns (c: Client)
      requires Valid() && id !in conns
      modifies this`conns, this`repr
      ensures Valid() && fresh(c) && c.id == id && Knows(c) && fresh(repr - old(repr))
      ensures View() == old(View()).(conns := old(View()).conns[id := Conn("", [], false)])
    {
      c := new Client(id);
      conns := conns[id := c];
      repr := repr + {c};
      assert Conns() == old(Conns())[id := Conn("", [], false)];
    }

    /** The status write under the room lock when a connection ends. */
    method MarkRoomDisconnected(sid: Sid)
      requires Valid() && room != null
      modifies room.Repr()
      ensures Valid()
      ensures View() == old(View()).(room := Some(RoomSpec.MarkDisconnected(old(room.Data()), sid)))
    {
      room.MarkDisconnected(sid);
      RoomActed();
    }

    /** Unregistering a client and forgetting its connection. */
    method Forget(c: Client)
      requires Valid() && Knows(c)
      modifies this`clients, this`conns
      ensures Valid()
      ensures View() == Forgotten(old(View()), c.id)
    {
      clients := clients - {c};
      conns := conns - {c.id};
      assert Conns() == old(Conns()) - {c.id};
      assert Registered() == old(Registered()) - {c.id};
    }

    /** The cleanup when a connection ends: the participant is shown as disconnected before the client is
        unregistered. */
    method Disconnect(c: Client)
      requires Valid() && Knows(c)
      modifies this`clients, this`conns, repr - {this}
      ensures Valid()
      ensures View() == Drop(old(View()), c.id)
    {
      Standing(c);
      DropIsAnnouncement(View(), c.id);
      CloseConn(c);
      TellGone(c.sessionID);
      Forget(c);
    }

    method CloseConn(c: Client)
      requires Valid() && Knows(c)
      modifies c`done
      ensures Valid()
      ensures View() == Closed(old(View()), c.id)
    {
      c.Close();
      OneConnWritten(c);
    }

    /** A client that had joined is shown as disconnected, to itself included. */
    method TellGone(sid: Sid)
      requires Valid()
      modifies clients, if room == null then {} else room.Repr()
      ensures Valid()
      ensures View() == GoneTold(old(View()), sid)
    {
      if sid != "" {
        if room != null {
          MarkRoomDisconnected(sid);
          Broadcast(PresenceChanged(sid, Disconnected));
        }
      }
    }

    /** A ping of a participant's connection that was answered. */
    method UpdatePingTime(sid: Sid, now: Time)
      requires Valid()
      modifies if room == null then {} else room.Repr()
      ensures Valid()
      ensures old(room) == null ==> View() == old(View())
      ensures old(room) != null ==>
                View() == old(View()).(room := Some(RoomSpec.UpdatePing(old(room.Data()), sid, now)))
    {
      if room != null {
        room.UpdatePing(sid, now);
        RoomActed();
      }
    }

    method HandleMalformed(c: Client, code: ErrorCode, now: Time)
      requires Valid() && Knows(c)
      modifies c
      ensures Valid()
      ensures View() == Handle(old(View()), roomID, c.id, Malformed(code), now)
    {
      Standing(c);
      CarryAnswer(View(), c.id, React(RoomValue(), c.sessionID, roomID, Malformed(code), now), code);
      Answer(c, code);
    }

    /** Every command has exactly the effect the protocol gives it. */
    method Dispatch(c: Client, cmd: Command, now: Time)
      requires Valid() && Knows(c)
      modifies repr
      ensures Valid() && conns == old(conns) && fresh(repr - old(repr))
      ensures View() == Handle(old(View()), roomID, c.id, cmd, now)
    {
      match cmd {
        case Join(_, _, _, _, _) => HandleJoin(c, cmd, now);
        case Vote(value) => HandleVote(c, value, now);
        case Reveal => HandleReveal(c, now);
        case NewRound => HandleNewRound(c, now);
        case ClearRoom => HandleClearRoom(c, now);
        case UpdateName(name) => HandleUpdateName(c, name, now);
        case Presence(status) => HandlePresence(c, status, now);
        case UpdateRole(role) => HandleUpdateRole(c, role, now);
        case TimerSetDuration(d) => HandleTimerSetDuration(c, d, now);
        case TimerStart => HandleTimerStart(c, now);
        case TimerReset => HandleTimerReset(c, now);
        case Leave => HandleLeave(c, now);
        case Malformed(code) => HandleMalformed(c, code, now);
      }
    }
  }

  lemma EachWasSent(before: map<ClientId, Conn>, after: map<ClientId, Conn>, who: set<ClientId>, m: Message)
    requires after.Keys == before.Keys
    requires forall d :: d in before ==> after[d] == if d in who then Protocol.Send(before[d], m) else before[d]
    ensures after == SendTo(before, who, m)
  {
  }

  /** The room a join finds, or creates. */
  function RoomToJoin(room: Option<RoomData>, roomId: string, cmd: Command, now: Time): RoomData
    requires cmd.Join?
  {
    if room.Some? then room.value else RoomSpec.NewRoom(roomId, RoomNameFor(cmd), cmd.userName, now)
  }

  /** Client `c` registered under session `sid`. */
  function Seated(s: Sys, c: ClientId, sid: Sid): Sys
    requires c in s.conns
  {
    s.(conns := s.conns[c := s.conns[c].(session := sid)], registered := s.registered + {c})
  }

  /** Client `c` no longer registered, without a session. */
  function Unseated(s: Sys, c: ClientId): Sys
    requires c in s.conns
  {
    s.(conns := s.conns[c := s.conns[c].(session := "")], registered := s.registered - {c})
  }

  function Closed(s: Sys, c: ClientId): Sys
    requires c in s.conns
  {
    s.(conns := s.conns[c := s.conns[c].(closed := true)])
  }

  function GoneTold(s: Sys, sid: Sid): Sys {
    if sid == "" || s.room.None? then s
    else Announced(s.(room := Some(RoomSpec.MarkDisconnected(s.room.value, sid))), PresenceChanged(sid, Disconnected))
  }

  function Forgotten(s: Sys, c: ClientId): Sys { s.(conns := s.conns - {c}, registered := s.registered - {c}) }

  /** Client `c` registered and sent `m`, the others sent `n`. */
  function Welcomed(s: Sys, c: ClientId, sid: Sid, m: Message, n: Message): Sys
    requires c in s.conns
  {
    var seated := Seated(s, c, sid);
    AnnouncedExcept(seated.(conns := seated.conns[c := Protocol.Send(seated.conns[c], m)]), c, n)
  }

  function Announced(s: Sys, m: Message): Sys { s.(conns := SendTo(s.conns, s.registered, m)) }

  function AnnouncedExcept(s: Sys, c: ClientId, m: Message): Sys {
    s.(conns := SendTo(s.conns, s.registered - {c}, m))
  }

  function Answered(s: Sys, c: ClientId, code: ErrorCode): Sys
    requires c in s.conns
  {
    s.(conns := s.conns[c := Protocol.Send(s.conns[c], ErrorMsg(code))])
  }

  function VoteTold(s: Sys, c: ClientId, sid: Sid, value: Card, hadVote: bool, outcome: RoomSpec.Outcome): Sys
    requires c in s.conns
  {
    if outcome.Refused? then Answered(s, c, InvalidVote)
    else if value != Blank then Announced(s, VoteCast(sid))
    else if hadVote then Announced(s, VoteRetracted(sid))
    else s
  }

  // ----- carrying out a reaction, message by message -----

  lemma CarryAnswer(s: Sys, c: ClientId, re: Reaction, code: ErrorCode)
    requires c in s.conns && re.session == s.conns[c].session && (c in s.registered <==> re.session != "")
    requires re.toSelf == [ErrorMsg(code)] && re.toOthers == []
    ensures CarryOut(s, c, re) == Answered(s.(room := re.room), c, code)
  {
    SendAllOne(s.conns[c], ErrorMsg(code));
    assert s.conns[c].(session := re.session) == s.conns[c];
  }

  lemma SendAllOne(c: Conn, m: Message)
    ensures SendAll(c, [m]) == Protocol.Send(c, m)
  {
    assert [m][1..] == [];
    assert SendAll(Protocol.Send(c, m), []) == Protocol.Send(c, m);
  }

  lemma SendAllTwo(c: Conn, m: Message, n: Message)
    ensures SendAll(c, [m, n]) == Protocol.Send(Protocol.Send(c, m), n)
  {
    assert [m, n][1..] == [n];
    SendAllOne(Protocol.Send(c, m), n);
  }

  /** The acting client is registered and gets what everyone gets. */
  ghost predicate Broadcasts(s: Sys, c: ClientId, re: Reaction) {
    && c in s.conns && c in s.registered
    && re.session == s.conns[c].session && re.session != "" && re.toSelf == re.toOthers
  }

  lemma CarryNone(s: Sys, c: ClientId, re: Reaction)
    requires Broadcasts(s, c, re) && re.toSelf == []
    ensures CarryOut(s, c, re) == s.(room := re.room)
  {
    assert s.conns[c].(session := re.session) == s.conns[c];
  }

  lemma CarryOne(s: Sys, c: ClientId, re: Reaction, m: Message)
    requires Broadcasts(s, c, re) && re.toSelf == [m]
    ensures CarryOut(s, c, re) == Announced(s.(room := re.room), m)
  {
    assert s.conns[c].(session := re.session) == s.conns[c];
    forall d | d in s.conns
      ensures SendAll(s.conns[d], [m]) == Protocol.Send(s.conns[d], m)
    {
      SendAllOne(s.conns[d], m);
    }
  }

  lemma CarryTwo(s: Sys, c: ClientId, re: Reaction, m: Message, n: Message)
    requires Broadcasts(s, c, re) && re.toSelf == [m, n]
    ensures CarryOut(s, c, re) == Announced(Announced(s.(room := re.room), m), n)
  {
    assert s.conns[c].(session := re.session) == s.conns[c];
    forall d | d in s.conns
      ensures SendAll(s.conns[d], [m, n]) == Protocol.Send(Protocol.Send(s.conns[d], m), n)
    {
      SendAllTwo(s.conns[d], m, n);
    }
  }

  lemma CarryJoin(s: Sys, c: ClientId, re: Reaction, m: Message, n: Message)
    requires c in s.conns && re.session != "" && re.toSelf == [m] && re.toOthers == [n]
    ensures CarryOut(s, c, re) == Welcomed(s.(room := re.room), c, re.session, m, n)
  {
    forall d: Conn, k: Message
      ensures SendAll(d, [k]) == Protocol.Send(d, k)
    {
      SendAllOne(d, k);
    }
  }

  /** What the vote handler comes to for a client that may act. */
  lemma VoteIsReaction(s: Sys, roomId: string, c: ClientId, value: Card, now: Time)
    requires c in s.conns && c in s.registered && s.conns[c].session != "" && s.room.Some?
    ensures var r, sid := s.room.value, s.conns[c].session;
            var step := RoomSpec.CastVote(r, sid, value, now);
            Handle(s, roomId, c, Vote(value), now)
            == VoteTold(s.(room := Some(step.room)), c, sid, value, RoomSpec.HasVoted(r, sid), step.outcome)
  {
    var r, sid := s.room.value, s.conns[c].session;
    var re := ReactVote(r, sid, value, now);
    if re.toSelf == [] {
      CarryNone(s, c, re);
    } else if re.toOthers == [] {
      CarryAnswer(s, c, re, InvalidVote);
    } else {
      CarryOne(s, c, re, re.toSelf[0]);
    }
  }

  /** What the reveal handler comes to for a client that may act. */
  lemma RevealIsReaction(s: Sys, roomId: string, c: ClientId, now: Time)
    requires c in s.conns && c in s.registered && s.conns[c].session != "" && s.room.Some?
    ensures var step := RoomSpec.Reveal(s.room.value, now);
            var acted := s.(room := Some(step.room));
            Handle(s, roomId, c, Reveal, now)
            == if step.outcome.Refused? then Answered(acted, c, InvalidMessage)
               else Announced(acted, VotesRevealed(Stats.Summarize(Stats.Ballot(s.room.value.seats))))
  {
    var re := ReactReveal(s.room.value, s.conns[c].session, now);
    if re.toOthers == [] {
      CarryAnswer(s, c, re, InvalidMessage);
    } else {
      CarryOne(s, c, re, re.toSelf[0]);
    }
  }

  /** What the leave handler comes to. */
  lemma LeaveIsReaction(s: Sys, roomId: string, c: ClientId, now: Time)
    requires c in s.conns && (c in s.registered <==> s.conns[c].session != "")
    ensures var sid := s.conns[c].session;
            Handle(s, roomId, c, Leave, now)
            == if sid == "" || s.room.None? then s
               else Unseated(AnnouncedExcept(s.(room := Some(RoomSpec.Leave(s.room.value, sid, now).room)), c,
                                             ParticipantLeft(sid)), c)
  {
    var sid := s.conns[c].session;
    assert s.conns[c].(session := sid) == s.conns[c];
    forall d: Conn
      ensures SendAll(d, [ParticipantLeft(sid)]) == Protocol.Send(d, ParticipantLeft(sid))
    {
      SendAllOne(d, ParticipantLeft(sid));
    }
  }

  /** What the cleanup of a closed connection comes to. */
  lemma DropIsAnnouncement(s: Sys, c: ClientId)
    requires c in s.conns && (c in s.registered <==> s.conns[c].session != "")
    ensures Drop(s, c) == Forgotten(GoneTold(Closed(s, c), s.conns[c].session), c)
  {
  }

  /** A join whose message and creation limit passed: the client is told why not, or is welcomed. */
  ghost function Admission(s: Sys, c: ClientId, roomId: string, cmd: Command, now: Time): Sys
    requires c in s.conns && cmd.Join?
  {
    var r := RoomToJoin(s.room, roomId, cmd, now);
    var step := RoomSpec.Join(r, cmd.sid, cmd.userName, cmd.role, now);
    JoinEnded(s.(room := Some(step.room)), c, cmd.sid, step.outcome,
              JoinNews(r, cmd, step.room), now)
  }

  /** What the others are told when `cmd` took room `r` to room `joined`. */
  function JoinNews(r: RoomData, cmd: Command, joined: RoomData): Message
    requires cmd.Join?
  {
    if cmd.sid in joined.seats && cmd.sid !in r.seats then
      ParticipantJoined(cmd.sid, joined.seats[cmd.sid].name, Active, joined.seats[cmd.sid].role)
    else PresenceChanged(cmd.sid, Active)
  }

  ghost function JoinEnded(s: Sys, c: ClientId, sid: Sid, outcome: RoomSpec.Outcome, news: Message, now: Time): Sys
    requires c in s.conns && s.room.Some?
  {
    if outcome.Refused? then Answered(s, c, if outcome.error.RoomFull? then RoomFull else InvalidName)
    else
      Welcomed(s.(room := Some(RoomSpec.TimerInfo(s.room.value, now))), c, sid,
               RoomStateMsg(StateOf(s.room.value, now)), news)
  }

  lemma AdmissionIsReaction(s: Sys, c: ClientId, roomId: string, cmd: Command, now: Time)
    requires c in s.conns && cmd.Join? && (c in s.registered <==> s.conns[c].session != "")
    requires cmd.sid != "" && ValidSessionId(cmd.sid) && cmd.userName != [] && (s.room.None? ==> cmd.creationAllowed)
    ensures Admission(s, c, roomId, cmd, now) == Handle(s, roomId, c, cmd, now)
  {
    var re := ReactJoin(s.room, s.conns[c].session, roomId, cmd, now);
    var r := RoomToJoin(s.room, roomId, cmd, now);
    var step := RoomSpec.Join(r, cmd.sid, cmd.userName, cmd.role, now);
    if step.outcome.Refused? {
      CarryAnswer(s, c, re, if step.outcome.error.RoomFull? then RoomFull else InvalidName);
    } else {
      CarryJoin(s, c, re, re.toSelf[0], re.toOthers[0]);
    }
  }

  /** The loop of BuildRoomState over the participants map. */
  method CollectInfos(seats: Seats) returns (infos: seq<Info>)
    requires Keyed(seats)
    ensures forall i :: i in infos <==> i.sessionId in seats && i == InfoOf(seats[i.sessionId])
    ensures forall i, j :: 0 <= i < j < |infos| ==> infos[i] != infos[j]
  {
    infos := [];
    var remaining := seats.Keys;
    while remaining != {}
      invariant remaining <= seats.Keys
      invariant forall i :: i in infos <==> i.sessionId in seats.Keys - remaining && i == InfoOf(seats[i.sessionId])
      invariant forall i, j :: 0 <= i < j < |infos| ==> infos[i] != infos[j]
    {
      var s :| s in remaining;
      assert InfoOf(seats[s]) !in infos;
      infos := infos + [InfoOf(seats[s])];
      remaining := remaining - {s};
    }
  }

  /** The participants gathered in map order, sorted by join time. */
  method ListParticipants(seats: Seats) returns (participants: seq<Info>)
    requires Keyed(seats)
    ensures participants == Roster(seats)
  {
    var infos := CollectInfos(seats);
    SortedInfosAreRoster(seats, infos);
    participants := SortBy(infos, InfoKey(seats), Earlier);
  }

  method ResultDuringReveal(phase: Phase, seats: Seats) returns (result: Option<RoundResult>)
    requires Keyed(seats)
    ensures result == if phase == PhaseReveal then Some(Stats.Summarize(Stats.Ballot(seats))) else None
  {
    if phase == PhaseReveal {
      var r := Stats.CalculateResult(seats);
      return Some(r);
    }
    return None;
  }

  /** BuildRoomState: the participant list, with the result during reveal and a reading of the timer. */
  method BuildRoomState(room: Room, now: Time) returns (state: RoomPayload)
    requires room.Valid()
    modifies room`timer
    ensures state == StateOf(old(room.Data()), now)
    ensures room.Data() == RoomSpec.TimerInfo(old(room.Data()), now)
  {
    var seats := room.Seats();
    room.SeatsAreKeyed();
    var participants := ListParticipants(seats);
    var result := ResultDuringReveal(room.phase, seats);
    var snapshot := room.TimerInfo(now);
    state := RoomPayload(room.id, room.name, room.createdBy, room.phase, participants, result,
                         TimerPayloadOf(snapshot));
  }

  lemma SortedInfosAreRoster(seats: Seats, infos: seq<Info>)
    requires Keyed(seats)
    requires forall i :: i in infos <==> i.sessionId in seats && i == InfoOf(seats[i.sessionId])
    requires forall i, j :: 0 <= i < j < |infos| ==> infos[i] != infos[j]
    ensures SortBy(infos, InfoKey(seats), Earlier) == Roster(seats)
  {
    InfosHaveDistinctKeys(seats, infos);
    EarlierIsStrictTotalOrder();
    SortBySorts(infos, InfoKey(seats), Earlier);
    RosterIsSorted(seats);
    SortedIsUnique(SortBy(infos, InfoKey(seats), Earlier), Roster(seats), InfoKey(seats), Earlier);
  }
}
