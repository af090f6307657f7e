/** After a clear: the browsers that join again end up with the room (web/src/ws.ts, internal/server/ws.go). */
module Resync {
  import opened Common
  import opened RoomTypes
  import RoomSpec
  import opened Protocol
  import opened Replica
  import opened CoherentSteps
  import opened Runs
  import opened CoherentRuns
  import opened CoherentViews

  /** Joins the browser of `c` has sent and the server has not handled: one when its connection opens, one more
      for every room_cleared it handles, one less for every join the server handles. */
  ghost function Outbox(roomId: string, events: seq<WorldEvent>, c: ClientId): nat {
    if events == [] then 0
    else
      var earlier, e := events[..|events| - 1], events[|events| - 1];
      OutboxAfter(RunWorld(roomId, earlier), e, c, Outbox(roomId, earlier, c))
  }

  ghost function OutboxAfter(w: World, e: WorldEvent, c: ClientId, n: nat): nat
    requires SameClients(w)
  {
    match e
    case Arrive(d, _) => if d == c && c !in w.sys.conns then 1 else n
    case Deliver(d) => if d == c && HandlesClear(w, c) then n + 1 else n
    case Act(d, cmd, _) => if d == c && c in w.sys.conns && cmd.Join? && n > 0 then n - 1 else n
    case _ => n
  }

  ghost predicate HandlesClear(w: World, c: ClientId)
    requires SameClients(w)
  {
    c in w.sys.conns && w.wire[c] != [] && w.wire[c][0] == RoomCleared
  }

  /** The event is not a refused join of `c`. */
  ghost predicate AnsweredWithState(w: World, roomId: string, e: WorldEvent, c: ClientId) {
    e.Act? && e.client == c && c in w.sys.conns && e.cmd.Join? ==>
      HasState(React(w.sys.room, w.sys.conns[c].session, roomId, e.cmd, e.at).toSelf)
  }

  ghost predicate NeverRefused(roomId: string, events: seq<WorldEvent>, c: ClientId) {
    events == [] ||
    (var earlier := events[..|events| - 1];
     NeverRefused(roomId, earlier, c) && AnsweredWithState(RunWorld(roomId, earlier), roomId, events[|events| - 1], c))
  }

  /** A registered open client that has not been sent the room since the last clear has either still to learn of
      the clear, or has asked. */
  ghost predicate SyncedOrAsking(w: World, c: ClientId, outbox: nat)
    requires SameClients(w)
  {
    c in w.sys.conns && c in w.sys.registered && !w.sys.conns[c].closed ==>
      Synced(w.notes[c].sent) || RoomCleared in w.wire[c] || RoomCleared in w.sys.conns[c].buffer || outbox > 0
  }

  lemma SyncedExtends(sent: seq<Message>, ms: seq<Message>)
    requires Synced(sent) && RoomCleared !in ms
    ensures Synced(sent + ms)
  {
    var all := sent + ms;
    var i :| 0 <= i < |sent| && sent[i].RoomStateMsg? && forall j :: i < j < |sent| ==> sent[j] != RoomCleared;
    assert all[i] == sent[i];
    forall j | i < j < |all|
      ensures all[j] != RoomCleared
    {
      if j < |sent| {
        assert all[j] == sent[j];
      } else {
        assert all[j] == ms[j - |sent|];
      }
    }
  }

  lemma StateSyncs(sent: seq<Message>, state: RoomPayload)
    ensures Synced(sent + [RoomStateMsg(state)])
  {
    assert (sent + [RoomStateMsg(state)])[|sent|].RoomStateMsg?;
  }

  lemma AnsweredJoinSyncs(w: World, roomId: string, c: ClientId, cmd: Command, now: Time)
    requires SameClients(w) && c in w.sys.conns && cmd.Join?
    requires HasState(React(w.sys.room, w.sys.conns[c].session, roomId, cmd, now).toSelf)
    ensures Synced(ActStep(w, roomId, c, cmd, now).notes[c].sent)
  {
    JoinSendsState(w.sys.room, w.sys.conns[c].session, roomId, cmd, now);
    StateSyncs(w.notes[c].sent, StateOf(JoinedRoom(w.sys.room, roomId, cmd, now), now));
  }

  /** Messages queued for an open client that stays open. */
  lemma QueuedMessages(w: World, roomId: string, a: ClientId, cmd: Command, now: Time, c: ClientId)
    requires SameClients(w) && a in w.sys.conns && c in w.sys.conns
    requires !ActStep(w, roomId, a, cmd, now).sys.conns[c].closed
    ensures var ms := MessagesFor(w.sys, React(w.sys.room, w.sys.conns[a].session, roomId, cmd, now), a, c);
            var w' := ActStep(w, roomId, a, cmd, now);
            && !w.sys.conns[c].closed && w'.wire == w.wire
            && w'.sys.conns[c].buffer == w.sys.conns[c].buffer + ms && w'.notes[c].sent == w.notes[c].sent + ms
  {
    var re := React(w.sys.room, w.sys.conns[a].session, roomId, cmd, now);
    SendAllKeepsSession(w.sys.conns[c].(session := re.session), re.toSelf);
    SendAllKeepsSession(w.sys.conns[c], re.toOthers);
    assert w.sys.conns[c].buffer + [] == w.sys.conns[c].buffer;
  }

  lemma ActKeepsAsking(w: World, roomId: string, a: ClientId, cmd: Command, now: Time, c: ClientId, outbox: nat)
    requires SameClients(w) && SysOk(w.sys) && a in w.sys.conns && c in w.sys.conns
    requires SyncedOrAsking(w, c, outbox) && !(a == c && cmd.Join?)
    requires SameClients(ActStep(w, roomId, a, cmd, now))
    ensures SyncedOrAsking(ActStep(w, roomId, a, cmd, now), c, outbox)
  {
    var w' := ActStep(w, roomId, a, cmd, now);
    if c in w'.sys.registered && !w'.sys.conns[c].closed {
      var ms := MessagesFor(w.sys, React(w.sys.room, w.sys.conns[a].session, roomId, cmd, now), a, c);
      QueuedMessages(w, roomId, a, cmd, now, c);
      OthersGetNoState(w.sys.room, w.sys.conns[a].session, roomId, cmd, now);
      OnlyJoinSendsState(w.sys.room, w.sys.conns[a].session, roomId, cmd, now);
      StaysRegistered(w.sys, roomId, a, cmd, now, c);
      if RoomCleared !in ms && Synced(w.notes[c].sent) {
        SyncedExtends(w.notes[c].sent, ms);
      }
    }
  }

  lemma DepartKeepsAsking(w: World, a: ClientId, c: ClientId, outbox: nat)
    requires SameClients(w) && a in w.sys.conns && c in w.sys.conns && a != c && SyncedOrAsking(w, c, outbox)
    requires SameClients(DepartStep(w, a))
    ensures SyncedOrAsking(DepartStep(w, a), c, outbox)
  {
    if Synced(w.notes[c].sent) {
      SyncedExtends(w.notes[c].sent, [PresenceChanged(w.sys.conns[a].session, Disconnected)]);
    }
  }

  lemma PumpKeepsAsking(w: World, a: ClientId, c: ClientId, outbox: nat)
    requires SameClients(w) && a in w.sys.conns && SyncedOrAsking(w, c, outbox)
    requires SameClients(PumpStep(w, a))
    ensures SyncedOrAsking(PumpStep(w, a), c, outbox)
  {
    var buffer := w.sys.conns[a].buffer;
    if a == c && buffer != [] {
      assert buffer == [buffer[0]] + buffer[1..];
    }
  }

  lemma DeliverKeepsAsking(w: World, a: ClientId, c: ClientId, outbox: nat)
    requires SameClients(w) && a in w.sys.conns && SyncedOrAsking(w, c, outbox)
    requires SameClients(DeliverStep(w, a))
    ensures SyncedOrAsking(DeliverStep(w, a), c, OutboxAfter(w, Deliver(a), c, outbox))
  {
    if a == c && w.wire[c] != [] {
      assert w.wire[c] == [w.wire[c][0]] + w.wire[c][1..];
    }
  }

  lemma ActEventKeepsAsking(w: World, roomId: string, a: ClientId, cmd: Command, now: Time, c: ClientId, outbox: nat)
    requires SameClients(w) && SysOk(w.sys) && a in w.sys.conns && c in w.sys.conns && SyncedOrAsking(w, c, outbox)
    requires AnsweredWithState(w, roomId, Act(a, cmd, now), c) && SameClients(ActStep(w, roomId, a, cmd, now))
    ensures SyncedOrAsking(ActStep(w, roomId, a, cmd, now), c, OutboxAfter(w, Act(a, cmd, now), c, outbox))
  {
    if a == c && cmd.Join? {
      AnsweredJoinSyncs(w, roomId, c, cmd, now);
    } else {
      ActKeepsAsking(w, roomId, a, cmd, now, c, outbox);
    }
  }

  /** The events that run no handler. */
  lemma MoveKeepsAsking(w: World, roomId: string, e: WorldEvent, c: ClientId, outbox: nat)
    requires SameClients(w) && SyncedOrAsking(w, c, outbox) && !e.Act? && !e.Depart?
    ensures SyncedOrAsking(Step(w, roomId, e), c, OutboxAfter(w, e, c, outbox))
  {
    match e {
      case Pump(a) => if a in w.sys.conns { PumpKeepsAsking(w, a, c, outbox); }
      case Deliver(a) => if a in w.sys.conns { DeliverKeepsAsking(w, a, c, outbox); }
      case _ =>
    }
  }

  lemma StepKeepsAsking(w: World, roomId: string, e: WorldEvent, c: ClientId, outbox: nat)
    requires SameClients(w) && SysOk(w.sys) && SyncedOrAsking(w, c, outbox) && AnsweredWithState(w, roomId, e, c)
    ensures SyncedOrAsking(Step(w, roomId, e), c, OutboxAfter(w, e, c, outbox))
  {
    if e.Act? {
      if e.client in w.sys.conns && c in w.sys.conns {
        ActEventKeepsAsking(w, roomId, e.client, e.cmd, e.at, c, outbox);
      }
    } else if e.Depart? {
      if e.client in w.sys.conns && c in w.sys.conns && e.client != c {
        DepartKeepsAsking(w, e.client, c, outbox);
      }
    } else {
      MoveKeepsAsking(w, roomId, e, c, outbox);
    }
  }

  lemma {:induction false} RunKeepsAsking(roomId: string, events: seq<WorldEvent>, c: ClientId)
    requires NeverRefused(roomId, events, c)
    ensures SyncedOrAsking(RunWorld(roomId, events), c, Outbox(roomId, events, c))
  {
    if events == [] {
    } else {
      var earlier, e := events[..|events| - 1], events[|events| - 1];
      RunKeepsAsking(roomId, earlier, c);
      RunKeepsSysOk(roomId, earlier);
      StepKeepsAsking(RunWorld(roomId, earlier), roomId, e, c, Outbox(roomId, earlier, c));
    }
  }

  /** A join that is admitted, by a client that had joined or not, makes the client up to date, unless there is no
      place left in its send buffer. */
  lemma AdmittedJoinIsUpToDate(w: World, roomId: string, c: ClientId, cmd: Command, now: Time)
    requires SameClients(w) && c in w.sys.conns && cmd.Join? && |w.sys.conns[c].buffer| <= SEND_BUFFER_SIZE
    requires if w.sys.room.Some? then Admits(w.sys.room.value, cmd)
             else cmd.creationAllowed && Admits(RoomSpec.NewRoom(roomId, RoomNameFor(cmd), cmd.userName, now), cmd)
    ensures var w' := Step(w, roomId, Act(c, cmd, now));
            && c in w'.sys.registered && w'.sys.conns[c].session == cmd.sid
            && w'.sys.room.Some? && cmd.sid in w'.sys.room.value.seats
            && (UpToDate(w', c) <==> !w.sys.conns[c].closed && |w.sys.conns[c].buffer| < 32)
  {
    var re := React(w.sys.room, w.sys.conns[c].session, roomId, cmd, now);
    AdmittedJoinIsSentRoom(w.sys.room, w.sys.conns[c].session, roomId, cmd, now);
    AnsweredJoinSyncs(w, roomId, c, cmd, now);
    SendAllQueuesWhatFits(w.sys.conns[c].(session := re.session), re.toSelf);
    SendAllKeepsSession(w.sys.conns[c].(session := re.session), re.toSelf);
  }

  lemma AdmittedJoinIsSentRoom(room: Option<RoomData>, s: Sid, roomId: string, cmd: Command, now: Time)
    requires cmd.Join?
    requires if room.Some? then Admits(room.value, cmd)
             else cmd.creationAllowed && Admits(RoomSpec.NewRoom(roomId, RoomNameFor(cmd), cmd.userName, now), cmd)
    ensures var re := React(room, s, roomId, cmd, now);
            && HasState(re.toSelf) && |re.toSelf| == 1 && re.session == cmd.sid != ""
            && re.room.Some? && cmd.sid in re.room.value.seats
  {
    assert React(room, s, roomId, cmd, now).toSelf[0].RoomStateMsg?;
  }

  /** Nothing is on its way to the client or from it. */
  ghost predicate Quiescent(roomId: string, events: seq<WorldEvent>, c: ClientId) {
    var w := RunWorld(roomId, events);
    c in w.sys.conns && w.wire[c] == [] && w.sys.conns[c].buffer == [] && Outbox(roomId, events, c) == 0
  }

  /** Once nothing is on its way, a registered open client none of whose joins was refused is up to date. */
  lemma {:induction false} QuiescentIsUpToDate(roomId: string, events: seq<WorldEvent>, c: ClientId)
    requires NeverRefused(roomId, events, c) && Quiescent(roomId, events, c)
    requires c in RunWorld(roomId, events).sys.registered && !RunWorld(roomId, events).sys.conns[c].closed
    ensures UpToDate(RunWorld(roomId, events), c)
  {
    RunKeepsAsking(roomId, events, c);
  }

  /** And then, on orderly runs, what its browser shows is the room. */
  lemma {:induction false} QuiescentShowsRoom(roomId: string, events: seq<WorldEvent>, c: ClientId)
    requires Orderly(roomId, events) && NeverRefused(roomId, events, c) && Quiescent(roomId, events, c)
    requires c in RunWorld(roomId, events).sys.registered && !RunWorld(roomId, events).sys.conns[c].closed
    ensures ShowsRoom(roomId, events, c)
    ensures Settled(RunWorld(roomId, events), c) == RunWorld(roomId, events).replicas[c]
  {
    QuiescentIsUpToDate(roomId, events, c);
    ReplicaCoherence(roomId, events);
  }
}
