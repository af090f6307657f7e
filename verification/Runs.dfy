/** Whole runs of one room: any number of clients joining, acting, lagging, reconnecting and leaving, with
    messages in flight between the server's send buffers and the browsers. */
module Runs {
  import opened Common
  import opened RoomTypes
  import RoomSpec
  import opened Protocol
  import opened Replica
  import opened Coherence
  import opened CoherentSteps

  /** Bookkeeping about a connection: every message queued for it so far, and what it may have missed
      since its last room_state. */
  datatype Note = Note(sent: seq<Message>, drift: Drift)

  datatype World = World(sys: Sys, wire: map<ClientId, seq<Message>>, replicas: map<ClientId, Replica>,
                         notes: map<ClientId, Note>)

  /** Arrive opens a connection, the browser keeping whatever it showed before; Pump is the write pump
      moving one message from the send buffer to the network; Deliver is the browser handling the next
      message; Collect is the removal of a room without clients. */
  datatype WorldEvent =
    | Arrive(client: ClientId, shown: Replica)
    | Act(client: ClientId, cmd: Command, at: Time)
    | Depart(client: ClientId)
    | Ping(client: ClientId, at: Time)
    | Pump(client: ClientId)
    | Deliver(client: ClientId)
    | Collect

  const EMPTY_WORLD := World(Sys(None, map[], {}), map[], map[], map[])

  /** The last room_state queued for the client follows the last room_cleared. */
  ghost predicate Synced(sent: seq<Message>) {
    exists i :: 0 <= i < |sent| && sent[i].RoomStateMsg? && forall j :: i < j < |sent| ==> sent[j] != RoomCleared
  }

  /** The messages a handler queues for client `d` when client `c` acts. */
  ghost function MessagesFor(s: Sys, re: Reaction, c: ClientId, d: ClientId): seq<Message> {
    if d == c then re.toSelf else if d in s.registered then re.toOthers else []
  }

  ghost function NoteAfter(n: Note, ms: seq<Message>, before: Option<RoomData>, s: Sid, cmd: Command,
                           after: Option<RoomData>): Note {
    Note(n.sent + ms,
         if HasState(ms) then NO_DRIFT
         else if before.Some? && after.Some? then DriftAfter(n.drift, before.value, s, cmd, after.value)
         else n.drift)
  }

  ghost function ActStep(w: World, roomId: string, c: ClientId, cmd: Command, now: Time): World
    requires c in w.sys.conns
  {
    var s := w.sys;
    var re := React(s.room, s.conns[c].session, roomId, cmd, now);
    w.(sys := Handle(s, roomId, c, cmd, now),
       notes := map d | d in w.notes ::
         NoteAfter(w.notes[d], MessagesFor(s, re, c, d), s.room, s.conns[c].session, cmd, re.room))
  }

  ghost function DepartStep(w: World, c: ClientId): World
    requires c in w.sys.conns
  {
    var sid := w.sys.conns[c].session;
    var announced := sid != "" && w.sys.room.Some?;
    World(Drop(w.sys, c), w.wire - {c}, w.replicas - {c},
          map d | d in w.notes && d != c ::
            if announced && d in w.sys.registered
            then w.notes[d].(sent := w.notes[d].sent + [PresenceChanged(sid, Disconnected)]) else w.notes[d])
  }

  ghost function PumpStep(w: World, c: ClientId): World
    requires c in w.sys.conns && c in w.wire
  {
    var conn := w.sys.conns[c];
    if conn.buffer == [] then w
    else w.(sys := w.sys.(conns := w.sys.conns[c := conn.(buffer := conn.buffer[1..])]),
            wire := w.wire[c := w.wire[c] + [conn.buffer[0]]])
  }

  ghost function DeliverStep(w: World, c: ClientId): World
    requires c in w.wire && c in w.replicas
  {
    if w.wire[c] == [] then w
    else w.(wire := w.wire[c := w.wire[c][1..]], replicas := w.replicas[c := Apply(w.replicas[c], w.wire[c][0])])
  }

  ghost function PingStep(w: World, c: ClientId, now: Time): World
    requires c in w.sys.conns
  {
    var sid := w.sys.conns[c].session;
    if sid == "" || w.sys.room.None? then w
    else w.(sys := w.sys.(room := Some(RoomSpec.UpdatePing(w.sys.room.value, sid, now))))
  }

  /** The same clients are known everywhere. */
  ghost predicate SameClients(w: World) {
    w.wire.Keys == w.sys.conns.Keys && w.replicas.Keys == w.sys.conns.Keys && w.notes.Keys == w.sys.conns.Keys
  }

  ghost function Step(w: World, roomId: string, e: WorldEvent): (after: World)
    requires SameClients(w)
    ensures SameClients(after)
  {
    match e
    case Arrive(c, shown) =>
      if c in w.sys.conns then w
      else World(w.sys.(conns := w.sys.conns[c := Conn("", [], false)]), w.wire[c := []],
                 w.replicas[c := shown], w.notes[c := Note([], NO_DRIFT)])
    case Act(c, cmd, now) => if c in w.sys.conns then ActStep(w, roomId, c, cmd, now) else w
    case Depart(c) => if c in w.sys.conns then DepartStep(w, c) else w
    case Ping(c, now) => if c in w.sys.conns then PingStep(w, c, now) else w
    case Pump(c) => if c in w.sys.conns then PumpStep(w, c) else w
    case Deliver(c) => if c in w.sys.conns then DeliverStep(w, c) else w
    case Collect => if w.sys.registered == {} then w.(sys := w.sys.(room := None)) else w
  }

  /** The world after a run from the empty world, most recent event last. */
  ghost function RunWorld(roomId: string, events: seq<WorldEvent>): (w: World)
    ensures SameClients(w)
  {
    if events == [] then EMPTY_WORLD
    else Step(RunWorld(roomId, events[..|events| - 1]), roomId, events[|events| - 1])
  }

  lemma PumpUpdatesConn(w: World, c: ClientId)
    requires SameClients(w) && c in w.sys.conns
    ensures var w' := PumpStep(w, c);
            && w'.sys.room == w.sys.room && w'.sys.registered == w.sys.registered && c in w'.sys.conns
            && w'.sys.conns == w.sys.conns[c := w'.sys.conns[c]]
            && w'.sys.conns[c].session == w.sys.conns[c].session
  {
    assert w.sys.conns == w.sys.conns[c := w.sys.conns[c]];
  }

  // ----- the server's invariants on every run -----

  lemma PumpKeepsSysOk(w: World, c: ClientId)
    requires SameClients(w) && SysOk(w.sys) && c in w.sys.conns
    ensures SysOk(PumpStep(w, c).sys)
  {
    PumpUpdatesConn(w, c);
  }

  lemma ArriveKeepsSysOk(s: Sys, c: ClientId)
    requires SysOk(s) && c !in s.conns
    ensures SysOk(s.(conns := s.conns[c := Conn("", [], false)]))
  {
  }

  lemma StepKeepsSysOk(w: World, roomId: string, e: WorldEvent)
    requires SameClients(w) && SysOk(w.sys)
    ensures SysOk(Step(w, roomId, e).sys)
  {
    match e {
      case Arrive(c, _) => if c !in w.sys.conns { ArriveKeepsSysOk(w.sys, c); }
      case Act(c, cmd, now) => if c in w.sys.conns { HandleKeepsSysOk(w.sys, roomId, c, cmd, now); }
      case Depart(c) => if c in w.sys.conns { DropKeepsSysOk(w.sys, c); }
      case Ping(c, now) => if c in w.sys.conns { PingKeepsSysOk(w, c, now); }
      case Pump(c) => if c in w.sys.conns { PumpKeepsSysOk(w, c); }
      case _ =>
    }
  }

  lemma PingKeepsSysOk(w: World, c: ClientId, now: Time)
    requires SameClients(w) && SysOk(w.sys) && c in w.sys.conns
    ensures SysOk(PingStep(w, c, now).sys)
  {
    if w.sys.room.Some? {
      RoomSpec.PerformKeepsRoomOk(w.sys.room.value, RoomSpec.Event(RoomSpec.OpPing(w.sys.conns[c].session), now));
    }
  }

  lemma {:induction false} RunKeepsSysOk(roomId: string, events: seq<WorldEvent>)
    ensures SysOk(RunWorld(roomId, events).sys)
  {
    if events == [] {
    } else {
      RunKeepsSysOk(roomId, events[..|events| - 1]);
      StepKeepsSysOk(RunWorld(roomId, events[..|events| - 1]), roomId, events[|events| - 1]);
    }
  }
}
