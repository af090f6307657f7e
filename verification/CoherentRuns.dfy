/** Replica coherence over whole runs. */
module CoherentRuns {
  import opened Common
  import opened RoomTypes
  import RoomSpec
  import opened Protocol
  import opened Replica
  import opened Coherence
  import opened CoherentSteps
  import opened CoherentCards
  import opened Runs

  /** What client `c` will show once it has handled everything already queued for it. */
  ghost function Settled(w: World, c: ClientId): Replica
    requires SameClients(w) && c in w.sys.conns
  {
    ApplyAll(w.replicas[c], w.wire[c] + w.sys.conns[c].buffer)
  }

  /** A registered client whose buffer never overflowed and that has been sent the room since it was last
      cleared settles on a copy of the room. */
  ghost predicate Follows(w: World, c: ClientId)
    requires SameClients(w) && c in w.sys.conns
  {
    c in w.sys.registered && !w.sys.conns[c].closed && Synced(w.notes[c].sent)
    ==> w.sys.room.Some? && Copies(Settled(w, c), w.sys.room.value, w.notes[c].drift)
  }

  /** A copy of the room, up to drift, that shows the server's cards. */
  ghost predicate Copies(r: Replica, room: RoomData, d: Drift) { Mirrors(r, room, d) && CardsMatch(r, room) }

  ghost predicate WorldOk(w: World) {
    SameClients(w) && SysOk(w.sys) && forall c :: c in w.sys.conns ==> Follows(w, c)
  }

  /** Whoever the event seats sorts last. */
  ghost predicate OrderlyEvent(w: World, e: WorldEvent) {
    e.Act? && e.client in w.sys.conns && w.sys.room.Some? ==> InOrder(w.sys.room.value, e.cmd, e.at)
  }

  // ----- one event -----

  lemma SyncedAfter(sent: seq<Message>, ms: seq<Message>)
    requires Synced(sent + ms)
    ensures HasState(ms) || (Synced(sent) && RoomCleared !in ms)
  {
    var all := sent + ms;
    var i :| 0 <= i < |all| && all[i].RoomStateMsg? && forall j :: i < j < |all| ==> all[j] != RoomCleared;
    if i < |sent| {
      assert sent[i] == all[i];
      forall j | i < j < |sent| ensures sent[j] != RoomCleared { assert all[j] == sent[j]; }
      forall k | 0 <= k < |ms| ensures ms[k] != RoomCleared { assert all[|sent| + k] == ms[k]; }
    } else {
      assert ms[i - |sent|] == all[i];
    }
  }

  lemma Regroup(a: seq<Message>, b: seq<Message>, c: seq<Message>)
    ensures a + (b + c) == (a + b) + c
  {
  }

  lemma SettledAfterSend(r: Replica, wire: seq<Message>, buffer: seq<Message>, ms: seq<Message>)
    ensures ApplyAll(r, wire + (buffer + ms)) == ApplyAll(ApplyAll(r, wire + buffer), ms)
  {
    Regroup(wire, buffer, ms);
    ApplyAllConcat(r, wire + buffer, ms);
  }

  /** A command appends its messages to what a client that stays registered and open settles on. */
  lemma ActSettles(w: World, roomId: string, c: ClientId, cmd: Command, now: Time, d: ClientId)
    requires SameClients(w) && SysOk(w.sys) && c in w.sys.conns && d in w.sys.conns
    requires SameClients(ActStep(w, roomId, c, cmd, now)) && d in ActStep(w, roomId, c, cmd, now).sys.conns
    requires d in ActStep(w, roomId, c, cmd, now).sys.registered && !ActStep(w, roomId, c, cmd, now).sys.conns[d].closed
    ensures var ms := MessagesFor(w.sys, React(w.sys.room, w.sys.conns[c].session, roomId, cmd, now), c, d);
            var w' := ActStep(w, roomId, c, cmd, now);
            && !w.sys.conns[d].closed && w'.notes[d].sent == w.notes[d].sent + ms
            && Settled(w', d) == ApplyAll(Settled(w, d), ms)
  {
    var s, w' := w.sys, ActStep(w, roomId, c, cmd, now);
    var re := React(s.room, s.conns[c].session, roomId, cmd, now);
    var ms := MessagesFor(s, re, c, d);
    SendAllKeepsSession(if d == c then s.conns[c].(session := re.session) else s.conns[d], ms);
    if d != c && d !in s.registered {
      assert false;
    }
    assert w'.sys.conns[d].buffer == s.conns[d].buffer + ms;
    SettledAfterSend(w.replicas[d], w.wire[d], s.conns[d].buffer, ms);
  }

  lemma ActFollowsFor(w: World, roomId: string, c: ClientId, cmd: Command, now: Time, d: ClientId)
    requires WorldOk(w) && c in w.sys.conns && d in w.sys.conns
    requires w.sys.room.Some? ==> InOrder(w.sys.room.value, cmd, now)
    requires SameClients(ActStep(w, roomId, c, cmd, now)) && d in ActStep(w, roomId, c, cmd, now).sys.conns
    ensures Follows(ActStep(w, roomId, c, cmd, now), d)
  {
    var s, w' := w.sys, ActStep(w, roomId, c, cmd, now);
    var re := React(s.room, s.conns[c].session, roomId, cmd, now);
    var ms := MessagesFor(s, re, c, d);
    if d in w'.sys.registered && !w'.sys.conns[d].closed && Synced(w'.notes[d].sent) {
      ActSettles(w, roomId, c, cmd, now, d);
      var r := Settled(w, d);
      SyncedAfter(w.notes[d].sent, ms);
      if HasState(ms) {
        OthersGetNoState(s.room, s.conns[c].session, roomId, cmd, now);
        JoinerIsSynced(s.room, s.conns[c].session, roomId, cmd, now, r);
        JoinerSeesCards(s.room, s.conns[c].session, roomId, cmd, now, r);
      } else {
        StaysRegistered(s, roomId, c, cmd, now, d);
        if d == c {
          SelfFollows(s.room.value, s.conns[c].session, roomId, cmd, now, r, w.notes[d].drift);
          SelfKeepsCards(s.room.value, s.conns[c].session, roomId, cmd, now, r, w.notes[d].drift);
        } else {
          OthersFollow(s.room.value, s.conns[c].session, roomId, cmd, now, r, w.notes[d].drift);
          OthersKeepCards(s.room.value, s.conns[c].session, roomId, cmd, now, r, w.notes[d].drift);
        }
      }
    }
  }

  /** A client registered after a command that sent it no room_state was registered before. */
  lemma StaysRegistered(s: Sys, roomId: string, c: ClientId, cmd: Command, now: Time, d: ClientId)
    requires SysOk(s) && c in s.conns && d in s.conns
    requires d in Handle(s, roomId, c, cmd, now).registered
    requires var re := React(s.room, s.conns[c].session, roomId, cmd, now);
             !HasState(MessagesFor(s, re, c, d))
    ensures d in s.registered && s.room.Some?
    ensures d == c ==> React(s.room, s.conns[c].session, roomId, cmd, now).session != ""
  {
    NewSessionGetsState(s.room, s.conns[c].session, roomId, cmd, now);
  }

  lemma NewSessionGetsState(room: Option<RoomData>, session: Sid, roomId: string, cmd: Command, now: Time)
    ensures var re := React(room, session, roomId, cmd, now);
            re.session != "" && !HasState(re.toSelf) ==> re.session == session
  {
    if cmd.Join? {
      var re := ReactJoin(room, session, roomId, cmd, now);
      if re.session != session {
        assert re.toSelf[0].RoomStateMsg?;
      }
    }
  }

  lemma DepartFollowsFor(w: World, c: ClientId, d: ClientId)
    requires WorldOk(w) && c in w.sys.conns && d in w.sys.conns && d != c
    requires SameClients(DepartStep(w, c)) && d in DepartStep(w, c).sys.conns
    ensures Follows(DepartStep(w, c), d)
  {
    var s, w' := w.sys, DepartStep(w, c);
    var sid := s.conns[c].session;
    if d in w'.sys.registered && !w'.sys.conns[d].closed && Synced(w'.notes[d].sent) && sid != "" && s.room.Some? {
      var ms := [PresenceChanged(sid, Disconnected)];
      SettledAfterSend(w.replicas[d], w.wire[d], s.conns[d].buffer, ms);
      SyncedAfter(w.notes[d].sent, ms);
      DisconnectFollows(s.room.value, sid, Settled(w, d), w.notes[d].drift);
      DisconnectKeepsCards(s.room.value, sid, Settled(w, d), w.notes[d].drift);
    }
  }

  lemma PingKeepsMirror(r: Replica, room: RoomData, d: Drift, s: Sid, now: Time)
    requires Mirrors(r, room, d)
    ensures Mirrors(r, RoomSpec.UpdatePing(room, s, now), d)
  {
    if s in room.seats {
      SilentChangeMatches(r.room.value.participants, room.seats, d, s, room.seats[s].(lastPing := now));
    }
  }

  lemma PumpKeepsSettled(w: World, c: ClientId, d: ClientId)
    requires SameClients(w) && c in w.sys.conns && d in w.sys.conns
    ensures SameClients(PumpStep(w, c)) && UnmovedFor(w, PumpStep(w, c), d)
    ensures PumpStep(w, c).sys.conns.Keys == w.sys.conns.Keys && PumpStep(w, c).notes == w.notes
  {
    var buffer := w.sys.conns[c].buffer;
    if buffer != [] && d == c {
      assert w.wire[c] + [buffer[0]] + buffer[1..] == w.wire[c] + buffer;
    }
  }

  lemma DeliverKeepsSettled(w: World, c: ClientId, d: ClientId)
    requires SameClients(w) && c in w.sys.conns && d in w.sys.conns
    ensures SameClients(DeliverStep(w, c)) && d in DeliverStep(w, c).sys.conns
    ensures DeliverStep(w, c).sys == w.sys && DeliverStep(w, c).notes == w.notes
    ensures Settled(DeliverStep(w, c), d) == Settled(w, d)
  {
    var wire := w.wire[c];
    if wire != [] && d == c {
      var rest := wire[1..] + w.sys.conns[c].buffer;
      assert wire + w.sys.conns[c].buffer == [wire[0]] + rest;
      ApplyAllConcat(w.replicas[c], [wire[0]], rest);
      ApplyOne(w.replicas[c], wire[0]);
    }
  }

  lemma ActKeepsWorldOk(w: World, roomId: string, c: ClientId, cmd: Command, now: Time)
    requires WorldOk(w) && c in w.sys.conns
    requires w.sys.room.Some? ==> InOrder(w.sys.room.value, cmd, now)
    ensures WorldOk(ActStep(w, roomId, c, cmd, now))
  {
    HandleKeepsSysOk(w.sys, roomId, c, cmd, now);
    var w' := ActStep(w, roomId, c, cmd, now);
    assert w'.sys.conns.Keys == w.sys.conns.Keys && w'.notes.Keys == w.notes.Keys;
    forall d | d in w'.sys.conns
      ensures Follows(w', d)
    {
      ActFollowsFor(w, roomId, c, cmd, now, d);
    }
  }

  lemma DepartKeepsWorldOk(w: World, c: ClientId)
    requires WorldOk(w) && c in w.sys.conns
    ensures WorldOk(DepartStep(w, c))
  {
    DropKeepsSysOk(w.sys, c);
    var w' := DepartStep(w, c);
    assert w'.sys.conns.Keys == w.sys.conns.Keys - {c} && w'.notes.Keys == w.notes.Keys - {c};
    forall d | d in w'.sys.conns
      ensures Follows(w', d)
    {
      DepartFollowsFor(w, c, d);
    }
  }

  lemma PingKeepsWorldOk(w: World, c: ClientId, now: Time)
    requires WorldOk(w) && c in w.sys.conns
    ensures WorldOk(PingStep(w, c, now))
  {
    var w' := PingStep(w, c, now);
    if w' != w {
      var sid := w.sys.conns[c].session;
      RoomSpec.PerformKeepsRoomOk(w.sys.room.value, RoomSpec.Event(RoomSpec.OpPing(sid), now));
      forall d | d in w'.sys.conns
        ensures Follows(w', d)
      {
        assert Settled(w', d) == Settled(w, d);
        if Copies(Settled(w, d), w.sys.room.value, w.notes[d].drift) {
          PingKeepsMirror(Settled(w, d), w.sys.room.value, w.notes[d].drift, sid, now);
          PingKeepsCards(w.sys.room.value, sid, now, Settled(w, d), w.notes[d].drift);
        }
      }
    }
  }

  /** Moving messages along leaves what client `d` settles on, and its connection's standing, as they were. */
  ghost predicate UnmovedFor(w: World, w': World, d: ClientId)
    requires SameClients(w) && SameClients(w') && d in w.sys.conns
  {
    && d in w'.sys.conns
    && w'.sys.conns[d].session == w.sys.conns[d].session && w'.sys.conns[d].closed == w.sys.conns[d].closed
    && Settled(w', d) == Settled(w, d)
  }

  lemma MoveKeepsWorldOk(w: World, w': World)
    requires WorldOk(w) && SameClients(w') && w'.notes == w.notes
    requires w'.sys.room == w.sys.room && w'.sys.registered == w.sys.registered
    requires w'.sys.conns.Keys == w.sys.conns.Keys
    requires forall d :: d in w.sys.conns ==> UnmovedFor(w, w', d)
    ensures WorldOk(w')
  {
    forall d | d in w'.sys.conns
      ensures w'.sys.conns[d].session == w.sys.conns[d].session && Follows(w', d)
    {
      assert UnmovedFor(w, w', d) && Follows(w, d);
    }
  }

  lemma ArriveKeepsWorldOk(w: World, roomId: string, c: ClientId, shown: Replica)
    requires WorldOk(w) && c !in w.sys.conns
    ensures WorldOk(Step(w, roomId, Arrive(c, shown)))
  {
    var w' := Step(w, roomId, Arrive(c, shown));
    assert SysOk(w'.sys);
    forall d | d in w'.sys.conns
      ensures Follows(w', d)
    {
      if d in w.sys.conns {
        assert Follows(w, d) && Settled(w', d) == Settled(w, d);
      }
    }
  }

  lemma CollectKeepsWorldOk(w: World, roomId: string)
    requires WorldOk(w)
    ensures WorldOk(Step(w, roomId, Collect))
  {
    var w' := Step(w, roomId, Collect);
    forall d | d in w'.sys.conns
      ensures Follows(w', d)
    {
      assert Follows(w, d) && Settled(w', d) == Settled(w, d);
    }
  }

  lemma PumpKeepsWorldOk(w: World, c: ClientId)
    requires WorldOk(w) && c in w.sys.conns
    ensures WorldOk(PumpStep(w, c))
  {
    PumpKeepsSettled(w, c, c);
    PumpUpdatesConn(w, c);
    forall d | d in w.sys.conns
      ensures UnmovedFor(w, PumpStep(w, c), d)
    {
      PumpKeepsSettled(w, c, d);
    }
    MoveKeepsWorldOk(w, PumpStep(w, c));
  }

  lemma DeliverKeepsWorldOk(w: World, c: ClientId)
    requires WorldOk(w) && c in w.sys.conns
    ensures WorldOk(DeliverStep(w, c))
  {
    DeliverKeepsSettled(w, c, c);
    forall d | d in w.sys.conns
      ensures UnmovedFor(w, DeliverStep(w, c), d)
    {
      DeliverKeepsSettled(w, c, d);
    }
    MoveKeepsWorldOk(w, DeliverStep(w, c));
  }

  lemma StepKeepsWorldOk(w: World, roomId: string, e: WorldEvent)
    requires WorldOk(w) && OrderlyEvent(w, e)
    ensures WorldOk(Step(w, roomId, e))
  {
    match e {
      case Arrive(c, shown) => if c !in w.sys.conns { ArriveKeepsWorldOk(w, roomId, c, shown); }
      case Act(c, cmd, now) => if c in w.sys.conns { ActKeepsWorldOk(w, roomId, c, cmd, now); }
      case Depart(c) => if c in w.sys.conns { DepartKeepsWorldOk(w, c); }
      case Ping(c, now) => if c in w.sys.conns { PingKeepsWorldOk(w, c, now); }
      case Pump(c) => if c in w.sys.conns { PumpKeepsWorldOk(w, c); }
      case Deliver(c) => if c in w.sys.conns { DeliverKeepsWorldOk(w, c); }
      case Collect => CollectKeepsWorldOk(w, roomId);
    }
  }

  // ----- runs -----

  /** Whoever is seated in the run sorts last at that moment. */
  ghost predicate Orderly(roomId: string, events: seq<WorldEvent>) {
    forall k :: 0 <= k < |events| ==> OrderlyEvent(RunWorld(roomId, events[..k]), events[k])
  }

  lemma OrderlyPrefix(roomId: string, events: seq<WorldEvent>)
    requires Orderly(roomId, events) && events != []
    ensures Orderly(roomId, events[..|events| - 1])
  {
    var init := events[..|events| - 1];
    forall k | 0 <= k < |init|
      ensures OrderlyEvent(RunWorld(roomId, init[..k]), init[k])
    {
      assert init[..k] == events[..k];
    }
  }

  lemma {:induction false} RunKeepsWorldOk(roomId: string, events: seq<WorldEvent>)
    requires Orderly(roomId, events)
    ensures WorldOk(RunWorld(roomId, events))
  {
    if events == [] {
    } else {
      OrderlyPrefix(roomId, events);
      RunKeepsWorldOk(roomId, events[..|events| - 1]);
      StepKeepsWorldOk(RunWorld(roomId, events[..|events| - 1]), roomId, events[|events| - 1]);
    }
  }

  /** The client is registered with the room, its send buffer never overflowed, and the last room_state queued
      for it follows the last room_cleared. */
  ghost predicate UpToDate(w: World, c: ClientId)
    requires SameClients(w)
  {
    c in w.sys.registered && c in w.sys.conns && !w.sys.conns[c].closed && Synced(w.notes[c].sent)
  }

  /** The copy shows the room's phase, its timer, and exactly the participants a fresh room_state would list, in
      the same order with the same statuses; everybody's vote is flagged; and a name, role or flag differs exactly
      where the drift says so.  While voting it shows no card and no result, during reveal exactly the card of
      everyone whose vote the server counts, in the list and in the result. */
  ghost predicate Shows(r: Replica, room: RoomData, d: Drift) {
    && r.room.Some?
    && TimersMatch(r.timer, room.timer)
    && ShowsPeople(r.room.value.participants, room.seats, d)
    && r.room.value.phase == room.phase
    && (room.phase == PhaseVoting ==> r.room.value.result.None?)
    && CardsMatch(r, room)
  }

  ghost predicate ShowsPeople(ps: seq<Peer>, seats: Seats, d: Drift) {
    var roster := Roster(seats);
    && |ps| == |roster|
    && forall i :: 0 <= i < |ps| ==>
         && ps[i].sessionId == roster[i].sessionId
         && ps[i].status == roster[i].status
         && ShowsInfo(ps[i], roster[i], d)
  }

  lemma CopyShows(r: Replica, room: RoomData, d: Drift)
    requires RoomSpec.RoomOk(room) && Copies(r, room, d)
    ensures Shows(r, room, d)
  {
    RoomSpec.RoomIsKeyed(room);
    MatchesMeansRoster(r.room.value.participants, room.seats, d);
  }

  // ----- the vote counter -----

  predicate Connected(p: Peer) { p.status != Disconnected && p.role != Observer }

  ghost function ConnectedVoters(seats: Seats): set<Sid> {
    set s | s in seats && seats[s].status != Disconnected && seats[s].role != Observer
  }

  ghost function ConnectedWithVote(seats: Seats): set<Sid> {
    set s | s in seats && seats[s].status != Disconnected && seats[s].role != Observer && seats[s].vote != Blank
  }

  ghost function SidsWhere(ps: seq<Peer>, test: Peer -> bool): set<Sid> {
    set i | 0 <= i < |ps| && test(ps[i]) :: ps[i].sessionId
  }

  lemma {:induction false} CountIsCardinality(ps: seq<Peer>)
    requires forall i, j :: 0 <= i < j < |ps| ==> ps[i].sessionId != ps[j].sessionId
    ensures VotedCount(ps).0 == |SidsWhere(ps, (p: Peer) => Connected(p) && p.hasVoted)|
    ensures VotedCount(ps).1 == |SidsWhere(ps, Connected)|
  {
    if ps == [] {
    } else {
      var n := |ps| - 1;
      var init, last := ps[..n], ps[n];
      CountIsCardinality(init);
      SidsWhereGrows(ps, Connected);
      SidsWhereGrows(ps, (p: Peer) => Connected(p) && p.hasVoted);
    }
  }

  lemma SidsWhereGrows(ps: seq<Peer>, test: Peer -> bool)
    requires ps != [] && forall i, j :: 0 <= i < j < |ps| ==> ps[i].sessionId != ps[j].sessionId
    ensures |SidsWhere(ps, test)| == |SidsWhere(ps[..|ps| - 1], test)| + if test(ps[|ps| - 1]) then 1 else 0
  {
    var n := |ps| - 1;
    var init, last := ps[..n], ps[n];
    assert SidsWhere(ps, test) == SidsWhere(init, test) + if test(last) then {last.sessionId} else {};
    assert last.sessionId !in SidsWhere(init, test);
  }

  /** Without role or vote drift the voteCount signal equals the server's own count over connected voters. */
  lemma VoteCountIsExact(ps: seq<Peer>, seats: Seats, d: Drift)
    requires Matches(ps, seats, d) && d.roles == map[] && d.votes == {}
    ensures VotedCount(ps) == (|ConnectedWithVote(seats)|, |ConnectedVoters(seats)|)
  {
    forall i, j | 0 <= i < j < |ps|
      ensures ps[i].sessionId != ps[j].sessionId
    {
      ListedOnce(ps, seats, i);
    }
    CountIsCardinality(ps);
    forall s | s in seats
      ensures exists i :: 0 <= i < |ps| && ps[i].sessionId == s && Agrees(ps[i], seats[s], d)
    {
      assert Lists(ps, s);
    }
    assert SidsWhere(ps, Connected) == ConnectedVoters(seats);
    assert SidsWhere(ps, (p: Peer) => Connected(p) && p.hasVoted) == ConnectedWithVote(seats);
  }

  /** The client's counter is the server's count. */
  ghost predicate CountsRight(w: World, c: ClientId)
    requires SameClients(w) && c in w.sys.conns
  {
    && w.sys.room.Some? && Settled(w, c).room.Some?
    && VotedCount(Settled(w, c).room.value.participants)
       == (|ConnectedWithVote(w.sys.room.value.seats)|, |ConnectedVoters(w.sys.room.value.seats)|)
  }

  predicate NoVoterDrift(d: Drift) { d.roles == map[] && d.votes == {} }

  ghost predicate CountsRightWithoutDrift(w: World)
    requires SameClients(w)
  {
    forall c :: c in w.sys.conns && UpToDate(w, c) && NoVoterDrift(w.notes[c].drift) ==> CountsRight(w, c)
  }

  lemma WorldOkCountsRight(w: World)
    requires WorldOk(w)
    ensures CountsRightWithoutDrift(w)
  {
    forall c | c in w.sys.conns && UpToDate(w, c) && NoVoterDrift(w.notes[c].drift)
      ensures CountsRight(w, c)
    {
      assert Follows(w, c);
      VoteCountIsExact(Settled(w, c).room.value.participants, w.sys.room.value.seats, w.notes[c].drift);
    }
  }

  /** The voteCount signal on every orderly run. */
  lemma {:induction false} VoteCounterCoherence(roomId: string, events: seq<WorldEvent>)
    requires Orderly(roomId, events)
    ensures SysOk(RunWorld(roomId, events).sys)
    ensures CountsRightWithoutDrift(RunWorld(roomId, events))
  {
    RunKeepsWorldOk(roomId, events);
    WorldOkCountsRight(RunWorld(roomId, events));
  }
}
