/** The result a browser shows during reveal: the one it was last told. */
module ShownResults {
  import opened Common
  import opened RoomTypes
  import Stats
  import opened Protocol
  import opened Replica
  import opened Coherence
  import opened CoherentSteps
  import opened CoherentCards
  import opened Runs
  import opened CoherentRuns

  /** The messages that carry a result: a reveal, or a room_state. */
  predicate TellsResult(ms: seq<Message>) {
    exists i :: 0 <= i < |ms| && (ms[i].RoomStateMsg? || ms[i].VotesRevealed?)
  }

  /** The votes behind the result client `c` was told last: those of the room at the later of the reveal and the
      client's last room_state. */
  ghost function Basis(roomId: string, events: seq<WorldEvent>, c: ClientId): seq<VoteEntry> {
    if events == [] then []
    else
      var earlier := events[..|events| - 1];
      BasisAfter(RunWorld(roomId, earlier), roomId, events[|events| - 1], c, Basis(roomId, earlier, c))
  }

  ghost function BasisAfter(w: World, roomId: string, e: WorldEvent, c: ClientId, basis: seq<VoteEntry>): seq<VoteEntry>
    requires SameClients(w)
  {
    if e.Act? && e.client in w.sys.conns then
      var re := React(w.sys.room, w.sys.conns[e.client].session, roomId, e.cmd, e.at);
      ToldBasis(re.room, MessagesFor(w.sys, re, e.client, c), basis)
    else basis
  }

  ghost function ToldBasis(after: Option<RoomData>, ms: seq<Message>, basis: seq<VoteEntry>): seq<VoteEntry> {
    if after.Some? && TellsResult(ms) then Stats.Ballot(after.value.seats) else basis
  }

  /** The copy shows the result of those votes. */
  ghost predicate ShowsResultOf(r: Replica, votes: seq<VoteEntry>) {
    r.room.Some? && r.room.value.result == Some(Stats.Summarize(votes))
  }

  // ----- one handler -----

  lemma RevealTellsResult(re: Reaction, room: RoomData, r: Replica, basis: seq<VoteEntry>)
    requires re.room.Some? && TellsVotes(re, room) && r.room.Some?
    ensures ShowsResultOf(ApplyAll(r, re.toOthers), ToldBasis(re.room, re.toOthers, basis))
  {
    ApplyOne(r, re.toOthers[0]);
    assert re.toOthers[0].VotesRevealed?;
  }

  lemma QuietMessagesKeepResult(after: Option<RoomData>, r: Replica, ms: seq<Message>, basis: seq<VoteEntry>)
    requires ShowsResultOf(r, basis) && |ms| <= 1 && (ms != [] ==> LeavesCards(ms[0]))
    ensures ShowsResultOf(ApplyAll(r, ms), ToldBasis(after, ms, basis))
  {
    QuietMessagesKeepCards(r, ms);
    QuietMessagesTellNoResult(ms);
  }

  lemma QuietMessagesTellNoResult(ms: seq<Message>)
    requires |ms| <= 1 && (ms != [] ==> LeavesCards(ms[0]))
    ensures !TellsResult(ms)
  {
  }

  lemma OthersKeepResult(re: Reaction, room: RoomData, r: Replica, basis: seq<VoteEntry>)
    requires TellsAboutCards(re, room) && re.room.value.phase == PhaseReveal && r.room.Some?
    requires room.phase == PhaseReveal ==> ShowsResultOf(r, basis)
    ensures ShowsResultOf(ApplyAll(r, re.toOthers), ToldBasis(re.room, re.toOthers, basis))
  {
    if TellsVotes(re, room) {
      RevealTellsResult(re, room, r, basis);
    } else {
      QuietMessagesKeepResult(re.room, r, re.toOthers, basis);
    }
  }

  lemma SelfKeepsResult(re: Reaction, room: RoomData, r: Replica, basis: seq<VoteEntry>)
    requires TellsAboutCards(re, room) && re.room.value.phase == PhaseReveal && r.room.Some?
    requires room.phase == PhaseReveal ==> ShowsResultOf(r, basis)
    requires re.toSelf == re.toOthers || (exists code :: re.toSelf == [ErrorMsg(code)] && re.toOthers == [])
    ensures ShowsResultOf(ApplyAll(r, re.toSelf), ToldBasis(re.room, re.toSelf, basis))
  {
    if re.toSelf == re.toOthers {
      OthersKeepResult(re, room, r, basis);
    } else {
      QuietMessagesKeepResult(re.room, r, re.toSelf, basis);
    }
  }

  /** A handler that sends a client no room_state, whether the client is the acting one or another. */
  lemma HandlerKeepsResult(room: RoomData, s: Sid, roomId: string, cmd: Command, now: Time, self: bool, r: Replica,
                           basis: seq<VoteEntry>)
    requires var re := React(Some(room), s, roomId, cmd, now);
             var ms := if self then re.toSelf else re.toOthers;
             && RoomCleared !in ms && !HasState(ms) && (self ==> re.session != "")
             && re.room.Some? && re.room.value.phase == PhaseReveal
    requires r.room.Some? && (room.phase == PhaseReveal ==> ShowsResultOf(r, basis))
    ensures var re := React(Some(room), s, roomId, cmd, now);
            var ms := if self then re.toSelf else re.toOthers;
            ShowsResultOf(ApplyAll(r, ms), ToldBasis(re.room, ms, basis))
  {
    var re := React(Some(room), s, roomId, cmd, now);
    NoClearUnlessAnnounced(Some(room), s, roomId, cmd, now);
    HandlersTellAboutCards(room, s, roomId, cmd, now);
    if self {
      OwnMessages(Some(room), s, roomId, cmd, now);
      SelfKeepsResult(re, room, r, basis);
    } else {
      OthersKeepResult(re, room, r, basis);
    }
  }

  lemma JoinerIsToldResult(room: Option<RoomData>, s: Sid, roomId: string, cmd: Command, now: Time, r: Replica,
                           basis: seq<VoteEntry>)
    requires HasState(React(room, s, roomId, cmd, now).toSelf)
    ensures var re := React(room, s, roomId, cmd, now);
            re.room.Some? && (re.room.value.phase == PhaseReveal ==>
                                ShowsResultOf(ApplyAll(r, re.toSelf), ToldBasis(re.room, re.toSelf, basis)))
  {
    var re := React(room, s, roomId, cmd, now);
    OnlyJoinSendsState(room, s, roomId, cmd, now);
    JoinSendsState(room, s, roomId, cmd, now);
    ApplyOne(r, re.toSelf[0]);
    assert re.toSelf[0].RoomStateMsg?;
  }

  // ----- one event -----

  ghost predicate ResultFollows(w: World, c: ClientId, basis: seq<VoteEntry>)
    requires SameClients(w)
  {
    c in w.sys.conns && UpToDate(w, c) && w.sys.room.Some? && w.sys.room.value.phase == PhaseReveal ==>
      ShowsResultOf(Settled(w, c), basis)
  }

  /** What is queued for a client that stays up to date carries the result along. */
  lemma QueuedKeepsResult(w: World, roomId: string, a: ClientId, cmd: Command, now: Time, c: ClientId,
                          basis: seq<VoteEntry>)
    requires WorldOk(w) && a in w.sys.conns && c in w.sys.conns && ResultFollows(w, c, basis)
    requires c in Handle(w.sys, roomId, a, cmd, now).registered && !w.sys.conns[c].closed && Synced(w.notes[c].sent)
    requires var re := React(w.sys.room, w.sys.conns[a].session, roomId, cmd, now);
             var ms := MessagesFor(w.sys, re, a, c);
             re.room.Some? && re.room.value.phase == PhaseReveal && RoomCleared !in ms && !HasState(ms)
    ensures var re := React(w.sys.room, w.sys.conns[a].session, roomId, cmd, now);
            var ms := MessagesFor(w.sys, re, a, c);
            ShowsResultOf(ApplyAll(Settled(w, c), ms), ToldBasis(re.room, ms, basis))
  {
    StaysRegistered(w.sys, roomId, a, cmd, now, c);
    assert CoherentRuns.Follows(w, c);
    HandlerKeepsResult(w.sys.room.value, w.sys.conns[a].session, roomId, cmd, now, c == a, Settled(w, c), basis);
  }

  lemma LoadedResult(w: World, roomId: string, a: ClientId, cmd: Command, now: Time, c: ClientId,
                     basis: seq<VoteEntry>)
    requires SameClients(w) && a in w.sys.conns && c in w.sys.conns
    requires var re := React(w.sys.room, w.sys.conns[a].session, roomId, cmd, now);
             re.room.Some? && re.room.value.phase == PhaseReveal && HasState(MessagesFor(w.sys, re, a, c))
    ensures var re := React(w.sys.room, w.sys.conns[a].session, roomId, cmd, now);
            var ms := MessagesFor(w.sys, re, a, c);
            ShowsResultOf(ApplyAll(Settled(w, c), ms), ToldBasis(re.room, ms, basis))
  {
    OthersGetNoState(w.sys.room, w.sys.conns[a].session, roomId, cmd, now);
    JoinerIsToldResult(w.sys.room, w.sys.conns[a].session, roomId, cmd, now, Settled(w, c), basis);
  }

  /** The client was sent the room, or was up to date and is not told of a clear. */
  ghost predicate StaysUpToDate(w: World, c: ClientId, ms: seq<Message>)
    requires c in w.notes
  {
    HasState(ms) || (Synced(w.notes[c].sent) && RoomCleared !in ms)
  }

  lemma UpToDateAfterAct(w: World, roomId: string, a: ClientId, cmd: Command, now: Time, c: ClientId)
    requires SameClients(w) && SysOk(w.sys) && a in w.sys.conns && c in w.sys.conns
    requires SameClients(ActStep(w, roomId, a, cmd, now)) && UpToDate(ActStep(w, roomId, a, cmd, now), c)
    ensures var ms := MessagesFor(w.sys, React(w.sys.room, w.sys.conns[a].session, roomId, cmd, now), a, c);
            && c in Handle(w.sys, roomId, a, cmd, now).registered && !w.sys.conns[c].closed
            && StaysUpToDate(w, c, ms)
            && Settled(ActStep(w, roomId, a, cmd, now), c) == ApplyAll(Settled(w, c), ms)
  {
    ActSettles(w, roomId, a, cmd, now, c);
    SyncedAfter(w.notes[c].sent,
                MessagesFor(w.sys, React(w.sys.room, w.sys.conns[a].session, roomId, cmd, now), a, c));
  }

  lemma MessagesKeepResult(w: World, roomId: string, a: ClientId, cmd: Command, now: Time, c: ClientId,
                           basis: seq<VoteEntry>)
    requires WorldOk(w) && a in w.sys.conns && c in w.sys.conns && ResultFollows(w, c, basis)
    requires c in Handle(w.sys, roomId, a, cmd, now).registered && !w.sys.conns[c].closed
    requires var re := React(w.sys.room, w.sys.conns[a].session, roomId, cmd, now);
             && StaysUpToDate(w, c, MessagesFor(w.sys, re, a, c))
             && re.room.Some? && re.room.value.phase == PhaseReveal
    ensures var re := React(w.sys.room, w.sys.conns[a].session, roomId, cmd, now);
            var ms := MessagesFor(w.sys, re, a, c);
            ShowsResultOf(ApplyAll(Settled(w, c), ms), ToldBasis(re.room, ms, basis))
  {
    if HasState(MessagesFor(w.sys, React(w.sys.room, w.sys.conns[a].session, roomId, cmd, now), a, c)) {
      LoadedResult(w, roomId, a, cmd, now, c, basis);
    } else {
      QueuedKeepsResult(w, roomId, a, cmd, now, c, basis);
    }
  }

  lemma ActKeepsResult(w: World, roomId: string, a: ClientId, cmd: Command, now: Time, c: ClientId,
                       basis: seq<VoteEntry>)
    requires WorldOk(w) && a in w.sys.conns && c in w.sys.conns && ResultFollows(w, c, basis)
    requires SameClients(ActStep(w, roomId, a, cmd, now))
    requires UpToDate(ActStep(w, roomId, a, cmd, now), c)
    requires var after := React(w.sys.room, w.sys.conns[a].session, roomId, cmd, now).room;
             after.Some? && after.value.phase == PhaseReveal
    ensures ShowsResultOf(Settled(ActStep(w, roomId, a, cmd, now), c),
                          BasisAfter(w, roomId, Act(a, cmd, now), c, basis))
  {
    UpToDateAfterAct(w, roomId, a, cmd, now, c);
    MessagesKeepResult(w, roomId, a, cmd, now, c, basis);
  }

  lemma DepartKeepsResult(w: World, a: ClientId, c: ClientId, basis: seq<VoteEntry>)
    requires WorldOk(w) && a in w.sys.conns && c in w.sys.conns && a != c && ResultFollows(w, c, basis)
    requires SameClients(DepartStep(w, a))
    ensures ResultFollows(DepartStep(w, a), c, basis)
  {
    var s, w' := w.sys, DepartStep(w, a);
    var sid := s.conns[a].session;
    if UpToDate(w', c) && s.room.Some? && sid != "" {
      var ms := [PresenceChanged(sid, Disconnected)];
      SettledAfterSend(w.replicas[c], w.wire[c], s.conns[c].buffer, ms);
      SyncedAfter(w.notes[c].sent, ms);
      assert CoherentRuns.Follows(w, c);
      QuietMessagesKeepCards(Settled(w, c), ms);
    }
  }

  lemma MoveKeepsResult(w: World, roomId: string, e: WorldEvent, c: ClientId, basis: seq<VoteEntry>)
    requires WorldOk(w) && ResultFollows(w, c, basis) && (e.Pump? || e.Deliver?)
    ensures ResultFollows(Step(w, roomId, e), c, basis)
  {
    if e.client in w.sys.conns && c in w.sys.conns {
      if e.Pump? {
        PumpKeepsSettled(w, e.client, c);
      } else {
        DeliverKeepsSettled(w, e.client, c);
      }
    }
  }

  lemma OtherKeepsResult(w: World, roomId: string, e: WorldEvent, c: ClientId, basis: seq<VoteEntry>)
    requires WorldOk(w) && ResultFollows(w, c, basis) && (e.Arrive? || e.Ping? || e.Collect?)
    ensures ResultFollows(Step(w, roomId, e), c, basis)
  {
  }

  lemma StepKeepsResult(w: World, roomId: string, e: WorldEvent, c: ClientId, basis: seq<VoteEntry>)
    requires WorldOk(w) && ResultFollows(w, c, basis)
    ensures ResultFollows(Step(w, roomId, e), c, BasisAfter(w, roomId, e, c, basis))
  {
    if e.Act? {
      if e.client in w.sys.conns && c in w.sys.conns {
        var w' := ActStep(w, roomId, e.client, e.cmd, e.at);
        if UpToDate(w', c) && w'.sys.room.Some? && w'.sys.room.value.phase == PhaseReveal {
          ActKeepsResult(w, roomId, e.client, e.cmd, e.at, c, basis);
        }
      }
    } else if e.Depart? {
      if e.client in w.sys.conns && c in w.sys.conns && e.client != c {
        DepartKeepsResult(w, e.client, c, basis);
      }
    } else if e.Pump? || e.Deliver? {
      MoveKeepsResult(w, roomId, e, c, basis);
    } else {
      OtherKeepsResult(w, roomId, e, c, basis);
    }
  }

  // ----- runs -----

  /** On every orderly run the result an up-to-date client's settled copy shows during reveal is that of the votes
      behind the result it was told last. */
  lemma {:induction false} RunKeepsResult(roomId: string, events: seq<WorldEvent>, c: ClientId)
    requires Orderly(roomId, events)
    ensures ResultFollows(RunWorld(roomId, events), c, Basis(roomId, events, c))
  {
    if events == [] {
    } else {
      var earlier, e := events[..|events| - 1], events[|events| - 1];
      OrderlyPrefix(roomId, events);
      RunKeepsResult(roomId, earlier, c);
      RunKeepsWorldOk(roomId, earlier);
      StepKeepsResult(RunWorld(roomId, earlier), roomId, e, c, Basis(roomId, earlier, c));
    }
  }

  /** So it is the result the server would compute now exactly when those votes are the ones that count now. */
  lemma ShownResultIsCurrentIff(r: Replica, basis: seq<VoteEntry>, seats: Seats)
    requires ShowsResultOf(r, basis)
    ensures r.room.value.result == Some(Stats.Summarize(Stats.Ballot(seats))) <==> basis == Stats.Ballot(seats)
  {
  }
}
