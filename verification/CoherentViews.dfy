/** Replica coherence: what up-to-date browsers show, on every run. */
module CoherentViews {
  import opened Common
  import opened RoomTypes
  import opened Protocol
  import opened Runs
  import opened CoherentRuns
  import opened HiddenChanges
  import opened ShownResults
  import opened JoinTimes

  /** What client `c` settles on is the room: its phase and timer, exactly the participants a fresh room_state would
      list, in the same order with the same statuses, and the right cards.  A name, role or vote flag is right unless
      a change of it was hidden from the client since its last room_state.  During reveal the result is that of the
      votes behind the result it was told last. */
  ghost predicate ShowsRoom(roomId: string, events: seq<WorldEvent>, c: ClientId) {
    var w := RunWorld(roomId, events);
    && c in w.sys.conns && w.sys.room.Some?
    && var r, room := Settled(w, c), w.sys.room.value;
       && Shows(r, room, w.notes[c].drift)
       && RightUnlessHidden(r, room.seats, roomId, events, c)
       && (room.phase == PhaseReveal ==> ShowsResultOf(r, Basis(roomId, events, c)))
  }

  lemma FollowerShowsRoom(roomId: string, events: seq<WorldEvent>, c: ClientId)
    requires WorldOk(RunWorld(roomId, events)) && UpToDate(RunWorld(roomId, events), c)
    requires ResultFollows(RunWorld(roomId, events), c, Basis(roomId, events, c))
    ensures ShowsRoom(roomId, events, c)
  {
    var w := RunWorld(roomId, events);
    assert CoherentRuns.Follows(w, c);
    CopyShows(Settled(w, c), w.sys.room.value, w.notes[c].drift);
    CopyIsRightUnlessHidden(roomId, events, c, Settled(w, c), w.sys.room.value);
  }

  /** On every orderly run the server's invariants hold and every up-to-date client settles on the room. */
  lemma {:induction false} ReplicaCoherence(roomId: string, events: seq<WorldEvent>)
    requires Orderly(roomId, events)
    ensures SysOk(RunWorld(roomId, events).sys)
    ensures forall c :: UpToDate(RunWorld(roomId, events), c) ==> ShowsRoom(roomId, events, c)
  {
    RunKeepsWorldOk(roomId, events);
    forall c | UpToDate(RunWorld(roomId, events), c)
      ensures ShowsRoom(roomId, events, c)
    {
      RunKeepsResult(roomId, events, c);
      FollowerShowsRoom(roomId, events, c);
    }
  }

  /** Replica coherence from the events alone: joins come at increasing times. */
  lemma {:induction false} ReplicaCoherenceByJoinTimes(roomId: string, events: seq<WorldEvent>)
    requires JoinTimesIncrease(events)
    ensures SysOk(RunWorld(roomId, events).sys)
    ensures forall c :: UpToDate(RunWorld(roomId, events), c) ==> ShowsRoom(roomId, events, c)
  {
    IncreasingJoinsAreOrderly(roomId, events);
    ReplicaCoherence(roomId, events);
  }
}
