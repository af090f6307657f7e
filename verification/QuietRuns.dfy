/** Runs on which the browsers' vote flags and counters are exact. */
module QuietRuns {
  import opened Common
  import opened RoomTypes
  import opened Protocol
  import opened Replica
  import opened Coherence
  import opened Runs
  import opened CoherentRuns
  import opened HiddenChanges

  /** No event of the run makes somebody who holds a vote an observer. */
  ghost predicate NobodyGivesUpAVote(roomId: string, events: seq<WorldEvent>) {
    forall t :: NeverHides(roomId, events, FlagLook, t)
  }

  /** No event of the run is a rejoin under another role. */
  ghost predicate RejoinsKeepRoles(roomId: string, events: seq<WorldEvent>) {
    forall t :: NeverHides(roomId, events, RoleLook, t)
  }

  ghost predicate NoVoteDrift(w: World) { forall c :: c in w.notes ==> w.notes[c].drift.votes == {} }

  ghost predicate NoRoleDrift(w: World) { forall c :: c in w.notes ==> w.notes[c].drift.roles == map[] }

  lemma NeverHiddenIsNotWrong(roomId: string, events: seq<WorldEvent>, c: ClientId, look: Look, t: Sid)
    requires c in RunWorld(roomId, events).notes && NeverHides(roomId, events, look, t)
    ensures !Wrong(RunWorld(roomId, events).notes[c].drift, look, t)
  {
    NeverHidesHidesNothing(roomId, events, look, t);
    DriftWasHidden(roomId, events, c, look, t);
  }

  lemma RunHasNoVoteDrift(roomId: string, events: seq<WorldEvent>)
    requires NobodyGivesUpAVote(roomId, events)
    ensures NoVoteDrift(RunWorld(roomId, events))
  {
    var w := RunWorld(roomId, events);
    forall c, t | c in w.notes
      ensures t !in w.notes[c].drift.votes
    {
      NeverHiddenIsNotWrong(roomId, events, c, FlagLook, t);
    }
  }

  lemma RunHasNoRoleDrift(roomId: string, events: seq<WorldEvent>)
    requires RejoinsKeepRoles(roomId, events)
    ensures NoRoleDrift(RunWorld(roomId, events))
  {
    var w := RunWorld(roomId, events);
    forall c, t | c in w.notes
      ensures t !in w.notes[c].drift.roles
    {
      NeverHiddenIsNotWrong(roomId, events, c, RoleLook, t);
    }
  }

  /** Every up-to-date client flags exactly the participants who hold a vote. */
  ghost predicate FlagsRight(w: World)
    requires SameClients(w)
  {
    forall c :: c in w.sys.conns && UpToDate(w, c) ==>
      && w.sys.room.Some? && Settled(w, c).room.Some?
      && FlagsMatch(Settled(w, c).room.value.participants, w.sys.room.value.seats)
  }

  ghost predicate FlagsMatch(ps: seq<Peer>, seats: Seats) {
    forall i :: 0 <= i < |ps| ==>
      ps[i].sessionId in seats && ps[i].hasVoted == (seats[ps[i].sessionId].vote != Blank)
  }

  ghost predicate CountersRight(w: World)
    requires SameClients(w)
  {
    forall c :: c in w.sys.conns && UpToDate(w, c) ==> CountsRight(w, c)
  }

  lemma FlagsRightWithoutDrift(w: World)
    requires WorldOk(w) && NoVoteDrift(w)
    ensures FlagsRight(w)
  {
    forall c | c in w.sys.conns && UpToDate(w, c)
      ensures w.sys.room.Some? && Settled(w, c).room.Some?
      ensures FlagsMatch(Settled(w, c).room.value.participants, w.sys.room.value.seats)
    {
      assert CoherentRuns.Follows(w, c);
    }
  }

  /** On orderly runs where nobody gives up a vote by becoming an observer, every up-to-date client flags exactly
      the participants who hold a vote. */
  lemma {:induction false} VoteFlagsCoherence(roomId: string, events: seq<WorldEvent>)
    requires Orderly(roomId, events) && NobodyGivesUpAVote(roomId, events)
    ensures FlagsRight(RunWorld(roomId, events))
  {
    RunHasNoVoteDrift(roomId, events);
    RunKeepsWorldOk(roomId, events);
    FlagsRightWithoutDrift(RunWorld(roomId, events));
  }

  /** If rejoins keep their roles too, every up-to-date client's vote counter is the server's count. */
  lemma {:induction false} VoteCountersOnQuietRuns(roomId: string, events: seq<WorldEvent>)
    requires Orderly(roomId, events) && NobodyGivesUpAVote(roomId, events) && RejoinsKeepRoles(roomId, events)
    ensures CountersRight(RunWorld(roomId, events))
  {
    RunHasNoVoteDrift(roomId, events);
    RunHasNoRoleDrift(roomId, events);
    RunKeepsWorldOk(roomId, events);
    WorldOkCountsRight(RunWorld(roomId, events));
  }
}
