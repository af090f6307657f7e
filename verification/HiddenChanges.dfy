/** Where a copy can be wrong: only about changes that were announced to nobody. */
module HiddenChanges {
  import opened Common
  import opened RoomTypes
  import RoomSpec
  import opened Protocol
  import opened Replica
  import opened Coherence
  import opened CoherentSteps
  import opened Runs
  import opened CoherentRuns

  /** What an entry shows of a participant and a copy can have wrong. */
  datatype Look = NameLook | RoleLook | FlagLook

  predicate ShownRight(p: Peer, seat: Seat, look: Look) {
    match look
    case NameLook => p.userName == seat.name
    case RoleLook => p.role == seat.role
    case FlagLook => p.hasVoted == (seat.vote != Blank)
  }

  predicate Wrong(d: Drift, look: Look, t: Sid) {
    match look
    case NameLook => t in d.names
    case RoleLook => t in d.roles
    case FlagLook => t in d.votes
  }

  /** The command changes the look of participant `t` and tells nobody: `t` rejoins under another name or role, or
      holds a vote and becomes an observer. */
  predicate Hides(before: RoomData, cmd: Command, after: RoomData, look: Look, t: Sid) {
    && t in before.seats && t in after.seats
    && match look
       case NameLook => cmd.Join? && cmd.sid == t && before.seats[t].name != after.seats[t].name
       case RoleLook => cmd.Join? && cmd.sid == t && before.seats[t].role != after.seats[t].role
       case FlagLook => before.seats[t].vote != Blank && after.seats[t].role == Observer
  }

  /** The command from session `s` tells how `t` looks: a new round, for flags; somebody who comes or leaves; an
      accepted rename or role change; a vote, or one that is taken back. */
  predicate Tells(before: RoomData, s: Sid, cmd: Command, after: RoomData, look: Look, t: Sid) {
    if before.phase == PhaseReveal && after.phase == PhaseVoting then look.FlagLook?
    else
      && t == Subject(s, cmd)
      && (t in before.seats && t in after.seats ==>
            match look
            case NameLook => Renames(before, s, cmd)
            case RoleLook => ChangesRole(before, s, cmd)
            case FlagLook => after.seats[t].vote != Blank || (cmd.Vote? && before.seats[t].vote != Blank))
  }

  // ----- one command -----

  lemma OnlyJoinedClientsAct(room: RoomData, s: Sid, roomId: string, cmd: Command, now: Time)
    requires s == "" && !cmd.Join?
    ensures React(Some(room), s, roomId, cmd, now).room == Some(room)
  {
  }

  /** A participant who keeps the seat loses a vote only by retracting it, by the reset of the round, or by
      becoming an observer. */
  lemma OperationLosesVote(r: RoomData, e: RoomSpec.Event, t: Sid)
    requires var after := RoomSpec.Perform(r, e).room;
             && t in r.seats && t in after.seats && r.seats[t].vote != Blank && after.seats[t].vote == Blank
             && !e.op.OpVote? && !(r.phase == PhaseReveal && after.phase == PhaseVoting)
    ensures RoomSpec.Perform(r, e).room.seats[t].role == Observer
  {
  }

  lemma OperationChangesRole(r: RoomData, e: RoomSpec.Event, t: Sid)
    requires var after := RoomSpec.Perform(r, e).room;
             t in r.seats && t in after.seats && after.seats[t].role != r.seats[t].role
    ensures (e.op.OpJoin? && e.op.sid == t) || (e.op.OpRole? && e.op.sid == t && e.op.role.RoleField?)
  {
  }

  lemma OperationChangesName(r: RoomData, e: RoomSpec.Event, t: Sid)
    requires var after := RoomSpec.Perform(r, e).room;
             t in r.seats && t in after.seats && after.seats[t].name != r.seats[t].name
    ensures (e.op.OpJoin? && e.op.sid == t)
            || (e.op.OpName? && e.op.sid == t && RoomSpec.StoredName(e.op.name).Some?)
  {
  }

  lemma LostVoteIsHidden(room: RoomData, s: Sid, roomId: string, cmd: Command, now: Time, after: RoomData, t: Sid)
    requires React(Some(room), s, roomId, cmd, now).room == Some(after)
    requires t in room.seats && t in after.seats && room.seats[t].vote != Blank && after.seats[t].vote == Blank
    requires !cmd.Vote? && !(room.phase == PhaseReveal && after.phase == PhaseVoting)
    ensures Hides(room, cmd, after, FlagLook, t)
  {
    ReactionFollows(room, s, roomId, cmd, now);
    OperationLosesVote(room, RoomSpec.Event(OpOf(s, cmd), now), t);
  }

  lemma NewRoleIsHiddenOrTold(room: RoomData, s: Sid, roomId: string, cmd: Command, now: Time, after: RoomData, t: Sid)
    requires React(Some(room), s, roomId, cmd, now).room == Some(after) && t == Subject(s, cmd)
    requires t in room.seats && t in after.seats && after.seats[t].role != room.seats[t].role
    ensures Hides(room, cmd, after, RoleLook, t) || ChangesRole(room, s, cmd)
  {
    if !cmd.Join? && s == "" {
      OnlyJoinedClientsAct(room, s, roomId, cmd, now);
    }
    ReactionFollows(room, s, roomId, cmd, now);
    OperationChangesRole(room, RoomSpec.Event(OpOf(s, cmd), now), t);
  }

  lemma NewNameIsHiddenOrTold(room: RoomData, s: Sid, roomId: string, cmd: Command, now: Time, after: RoomData, t: Sid)
    requires React(Some(room), s, roomId, cmd, now).room == Some(after) && t == Subject(s, cmd)
    requires t in room.seats && t in after.seats && after.seats[t].name != room.seats[t].name
    ensures Hides(room, cmd, after, NameLook, t) || Renames(room, s, cmd)
  {
    if !cmd.Join? && s == "" {
      OnlyJoinedClientsAct(room, s, roomId, cmd, now);
    }
    ReactionFollows(room, s, roomId, cmd, now);
    OperationChangesName(room, RoomSpec.Event(OpOf(s, cmd), now), t);
  }

  /** A drift of the subject of a command is older, or the command hides it. */
  lemma SubjectDriftIsHidden(room: RoomData, s: Sid, roomId: string, cmd: Command, now: Time, after: RoomData, d: Drift,
                             look: Look)
    requires React(Some(room), s, roomId, cmd, now).room == Some(after)
    requires Subject(s, cmd) in room.seats && Subject(s, cmd) in after.seats
    requires !(room.phase == PhaseReveal && after.phase == PhaseVoting)
    requires Wrong(DriftAfter(d, room, s, cmd, after), look, Subject(s, cmd))
    ensures var t := Subject(s, cmd);
            Hides(room, cmd, after, look, t) || (Wrong(d, look, t) && !Tells(room, s, cmd, after, look, t))
  {
    var t := Subject(s, cmd);
    match look {
      case NameLook =>
        if after.seats[t].name != room.seats[t].name {
          NewNameIsHiddenOrTold(room, s, roomId, cmd, now, after, t);
        }
      case RoleLook =>
        if after.seats[t].role != room.seats[t].role {
          NewRoleIsHiddenOrTold(room, s, roomId, cmd, now, after, t);
        }
      case FlagLook =>
        if room.seats[t].vote != Blank && after.seats[t].vote == Blank && !cmd.Vote? {
          LostVoteIsHidden(room, s, roomId, cmd, now, after, t);
        }
    }
  }

  lemma DriftIsHidden(room: RoomData, s: Sid, roomId: string, cmd: Command, now: Time, after: RoomData, d: Drift,
                      look: Look, t: Sid)
    requires React(Some(room), s, roomId, cmd, now).room == Some(after)
    requires Wrong(DriftAfter(d, room, s, cmd, after), look, t)
    ensures Hides(room, cmd, after, look, t) || (Wrong(d, look, t) && !Tells(room, s, cmd, after, look, t))
  {
    if t == Subject(s, cmd) && t in room.seats && t in after.seats
       && !(room.phase == PhaseReveal && after.phase == PhaseVoting) {
      SubjectDriftIsHidden(room, s, roomId, cmd, now, after, d, look);
    }
  }

  // ----- runs -----

  /** A change of the look of `t` is hidden from client `c` after the event: it was before, or the event hides one,
      and the event neither tells nor loads the client's copy anew. */
  ghost predicate HiddenAfter(w: World, roomId: string, e: WorldEvent, c: ClientId, look: Look, t: Sid, hidden: bool)
    requires SameClients(w)
  {
    match e
    case Arrive(d, _) => hidden && !(d == c && c !in w.sys.conns)
    case Act(a, cmd, now) =>
      if a !in w.sys.conns then hidden
      else
        var s := w.sys.conns[a].session;
        var re := React(w.sys.room, s, roomId, cmd, now);
        && !HasState(MessagesFor(w.sys, re, a, c))
        && (if w.sys.room.Some? && re.room.Some?
            then Hides(w.sys.room.value, cmd, re.room.value, look, t)
                 || (hidden && !Tells(w.sys.room.value, s, cmd, re.room.value, look, t))
            else hidden)
    case _ => hidden
  }

  ghost predicate Hidden(roomId: string, events: seq<WorldEvent>, c: ClientId, look: Look, t: Sid) {
    events != [] &&
    (var earlier, e := events[..|events| - 1], events[|events| - 1];
     HiddenAfter(RunWorld(roomId, earlier), roomId, e, c, look, t, Hidden(roomId, earlier, c, look, t)))
  }

  lemma ActHidesDrift(w: World, roomId: string, a: ClientId, cmd: Command, now: Time, c: ClientId, look: Look, t: Sid,
                      hidden: bool)
    requires SameClients(w) && a in w.sys.conns && c in w.notes && (Wrong(w.notes[c].drift, look, t) ==> hidden)
    ensures Wrong(ActStep(w, roomId, a, cmd, now).notes[c].drift, look, t) ==>
              HiddenAfter(w, roomId, Act(a, cmd, now), c, look, t, hidden)
  {
    var s := w.sys.conns[a].session;
    if Wrong(ActStep(w, roomId, a, cmd, now).notes[c].drift, look, t) {
      NoteHidesDrift(w.notes[c], w.sys.room, s, roomId, cmd, now,
                     MessagesFor(w.sys, React(w.sys.room, s, roomId, cmd, now), a, c), look, t);
    }
  }

  lemma NoteHidesDrift(n: Note, room: Option<RoomData>, s: Sid, roomId: string, cmd: Command, now: Time,
                       ms: seq<Message>, look: Look, t: Sid)
    requires var after := React(room, s, roomId, cmd, now).room;
             Wrong(NoteAfter(n, ms, room, s, cmd, after).drift, look, t)
    ensures var after := React(room, s, roomId, cmd, now).room;
            && !HasState(ms)
            && (if room.Some? && after.Some?
                then Hides(room.value, cmd, after.value, look, t)
                     || (Wrong(n.drift, look, t) && !Tells(room.value, s, cmd, after.value, look, t))
                else Wrong(n.drift, look, t))
  {
    var after := React(room, s, roomId, cmd, now).room;
    if room.Some? && after.Some? && !HasState(ms) {
      DriftIsHidden(room.value, s, roomId, cmd, now, after.value, n.drift, look, t);
    }
  }

  lemma StepHidesDrift(w: World, roomId: string, e: WorldEvent, c: ClientId, look: Look, t: Sid, hidden: bool)
    requires SameClients(w) && (c in w.notes && Wrong(w.notes[c].drift, look, t) ==> hidden)
    ensures var w' := Step(w, roomId, e);
            c in w'.notes && Wrong(w'.notes[c].drift, look, t) ==> HiddenAfter(w, roomId, e, c, look, t, hidden)
  {
    if e.Act? && e.client in w.sys.conns && c in w.notes {
      ActHidesDrift(w, roomId, e.client, e.cmd, e.at, c, look, t, hidden);
    }
  }

  /** On every run, whatever a client's drift records was hidden from it. */
  lemma {:induction false} DriftWasHidden(roomId: string, events: seq<WorldEvent>, c: ClientId, look: Look, t: Sid)
    ensures var w := RunWorld(roomId, events);
            c in w.notes && Wrong(w.notes[c].drift, look, t) ==> Hidden(roomId, events, c, look, t)
  {
    if events == [] {
    } else {
      var earlier, e := events[..|events| - 1], events[|events| - 1];
      DriftWasHidden(roomId, earlier, c, look, t);
      StepHidesDrift(RunWorld(roomId, earlier), roomId, e, c, look, t, Hidden(roomId, earlier, c, look, t));
    }
  }

  // ----- what is hidden has a cause -----

  /** The event hides a change of the look of `t`. */
  ghost predicate HidesNow(w: World, roomId: string, e: WorldEvent, look: Look, t: Sid) {
    && e.Act? && e.client in w.sys.conns && w.sys.room.Some?
    && var after := React(w.sys.room, w.sys.conns[e.client].session, roomId, e.cmd, e.at).room;
       after.Some? && Hides(w.sys.room.value, e.cmd, after.value, look, t)
  }

  /** The event queues a room_state for client `c`. */
  ghost predicate LoadsNow(w: World, roomId: string, e: WorldEvent, c: ClientId) {
    && e.Act? && e.client in w.sys.conns
    && HasState(MessagesFor(w.sys, React(w.sys.room, w.sys.conns[e.client].session, roomId, e.cmd, e.at), e.client, c))
  }

  /** For each event of the run, whether it hides a change of the look of `t`. */
  ghost function Hiding(roomId: string, events: seq<WorldEvent>, look: Look, t: Sid): (flags: seq<bool>)
    ensures |flags| == |events|
  {
    if events == [] then []
    else
      var earlier, e := events[..|events| - 1], events[|events| - 1];
      Hiding(roomId, earlier, look, t) + [HidesNow(RunWorld(roomId, earlier), roomId, e, look, t)]
  }

  /** For each event of the run, whether it queues a room_state for client `c`. */
  ghost function Loading(roomId: string, events: seq<WorldEvent>, c: ClientId): (flags: seq<bool>)
    ensures |flags| == |events|
  {
    if events == [] then []
    else
      var earlier, e := events[..|events| - 1], events[|events| - 1];
      Loading(roomId, earlier, c) + [LoadsNow(RunWorld(roomId, earlier), roomId, e, c)]
  }

  /** Flag number `k` of `hiding` is set, and no flag of `loading` from there on. */
  ghost predicate SetSince(hiding: seq<bool>, loading: seq<bool>, k: int) {
    |hiding| == |loading| && 0 <= k < |hiding| && hiding[k] && forall j :: k <= j < |loading| ==> !loading[j]
  }

  lemma HiddenNow(w: World, roomId: string, e: WorldEvent, c: ClientId, look: Look, t: Sid, hidden: bool)
    requires SameClients(w) && HiddenAfter(w, roomId, e, c, look, t, hidden)
    ensures !LoadsNow(w, roomId, e, c) && (HidesNow(w, roomId, e, look, t) || hidden)
  {
  }

  lemma SetSinceGoesOn(hiding: seq<bool>, loading: seq<bool>, hides: bool)
    requires |hiding| == |loading| && (hides || exists k :: SetSince(hiding, loading, k))
    ensures exists k :: SetSince(hiding + [hides], loading + [false], k)
  {
    if hides {
      assert SetSince(hiding + [hides], loading + [false], |hiding|);
    } else {
      var k :| SetSince(hiding, loading, k);
      assert SetSince(hiding + [hides], loading + [false], k);
    }
  }

  /** What is hidden from a client was hidden by an event since which no room_state was queued for the client. */
  lemma {:induction false} HiddenHasCause(roomId: string, events: seq<WorldEvent>, c: ClientId, look: Look, t: Sid)
    requires Hidden(roomId, events, c, look, t)
    ensures exists k :: SetSince(Hiding(roomId, events, look, t), Loading(roomId, events, c), k)
  {
    var earlier, e := events[..|events| - 1], events[|events| - 1];
    HiddenNow(RunWorld(roomId, earlier), roomId, e, c, look, t, Hidden(roomId, earlier, c, look, t));
    if Hidden(roomId, earlier, c, look, t) {
      HiddenHasCause(roomId, earlier, c, look, t);
    }
    var hides := HidesNow(RunWorld(roomId, earlier), roomId, e, look, t);
    SetSinceGoesOn(Hiding(roomId, earlier, look, t), Loading(roomId, earlier, c), hides);
    assert Hiding(roomId, events, look, t) == Hiding(roomId, earlier, look, t) + [hides];
    assert Loading(roomId, events, c) == Loading(roomId, earlier, c) + [false];
  }

  /** No event of the run hides a change of the look of `t`. */
  ghost predicate NeverHides(roomId: string, events: seq<WorldEvent>, look: Look, t: Sid) {
    forall k :: 0 <= k < |events| ==> !Hiding(roomId, events, look, t)[k]
  }

  lemma NeverHidesHidesNothing(roomId: string, events: seq<WorldEvent>, look: Look, t: Sid)
    requires NeverHides(roomId, events, look, t)
    ensures forall c :: !Hidden(roomId, events, c, look, t)
  {
    forall c
      ensures !Hidden(roomId, events, c, look, t)
    {
      if Hidden(roomId, events, c, look, t) {
        HiddenHasCause(roomId, events, c, look, t);
      }
    }
  }

  // ----- what up-to-date clients show -----

  /** Whatever client `c` shows of a participant is right unless a change of it was hidden from the client. */
  ghost predicate RightUnlessHidden(r: Replica, seats: Seats, roomId: string, events: seq<WorldEvent>, c: ClientId) {
    && r.room.Some?
    && var ps := r.room.value.participants;
       forall i, look :: 0 <= i < |ps| && !Hidden(roomId, events, c, look, ps[i].sessionId) ==>
         ps[i].sessionId in seats && ShownRight(ps[i], seats[ps[i].sessionId], look)
  }

  lemma AgreeingIsRight(p: Peer, seat: Seat, d: Drift, look: Look)
    requires Agrees(p, seat, d) && !Wrong(d, look, p.sessionId)
    ensures ShownRight(p, seat, look)
  {
  }

  lemma CopyIsRightUnlessHidden(roomId: string, events: seq<WorldEvent>, c: ClientId, r: Replica, room: RoomData)
    requires c in RunWorld(roomId, events).notes
    requires Mirrors(r, room, RunWorld(roomId, events).notes[c].drift)
    ensures RightUnlessHidden(r, room.seats, roomId, events, c)
  {
    var ps, d := r.room.value.participants, RunWorld(roomId, events).notes[c].drift;
    forall i, look | 0 <= i < |ps| && !Hidden(roomId, events, c, look, ps[i].sessionId)
      ensures ps[i].sessionId in room.seats && ShownRight(ps[i], room.seats[ps[i].sessionId], look)
    {
      DriftWasHidden(roomId, events, c, look, ps[i].sessionId);
      AgreeingIsRight(ps[i], room.seats[ps[i].sessionId], d, look);
    }
  }

  /** The entry of `t`, in every up-to-date client's settled copy, shows that look rightly. */
  ghost predicate EveryoneShowsRight(w: World, look: Look, t: Sid)
    requires SameClients(w)
  {
    forall c :: c in w.sys.conns && UpToDate(w, c) ==>
      && w.sys.room.Some? && Settled(w, c).room.Some?
      && EntryShowsRight(Settled(w, c).room.value.participants, w.sys.room.value.seats, look, t)
  }

  ghost predicate EntryShowsRight(ps: seq<Peer>, seats: Seats, look: Look, t: Sid) {
    forall i :: 0 <= i < |ps| && ps[i].sessionId == t ==> t in seats && ShownRight(ps[i], seats[t], look)
  }

  /** On orderly runs on which a participant never rejoins under another name, every up-to-date client shows the
      participant's name; likewise the role; and the vote flag if the participant never becomes an observer while
      holding a vote. */
  lemma {:induction false} SteadyLooksAreShown(roomId: string, events: seq<WorldEvent>, look: Look, t: Sid)
    requires Orderly(roomId, events) && NeverHides(roomId, events, look, t)
    ensures EveryoneShowsRight(RunWorld(roomId, events), look, t)
  {
    var w := RunWorld(roomId, events);
    RunKeepsWorldOk(roomId, events);
    NeverHidesHidesNothing(roomId, events, look, t);
    forall c | c in w.sys.conns && UpToDate(w, c)
      ensures w.sys.room.Some? && Settled(w, c).room.Some?
      ensures EntryShowsRight(Settled(w, c).room.value.participants, w.sys.room.value.seats, look, t)
    {
      assert CoherentRuns.Follows(w, c);
      CopyIsRightUnlessHidden(roomId, events, c, Settled(w, c), w.sys.room.value);
    }
  }
}
