/** Increasing join times make a run orderly. */
module JoinTimes {
  import opened Common
  import opened RoomTypes
  import RoomSpec
  import opened Protocol
  import opened Runs
  import opened CoherentRuns

  predicate IsJoin(e: WorldEvent) { e.Act? && e.cmd.Join? }

  predicate Seated(room: Option<RoomData>, s: Sid) { room.Some? && s in room.value.seats }

  /** The event is a join that seats somebody who was not seated. */
  ghost predicate SeatsSomebody(w: World, roomId: string, e: WorldEvent)
    requires SameClients(w)
  {
    IsJoin(e) && !Seated(w.sys.room, e.cmd.sid) && Seated(Step(w, roomId, e).sys.room, e.cmd.sid)
  }

  ghost predicate SeatsAt(roomId: string, events: seq<WorldEvent>, i: int) {
    0 <= i < |events| && SeatsSomebody(RunWorld(roomId, events[..i]), roomId, events[i])
  }

  /** No two participants are seated at the same instant, and the clock goes on. */
  ghost predicate SeatingTimesIncrease(roomId: string, events: seq<WorldEvent>) {
    forall i, j :: i < j && SeatsAt(roomId, events, i) && SeatsAt(roomId, events, j) ==> events[i].at < events[j].at
  }

  /** A condition on the events alone: no two joins are handled at the same instant, and the clock goes on. */
  predicate JoinTimesIncrease(events: seq<WorldEvent>) {
    forall i, j :: 0 <= i < j < |events| && IsJoin(events[i]) && IsJoin(events[j]) ==> events[i].at < events[j].at
  }

  ghost predicate SeatedAt(roomId: string, events: seq<WorldEvent>, at: Time) {
    exists i :: SeatsAt(roomId, events, i) && events[i].at == at
  }

  /** Everybody seated has as join time the time of an event of the run that seated somebody. */
  ghost predicate SeatedDuring(room: Option<RoomData>, roomId: string, events: seq<WorldEvent>) {
    room.Some? ==> forall s :: s in room.value.seats ==> SeatedAt(roomId, events, room.value.seats[s].joinedAt)
  }

  lemma SeatsAtPrefix(roomId: string, events: seq<WorldEvent>, k: nat, i: int)
    requires 0 <= i < k <= |events|
    ensures SeatsAt(roomId, events[..k], i) == SeatsAt(roomId, events, i) && events[..k][i] == events[i]
  {
    assert events[..k][..i] == events[..i];
  }

  lemma SeatedAtExtends(roomId: string, events: seq<WorldEvent>, e: WorldEvent, at: Time)
    requires SeatedAt(roomId, events, at)
    ensures SeatedAt(roomId, events + [e], at)
  {
    var i :| SeatsAt(roomId, events, i) && events[i].at == at;
    assert (events + [e])[..|events|] == events;
    SeatsAtPrefix(roomId, events + [e], |events|, i);
  }

  lemma SeatedNow(roomId: string, events: seq<WorldEvent>, e: WorldEvent)
    requires SeatsSomebody(RunWorld(roomId, events), roomId, e)
    ensures SeatedAt(roomId, events + [e], e.at)
  {
    assert (events + [e])[..|events|] == events && (events + [e])[|events|] == e;
    assert SeatsAt(roomId, events + [e], |events|);
  }

  /** An operation leaves join times alone, but for the participant a first join seats. */
  lemma OperationKeepsJoinTimes(r: RoomData, e: RoomSpec.Event, s: Sid)
    requires s in RoomSpec.Perform(r, e).room.seats
    ensures var at := RoomSpec.Perform(r, e).room.seats[s].joinedAt;
            if s in r.seats then r.seats[s].joinedAt == at else e.op.OpJoin? && e.op.sid == s && e.at == at
  {
  }

  lemma HandlerKeepsJoinTimes(room: RoomData, session: Sid, roomId: string, cmd: Command, now: Time, s: Sid)
    requires var re := React(Some(room), session, roomId, cmd, now); re.room.Some? && s in re.room.value.seats
    ensures var at := React(Some(room), session, roomId, cmd, now).room.value.seats[s].joinedAt;
            if s in room.seats then room.seats[s].joinedAt == at else cmd.Join? && cmd.sid == s && now == at
  {
    ReactionFollows(room, session, roomId, cmd, now);
    var e := RoomSpec.Event(OpOf(session, cmd), now);
    if s in RoomSpec.Perform(room, e).room.seats {
      OperationKeepsJoinTimes(room, e, s);
    }
  }

  lemma ReactKeepsJoinTimes(room: Option<RoomData>, session: Sid, roomId: string, cmd: Command, now: Time, s: Sid)
    requires Seated(React(room, session, roomId, cmd, now).room, s)
    ensures var at := React(room, session, roomId, cmd, now).room.value.seats[s].joinedAt;
            if Seated(room, s) then room.value.seats[s].joinedAt == at else cmd.Join? && cmd.sid == s && now == at
  {
    if room.Some? {
      HandlerKeepsJoinTimes(room.value, session, roomId, cmd, now, s);
    } else {
      JoinCreatesRoom(session, roomId, cmd, now);
      var empty := RoomSpec.NewRoom(roomId, RoomNameFor(cmd), cmd.userName, now);
      HandlerKeepsJoinTimes(empty, session, roomId, cmd, now, s);
    }
  }

  /** The event seats somebody at its time, or leaves everybody with the join time they had. */
  ghost predicate KeepsJoinTimes(w: World, roomId: string, e: WorldEvent)
    requires SameClients(w)
  {
    var before, after := w.sys.room, Step(w, roomId, e).sys.room;
    after.Some? ==> forall s :: s in after.value.seats ==>
                      if Seated(before, s) then before.value.seats[s].joinedAt == after.value.seats[s].joinedAt
                      else SeatsSomebody(w, roomId, e) && e.at == after.value.seats[s].joinedAt
  }

  lemma ActKeepsJoinTimes(w: World, roomId: string, c: ClientId, cmd: Command, now: Time)
    requires SameClients(w) && c in w.sys.conns
    ensures KeepsJoinTimes(w, roomId, Act(c, cmd, now))
  {
    var session := w.sys.conns[c].session;
    var re := React(w.sys.room, session, roomId, cmd, now);
    if re.room.Some? {
      forall s | s in re.room.value.seats
        ensures var at := re.room.value.seats[s].joinedAt;
                if Seated(w.sys.room, s) then w.sys.room.value.seats[s].joinedAt == at
                else cmd.Join? && cmd.sid == s && now == at
      {
        ReactKeepsJoinTimes(w.sys.room, session, roomId, cmd, now, s);
      }
    }
  }

  /** The other events seat nobody. */
  lemma OtherEventsSeatNobody(w: World, roomId: string, e: WorldEvent)
    requires SameClients(w) && !(e.Act? && e.client in w.sys.conns)
    ensures KeepsJoinTimes(w, roomId, e)
  {
  }

  lemma StepKeepsSeated(roomId: string, events: seq<WorldEvent>, e: WorldEvent)
    requires SeatedDuring(RunWorld(roomId, events).sys.room, roomId, events)
    ensures SeatedDuring(Step(RunWorld(roomId, events), roomId, e).sys.room, roomId, events + [e])
  {
    var w := RunWorld(roomId, events);
    if e.Act? && e.client in w.sys.conns {
      ActKeepsJoinTimes(w, roomId, e.client, e.cmd, e.at);
    } else {
      OtherEventsSeatNobody(w, roomId, e);
    }
    var after := Step(w, roomId, e).sys.room;
    if after.Some? {
      forall s | s in after.value.seats
        ensures SeatedAt(roomId, events + [e], after.value.seats[s].joinedAt)
      {
        if Seated(w.sys.room, s) {
          SeatedAtExtends(roomId, events, e, after.value.seats[s].joinedAt);
        } else {
          SeatedNow(roomId, events, e);
        }
      }
    }
  }

  /** On every run everybody seated has as join time the time of an event that seated somebody. */
  lemma {:induction false} SeatsWereJoined(roomId: string, events: seq<WorldEvent>)
    ensures SeatedDuring(RunWorld(roomId, events).sys.room, roomId, events)
  {
    if events == [] {
    } else {
      var earlier, e := events[..|events| - 1], events[|events| - 1];
      SeatsWereJoined(roomId, earlier);
      StepKeepsSeated(roomId, earlier, e);
      assert events == earlier + [e];
    }
  }

  lemma AdmittedIsSeated(w: World, roomId: string, e: WorldEvent)
    requires SameClients(w) && IsJoin(e) && e.client in w.sys.conns && w.sys.room.Some?
    requires Admits(w.sys.room.value, e.cmd) && e.cmd.sid !in w.sys.room.value.seats
    ensures SeatsSomebody(w, roomId, e)
  {
  }

  lemma OthersWereSeatedBefore(roomId: string, events: seq<WorldEvent>, k: nat, s: Sid)
    requires SeatingTimesIncrease(roomId, events) && SeatsAt(roomId, events, k)
    requires Seated(RunWorld(roomId, events[..k]).sys.room, s)
    ensures RunWorld(roomId, events[..k]).sys.room.value.seats[s].joinedAt < events[k].at
  {
    SeatsWereJoined(roomId, events[..k]);
    var at := RunWorld(roomId, events[..k]).sys.room.value.seats[s].joinedAt;
    var i :| SeatsAt(roomId, events[..k], i) && events[..k][i].at == at;
    SeatsAtPrefix(roomId, events, k, i);
  }

  lemma IncreasingSeatingArrivesLast(roomId: string, events: seq<WorldEvent>, k: nat)
    requires SeatingTimesIncrease(roomId, events) && k < |events|
    ensures OrderlyEvent(RunWorld(roomId, events[..k]), events[k])
  {
    var w, e := RunWorld(roomId, events[..k]), events[k];
    if IsJoin(e) && e.client in w.sys.conns && w.sys.room.Some? && Admits(w.sys.room.value, e.cmd)
       && e.cmd.sid !in w.sys.room.value.seats {
      AdmittedIsSeated(w, roomId, e);
      forall t | t in w.sys.room.value.seats
        ensures w.sys.room.value.seats[t].joinedAt < e.at
      {
        OthersWereSeatedBefore(roomId, events, k, t);
      }
    }
  }

  /** A run is orderly if participants are seated at increasing times. */
  lemma IncreasingSeatingIsOrderly(roomId: string, events: seq<WorldEvent>)
    requires SeatingTimesIncrease(roomId, events)
    ensures Orderly(roomId, events)
  {
    forall k: nat | k < |events|
      ensures OrderlyEvent(RunWorld(roomId, events[..k]), events[k])
    {
      IncreasingSeatingArrivesLast(roomId, events, k);
    }
  }

  /** And so, by the events alone, if joins come at increasing times. */
  lemma IncreasingJoinsAreOrderly(roomId: string, events: seq<WorldEvent>)
    requires JoinTimesIncrease(events)
    ensures SeatingTimesIncrease(roomId, events) && Orderly(roomId, events)
  {
    IncreasingSeatingIsOrderly(roomId, events);
  }
}
