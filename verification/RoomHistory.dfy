/** Properties of whole runs of room operations: the vote ledger, the frozen result, and the lazy timer. */
module RoomHistory {
  import opened Common
  import opened Names
  import opened RoomTypes
  import opened RoomSpec
  import Stats

  // ----- the vote ledger -----

  /** Event `e` in room `r` is a vote (possibly a retraction) by `s` that the room accepts. */
  predicate Votes(r: RoomData, e: Event, s: Sid) {
    e.op.OpVote? && e.op.sid == s && Perform(r, e).outcome.Done?
  }

  /** Event `e` in room `r` ends whatever vote `s` had: a first join, a leave, a switch to observer (also
      by rejoining as one), the reset of the round, or the clearing of the room. */
  predicate EndsVote(r: RoomData, e: Event, s: Sid) {
    Perform(r, e).outcome.Done? &&
    match e.op
    case OpJoin(sid, _, role) => sid == s && (s !in r.seats || JoinRole(role) == Some(Observer))
    case OpLeave(sid) => sid == s
    case OpRole(sid, role) => sid == s && role == RoleField(Observer)
    case OpNewRound => true
    case OpClear => true
    case _ => false
  }

  /** The run's event number `i` is an accepted vote of `v` by `s`, and nothing after it is another
      accepted vote by `s` or ends the vote. */
  ghost predicate StandingVote(start: RoomData, events: seq<Event>, s: Sid, v: Card, i: int) {
    && 0 <= i < |events|
    && Votes(Run(start, events[..i]), events[i], s) && events[i].op.value == v
    && forall j :: i < j < |events| ==>
         !Votes(Run(start, events[..j]), events[j], s) && !EndsVote(Run(start, events[..j]), events[j], s)
  }

  lemma VoteAfterEvent(r: RoomData, e: Event, s: Sid)
    requires s in Perform(r, e).room.seats
    ensures var p := Perform(r, e).room.seats[s];
            if Votes(r, e, s) then p.vote == e.op.value
            else if EndsVote(r, e, s) then p.vote == Blank
            else s in r.seats && p.vote == r.seats[s].vote
  {
  }

  lemma PrefixRun(start: RoomData, events: seq<Event>, j: int)
    requires 0 <= j < |events|
    ensures Run(start, events[..|events| - 1][..j]) == Run(start, events[..j])
  {
    assert events[..|events| - 1][..j] == events[..j];
  }

  lemma StandingVoteExtends(start: RoomData, events: seq<Event>, s: Sid, v: Card, i: int)
    requires events != []
    requires StandingVote(start, events[..|events| - 1], s, v, i)
    requires var r := Run(start, events[..|events| - 1]);
             !Votes(r, events[|events| - 1], s) && !EndsVote(r, events[|events| - 1], s)
    ensures StandingVote(start, events, s, v, i)
  {
    forall j | 0 <= j < |events|
      ensures Run(start, events[..|events| - 1][..j]) == Run(start, events[..j])
    {
      PrefixRun(start, events, j);
    }
    var init := events[..|events| - 1];
    forall j | i < j < |events|
      ensures !Votes(Run(start, events[..j]), events[j], s) && !EndsVote(Run(start, events[..j]), events[j], s)
    {
      if j < |init| {
        assert init[j] == events[j];
      }
    }
  }

  lemma StandingVoteShrinks(start: RoomData, events: seq<Event>, s: Sid, v: Card, i: int)
    requires events != [] && i < |events| - 1
    requires StandingVote(start, events, s, v, i)
    ensures StandingVote(start, events[..|events| - 1], s, v, i)
  {
    var init := events[..|events| - 1];
    forall j | 0 <= j < |init|
      ensures Run(start, init[..j]) == Run(start, events[..j]) && init[j] == events[j]
    {
      PrefixRun(start, events, j);
    }
  }

  /** A seated participant holds the card `v` exactly when the history has a standing vote of `v`. */
  lemma {:induction false} VoteLedger(start: RoomData, events: seq<Event>, s: Sid, v: Card)
    requires start.seats == map[] && v != Blank
    requires s in Run(start, events).seats
    ensures Run(start, events).seats[s].vote == v <==> exists i :: StandingVote(start, events, s, v, i)
  {
    if events == [] {
    } else {
      var n := |events| - 1;
      var init, e := events[..n], events[n];
      var r := Run(start, init);
      VoteAfterEvent(r, e, s);
      if Run(start, events).seats[s].vote == v {
        if Votes(r, e, s) {
          assert StandingVote(start, events, s, v, n);
        } else {
          VoteLedger(start, init, s, v);
          var i :| StandingVote(start, init, s, v, i);
          StandingVoteExtends(start, events, s, v, i);
        }
      }
      if i :| StandingVote(start, events, s, v, i) {
        if i < n {
          StandingVoteShrinks(start, events, s, v, i);
          VoteLedger(start, init, s, v);
        }
      }
    }
  }

  lemma RevealListsCards(seats: Seats)
    requires Keyed(seats)
    ensures forall e :: e in Stats.Summarize(Stats.Ballot(seats)).votes <==>
              && e.sessionId in seats
              && seats[e.sessionId].role == Voter && seats[e.sessionId].name == e.name
              && e.value != Blank && seats[e.sessionId].vote == e.value
  {
    Stats.BallotIsSorted(seats);
  }

  /** What a reveal lists: every current voter whose history has a standing vote, with that vote. */
  lemma RevealListsTheLedger(start: RoomData, events: seq<Event>)
    requires start.seats == map[] && RoomOk(start)
    ensures var r := Run(start, events);
            forall e :: e in Stats.Summarize(Stats.Ballot(r.seats)).votes <==>
              && e.sessionId in r.seats
              && r.seats[e.sessionId].role == Voter && r.seats[e.sessionId].name == e.name
              && e.value != Blank
              && exists i :: StandingVote(start, events, e.sessionId, e.value, i)
  {
    var r := Run(start, events);
    RunKeepsRoomOk(start, events);
    RoomIsKeyed(r);
    RevealListsCards(r.seats);
    forall e: VoteEntry | e.sessionId in r.seats && e.value != Blank
      ensures r.seats[e.sessionId].vote == e.value <==>
              exists i :: StandingVote(start, events, e.sessionId, e.value, i)
    {
      VoteLedger(start, events, e.sessionId, e.value);
    }
  }

  // ----- the frozen result -----

  /** The (session, vote) pairs a result computed now would list. */
  ghost function VotePairs(seats: Seats): set<(Sid, Card)> {
    set s | s in seats && Stats.Counts(seats[s]) :: (s, seats[s].vote)
  }

  /** Event `e` asks for `s` to leave or to become an observer. */
  predicate Withdraws(e: Event, s: Sid) {
    e.op == OpLeave(s) || e.op == OpRole(s, RoleField(Observer))
    || (e.op.OpJoin? && e.op.sid == s && e.op.role == RoleField(Observer))
  }

  lemma RevealedPairsShrink(r: RoomData, e: Event)
    requires RoomOk(r) && r.phase == PhaseReveal && Perform(r, e).room.phase == PhaseReveal
    ensures VotePairs(Perform(r, e).room.seats) <= VotePairs(r.seats)
    ensures forall p :: p in VotePairs(r.seats) && p !in VotePairs(Perform(r, e).room.seats) ==> Withdraws(e, p.0)
  {
    var r' := Perform(r, e).room;
    forall s | s in r'.seats && Stats.Counts(r'.seats[s])
      ensures (s, r'.seats[s].vote) in VotePairs(r.seats)
    {
      VoteAfterEvent(r, e, s);
      assert SeatOk(s, r.seats[s]);
    }
    forall s | s in r.seats && Stats.Counts(r.seats[s]) && !Withdraws(e, s)
      ensures (s, r.seats[s].vote) in VotePairs(r'.seats)
    {
      assert s in r'.seats && Stats.Counts(r'.seats[s]) && r'.seats[s].vote == r.seats[s].vote;
    }
  }

  /** While a result stays revealed, the votes behind it only shrink, and every vote that disappears was
      withdrawn by its owner leaving or becoming an observer. */
  lemma {:induction false} FrozenResult(start: RoomData, events: seq<Event>)
    requires RoomOk(start)
    requires forall k :: 0 <= k <= |events| ==> Run(start, events[..k]).phase == PhaseReveal
    ensures VotePairs(Run(start, events).seats) <= VotePairs(start.seats)
    ensures forall p :: p in VotePairs(start.seats) && p !in VotePairs(Run(start, events).seats) ==>
                          exists i :: 0 <= i < |events| && Withdraws(events[i], p.0)
  {
    assert events[..|events|] == events;
    if events == [] {
    } else {
      var init, e := events[..|events| - 1], events[|events| - 1];
      forall k | 0 <= k <= |init|
        ensures Run(start, init[..k]).phase == PhaseReveal
      {
        assert init[..k] == events[..k];
      }
      assert events[..0] == [];
      FrozenResult(start, init);
      RunKeepsRoomOk(start, init);
      RevealedPairsShrink(Run(start, init), e);
      forall p | p in VotePairs(start.seats) && p !in VotePairs(Run(start, events).seats)
        ensures exists i :: 0 <= i < |events| && Withdraws(events[i], p.0)
      {
        if p in VotePairs(Run(start, init).seats) {
          assert Withdraws(events[|events| - 1], p.0);
        } else {
          var i :| 0 <= i < |init| && Withdraws(init[i], p.0);
          assert Withdraws(events[i], p.0);
        }
      }
    }
  }

  // ----- the lazy timer -----

  /** A timer without a stored state: a duration and, once started, the instant it runs out. */
  datatype Alarm = Alarm(phase: Phase, duration: int, deadline: Option<Time>)

  /** The eager machine.  Reading the timer is not among the things it reacts to. */
  function Ring(a: Alarm, e: Event): Alarm {
    match e.op
    case OpReveal => a.(phase := PhaseReveal)
    case OpNewRound => if a.phase == PhaseReveal then a.(phase := PhaseVoting, deadline := None) else a
    case OpClear => Alarm(PhaseVoting, DEFAULT_TIMER_DURATION, None)
    case OpSetDuration(d) =>
      if a.deadline.None? && MIN_TIMER_DURATION <= d <= MAX_TIMER_DURATION then a.(duration := d) else a
    case OpStartTimer => if a.deadline.None? then a.(deadline := Some(e.at + a.duration * SECOND)) else a
    case OpResetTimer => a.(deadline := None)
    case _ => a
  }

  function RunAlarm(a: Alarm, events: seq<Event>): Alarm {
    if events == [] then a else Ring(RunAlarm(a, events[..|events| - 1]), events[|events| - 1])
  }

  /** What the eager machine shows: expired from the deadline on, before it the seconds left, rounded up. */
  function Shows(a: Alarm, now: Time): TimerSnapshot {
    if a.deadline.None? then TimerSnapshot(a.duration, TimerIdle, None, a.duration)
    else
      var startedAt := Some(a.deadline.value - a.duration * SECOND);
      if now >= a.deadline.value then TimerSnapshot(a.duration, TimerExpired, startedAt, 0)
      else TimerSnapshot(a.duration, TimerRunning, startedAt, (a.deadline.value - now + SECOND - 1) / SECOND)
  }

  function AlarmOf(r: RoomData): Alarm {
    Alarm(r.phase, r.timer.duration,
          if r.timer.startedAt.Some? then Some(r.timer.startedAt.value + r.timer.duration * SECOND) else None)
  }

  /** The stored timer state is consistent with the clock: nothing starts in the future, and only a timer
      that has run out is stored as expired. */
  predicate Faithful(t: Timer, now: Time) {
    && TimerOk(t)
    && (t.startedAt.Some? ==> t.startedAt.value <= now)
    && (t.state == TimerExpired ==> now >= t.startedAt.value + t.duration * SECOND)
  }

  /** Events carry non-decreasing times, none before `since` and none after `until`. */
  ghost predicate Timely(events: seq<Event>, since: Time, until: Time) {
    && since <= until
    && (forall i :: 0 <= i < |events| ==> since <= events[i].at <= until)
    && (forall i, j :: 0 <= i < j < |events| ==> events[i].at <= events[j].at)
  }

  lemma WholeSecondsUpTo(elapsed: Time, duration: int)
    requires elapsed >= 0
    ensures duration - WholeSeconds(elapsed) <= 0 <==> elapsed >= duration * SECOND
    ensures elapsed < duration * SECOND ==>
              duration - WholeSeconds(elapsed) == (duration * SECOND - elapsed + SECOND - 1) / SECOND
  {
  }

  lemma ReadIsShow(r: RoomData, now: Time)
    requires Faithful(r.timer, now)
    ensures ReadTimer(r.timer, now).1 == Shows(AlarmOf(r), now)
    ensures 0 <= Shows(AlarmOf(r), now).remaining <= r.timer.duration
  {
    if r.timer.startedAt.Some? {
      WholeSecondsUpTo(now - r.timer.startedAt.value, r.timer.duration);
    }
  }

  lemma StaysFaithful(r: RoomData, e: Event, since: Time)
    requires Faithful(r.timer, since) && since <= e.at
    ensures Faithful(Perform(r, e).room.timer, e.at)
  {
    if e.op.OpTimerInfo? && r.timer.state == TimerRunning {
      WholeSecondsUpTo(e.at - r.timer.startedAt.value, r.timer.duration);
    }
  }

  lemma AlarmStep(r: RoomData, e: Event, since: Time)
    requires Faithful(r.timer, since) && since <= e.at
    ensures AlarmOf(Perform(r, e).room) == Ring(AlarmOf(r), e)
  {
    if e.op.OpTimerInfo? && r.timer.state == TimerRunning {
      WholeSecondsUpTo(e.at - r.timer.startedAt.value, r.timer.duration);
    }
  }

  /** On every run, every snapshot of the lazy timer is the snapshot of a timer that expires exactly at its
      deadline, with the remaining seconds between zero and a duration of 30 to 600. */
  lemma {:induction false} LazyTimerIsEager(start: RoomData, events: seq<Event>, since: Time, now: Time)
    requires Faithful(start.timer, since) && Timely(events, since, now)
    ensures AlarmOf(Run(start, events)) == RunAlarm(AlarmOf(start), events)
    ensures Faithful(Run(start, events).timer, now)
    ensures var shown := ReadTimer(Run(start, events).timer, now).1;
            && shown == Shows(RunAlarm(AlarmOf(start), events), now)
            && 0 <= shown.remaining <= shown.duration
            && 30 <= shown.duration <= 600
    decreases |events|
  {
    if events == [] {
    } else {
      var init, e := events[..|events| - 1], events[|events| - 1];
      LazyTimerIsEager(start, init, since, e.at);
      AlarmStep(Run(start, init), e, e.at);
      StaysFaithful(Run(start, init), e, e.at);
    }
    ReadIsShow(Run(start, events), now);
  }

  /** The run with every reading of the timer left out. */
  function WithoutReads(events: seq<Event>): seq<Event> {
    if events == [] then []
    else
      var init, e := WithoutReads(events[..|events| - 1]), events[|events| - 1];
      if e.op.OpTimerInfo? then init else init + [e]
  }

  /** Two rooms that differ at most in whether a started timer is already stored as expired. */
  predicate SameButExpiry(a: RoomData, b: RoomData) {
    && a.(timer := b.timer) == b
    && a.timer.(state := b.timer.state) == b.timer
    && (a.timer.state == TimerIdle <==> b.timer.state == TimerIdle)
  }

  /** Operations that neither set nor consult the timer. */
  predicate IgnoresTimer(op: RoomOp) {
    !op.OpSetDuration? && !op.OpStartTimer? && !op.OpResetTimer? && !op.OpTimerInfo?
    && !op.OpNewRound? && !op.OpClear?
  }

  lemma TimerRidesAlongJoin(r: RoomData, t: Timer, sid: Sid, name: Text, role: RoleField, now: Time)
    ensures Join(r.(timer := t), sid, name, role, now).room == Join(r, sid, name, role, now).room.(timer := t)
    ensures Join(r.(timer := t), sid, name, role, now).outcome == Join(r, sid, name, role, now).outcome
    ensures Join(r, sid, name, role, now).room.timer == r.timer
  {
  }

  lemma TimerRidesAlongSeat(r: RoomData, t: Timer, e: Event)
    requires e.op.OpLeave? || e.op.OpRole? || e.op.OpVote?
    ensures Perform(r.(timer := t), e).room == Perform(r, e).room.(timer := t)
    ensures Perform(r.(timer := t), e).outcome == Perform(r, e).outcome
    ensures Perform(r, e).room.timer == r.timer
  {
  }

  lemma TimerRidesAlongOther(r: RoomData, t: Timer, e: Event)
    requires e.op.OpReveal? || e.op.OpName? || e.op.OpPresence? || e.op.OpDisconnect? || e.op.OpPing?
    ensures Perform(r.(timer := t), e).room == Perform(r, e).room.(timer := t)
    ensures Perform(r.(timer := t), e).outcome == Perform(r, e).outcome
    ensures Perform(r, e).room.timer == r.timer
  {
  }

  lemma TimerRidesAlong(r: RoomData, t: Timer, e: Event)
    requires IgnoresTimer(e.op)
    ensures Perform(r.(timer := t), e).room == Perform(r, e).room.(timer := t)
    ensures Perform(r.(timer := t), e).outcome == Perform(r, e).outcome
    ensures Perform(r, e).room.timer == r.timer
  {
    match e.op {
      case OpJoin(sid, name, role) => TimerRidesAlongJoin(r, t, sid, name, role, e.at);
      case OpLeave(_) => TimerRidesAlongSeat(r, t, e);
      case OpRole(_, _) => TimerRidesAlongSeat(r, t, e);
      case OpVote(_, _) => TimerRidesAlongSeat(r, t, e);
      case _ => TimerRidesAlongOther(r, t, e);
    }
  }

  lemma ReadsAreInvisibleToOneEvent(a: RoomData, b: RoomData, e: Event)
    requires SameButExpiry(a, b)
    ensures SameButExpiry(Perform(a, e).room, Perform(b, e).room)
    ensures Perform(a, e).outcome == Perform(b, e).outcome
    ensures e.op.OpTimerInfo? ==> SameButExpiry(Perform(a, e).room, b)
  {
    assert b == a.(timer := b.timer);
    if IgnoresTimer(e.op) {
      TimerRidesAlong(a, b.timer, e);
    }
  }

  /** Two runs that differ only in extra readings of the timer leave rooms that no later operation and no
      later snapshot can tell apart. */
  lemma {:induction false} ExtraReadsAreInvisible(start: RoomData, events: seq<Event>)
    ensures SameButExpiry(Run(start, events), Run(start, WithoutReads(events)))
  {
    if events == [] {
    } else {
      var init, e := events[..|events| - 1], events[|events| - 1];
      ExtraReadsAreInvisible(start, init);
      ReadsAreInvisibleToOneEvent(Run(start, init), Run(start, WithoutReads(init)), e);
      if !e.op.OpTimerInfo? {
        assert WithoutReads(events)[..|WithoutReads(events)| - 1] == WithoutReads(init);
      }
    }
  }

  lemma {:induction false} ReadsDoNotRing(a: Alarm, events: seq<Event>)
    ensures RunAlarm(a, events) == RunAlarm(a, WithoutReads(events))
  {
    if events == [] {
    } else {
      ReadsDoNotRing(a, events[..|events| - 1]);
      var init := WithoutReads(events[..|events| - 1]);
      assert (init + [events[|events| - 1]])[..|init|] == init;
    }
  }

  /** Readings inserted anywhere change no later snapshot and no later outcome. */
  lemma ReadingChangesNothing(start: RoomData, events: seq<Event>, other: seq<Event>, since: Time, e: Event)
    requires Faithful(start.timer, since) && Timely(events, since, e.at) && Timely(other, since, e.at)
    requires WithoutReads(events) == WithoutReads(other)
    ensures var a, b := Run(start, events), Run(start, other);
            && ReadTimer(a.timer, e.at).1 == ReadTimer(b.timer, e.at).1
            && Perform(a, e).outcome == Perform(b, e).outcome
            && a.seats == b.seats && a.phase == b.phase && a.lastActivity == b.lastActivity
  {
    LazyTimerIsEager(start, events, since, e.at);
    LazyTimerIsEager(start, other, since, e.at);
    ReadsDoNotRing(AlarmOf(start), events);
    ReadsDoNotRing(AlarmOf(start), other);
    ExtraReadsAreInvisible(start, events);
    ExtraReadsAreInvisible(start, other);
    ReadsAreInvisibleToOneEvent(Run(start, events), Run(start, WithoutReads(events)), e);
    ReadsAreInvisibleToOneEvent(Run(start, other), Run(start, WithoutReads(events)), e);
  }
}
