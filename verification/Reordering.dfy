/** Which neighbouring messages may change places in a queue, when two handlers queue them in another order than
    they held the room lock (internal/server/ws.go, web/src/ws.ts). */
module Reordering {
  import opened Common
  import opened RoomTypes
  import opened Protocol
  import opened Replica

  datatype Aspect = OfVote | OfStatus | OfName | OfRole

  /** Messages that update one aspect of one participant. */
  predicate UpdatesEntry(m: Message) {
    m.VoteCast? || m.VoteRetracted? || m.PresenceChanged? || m.NameUpdated? || m.RoleUpdated?
  }

  function About(m: Message): (Sid, Aspect)
    requires UpdatesEntry(m)
  {
    match m
    case VoteCast(s) => (s, OfVote)
    case VoteRetracted(s) => (s, OfVote)
    case PresenceChanged(s, _) => (s, OfStatus)
    case NameUpdated(s, _) => (s, OfName)
    case RoleUpdated(s, _) => (s, OfRole)
  }

  function Updated(p: Peer, m: Message): Peer
    requires UpdatesEntry(m)
  {
    match m
    case VoteCast(_) => p.(hasVoted := true)
    case VoteRetracted(_) => p.(hasVoted := false)
    case PresenceChanged(_, status) => p.(status := status)
    case NameUpdated(_, name) => p.(userName := name)
    case RoleUpdated(_, role) => p.(role := role)
  }

  lemma UpdateIsPointwise(r: Replica, m: Message)
    requires UpdatesEntry(m) && r.room.Some?
    ensures var v, v' := r.room.value, Apply(r, m).room.value;
            && Apply(r, m) == r.(room := Some(v.(participants := v'.participants)))
            && |v'.participants| == |v.participants|
            && forall i :: 0 <= i < |v.participants| ==>
                 v'.participants[i]
                 == if v.participants[i].sessionId == About(m).0 then Updated(v.participants[i], m)
                    else v.participants[i]
  {
  }

  /** A copy that lists the participant a message is about. */
  ghost predicate Concerns(r: Replica, m: Message) {
    UpdatesEntry(m) && r.room.Some? && Lists(r.room.value.participants, About(m).0)
  }

  lemma DifferentAspectsCommute(r: Replica, m: Message, n: Message)
    requires UpdatesEntry(m) && UpdatesEntry(n) && (About(m) != About(n) || m == n)
    ensures Apply(Apply(r, m), n) == Apply(Apply(r, n), m)
  {
    if r.room.Some? {
      UpdateIsPointwise(r, m);
      UpdateIsPointwise(r, n);
      UpdateIsPointwise(Apply(r, m), n);
      UpdateIsPointwise(Apply(r, n), m);
      assert Apply(Apply(r, m), n).room.value.participants == Apply(Apply(r, n), m).room.value.participants;
    }
  }

  lemma SameAspectDoesNotCommute(r: Replica, m: Message, n: Message)
    requires Concerns(r, m) && UpdatesEntry(n) && About(m) == About(n) && m != n
    ensures Apply(Apply(r, m), n) != Apply(Apply(r, n), m)
  {
    UpdateIsPointwise(r, m);
    UpdateIsPointwise(r, n);
    UpdateIsPointwise(Apply(r, m), n);
    UpdateIsPointwise(Apply(r, n), m);
    var ps := r.room.value.participants;
    var i :| 0 <= i < |ps| && ps[i].sessionId == About(m).0;
    assert Apply(Apply(r, m), n).room.value.participants[i] == Updated(Updated(ps[i], m), n);
    assert Apply(Apply(r, n), m).room.value.participants[i] == Updated(Updated(ps[i], n), m);
  }

  /** Two messages about a listed participant may change places exactly when they are about different aspects or
      are the same message. */
  lemma EntryUpdatesCommuteIff(r: Replica, m: Message, n: Message)
    requires Concerns(r, m) && UpdatesEntry(n)
    ensures Apply(Apply(r, m), n) == Apply(Apply(r, n), m) <==> About(m) != About(n) || m == n
  {
    if About(m) != About(n) || m == n {
      DifferentAspectsCommute(r, m, n);
    } else {
      SameAspectDoesNotCommute(r, m, n);
    }
  }

  /** Neighbours that commute change places anywhere in a queue without changing what the client settles on. */
  lemma SwapSettlesTheSame(r: Replica, before: seq<Message>, m: Message, n: Message, rest: seq<Message>)
    requires UpdatesEntry(m) && UpdatesEntry(n) && (About(m) != About(n) || m == n)
    ensures ApplyAll(r, before + [m] + [n] + rest) == ApplyAll(r, before + [n] + [m] + rest)
  {
    ApplyAllConcat(r, before + [m] + [n], rest);
    ApplyAllConcat(r, before + [n] + [m], rest);
    ApplyLastTwo(r, before, m, n);
    ApplyLastTwo(r, before, n, m);
    DifferentAspectsCommute(ApplyAll(r, before), m, n);
  }

  lemma ApplyLastTwo(r: Replica, before: seq<Message>, m: Message, n: Message)
    ensures ApplyAll(r, before + [m] + [n]) == Apply(Apply(ApplyAll(r, before), m), n)
  {
    assert (before + [m] + [n])[..|before| + 1] == before + [m];
    assert (before + [m])[..|before|] == before;
  }

  /** Commands that tell at most one aspect of the sender's own seat. */
  predicate TellsOwnSeat(cmd: Command) { cmd.Vote? || cmd.Presence? || cmd.UpdateName? || cmd.UpdateRole? }

  lemma OwnSeatMessages(room: RoomData, s: Sid, roomId: string, cmd: Command, now: Time)
    requires TellsOwnSeat(cmd)
    ensures var ms := React(Some(room), s, roomId, cmd, now).toOthers;
            ms == [] || (|ms| == 1 && UpdatesEntry(ms[0]) && About(ms[0]).0 == s)
  {
  }

  /** The broadcasts of two such commands from different sessions may reach a queue in either order. */
  lemma OwnSeatBroadcastsReorder(room1: RoomData, s1: Sid, cmd1: Command, now1: Time, room2: RoomData, s2: Sid,
                                 cmd2: Command, now2: Time, roomId: string, r: Replica, before: seq<Message>,
                                 rest: seq<Message>)
    requires TellsOwnSeat(cmd1) && TellsOwnSeat(cmd2) && s1 != s2
    ensures var ms := React(Some(room1), s1, roomId, cmd1, now1).toOthers;
            var ns := React(Some(room2), s2, roomId, cmd2, now2).toOthers;
            ApplyAll(r, before + ms + ns + rest) == ApplyAll(r, before + ns + ms + rest)
  {
    var ms := React(Some(room1), s1, roomId, cmd1, now1).toOthers;
    var ns := React(Some(room2), s2, roomId, cmd2, now2).toOthers;
    OwnSeatMessages(room1, s1, roomId, cmd1, now1);
    OwnSeatMessages(room2, s2, roomId, cmd2, now2);
    if ms == [] || ns == [] {
      assert before + ms + ns == before + ns + ms;
    } else {
      assert ms == [ms[0]] && ns == [ns[0]];
      SwapSettlesTheSame(r, before, ms[0], ns[0], rest);
    }
  }
}
