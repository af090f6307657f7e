/** The browser's copy of the room and how each server message updates it (web/src/ws.ts, web/src/state.ts). */
module Replica {
  import opened Common
  import opened Names
  import opened RoomTypes
  import opened Protocol

  datatype Peer = Peer(sessionId: Sid, userName: Text, status: Status, hasVoted: bool, vote: Option<Card>, role: Role)

  datatype RoomView = RoomView(roomId: string, roomName: Text, createdBy: Text, phase: Phase,
                               participants: seq<Peer>, result: Option<RoundResult>)

  /** roomState.value and timerState.value; before the first room_state there is no room. */
  datatype Replica = Replica(room: Option<RoomView>, timer: TimerPayload)

  /** Looking a session up in the Map built from a vote list: a later entry replaces an earlier one. */
  function VoteOf(votes: seq<VoteEntry>, s: Sid): Option<Card> {
    if votes == [] then None
    else if votes[|votes| - 1].sessionId == s then Some(votes[|votes| - 1].value)
    else VoteOf(votes[..|votes| - 1], s)
  }

  function PeerOf(i: Info): Peer { Peer(i.sessionId, i.userName, i.status, i.hasVoted, None, i.role) }

  function PeersOf(infos: seq<Info>): seq<Peer> {
    seq(|infos|, i requires 0 <= i < |infos| => PeerOf(infos[i]))
  }

  function WithVotes(ps: seq<Peer>, votes: seq<VoteEntry>): seq<Peer> {
    seq(|ps|, i requires 0 <= i < |ps| => ps[i].(vote := VoteOf(votes, ps[i].sessionId)))
  }

  function ClearVotes(ps: seq<Peer>): seq<Peer> {
    seq(|ps|, i requires 0 <= i < |ps| => ps[i].(hasVoted := false, vote := None))
  }

  function Flagged(hasVoted: bool): Peer -> Peer { (p: Peer) => p.(hasVoted := hasVoted) }

  function AtStatus(status: Status): Peer -> Peer { (p: Peer) => p.(status := status) }

  function Named(userName: Text): Peer -> Peer { (p: Peer) => p.(userName := userName) }

  function InRole(role: Role): Peer -> Peer { (p: Peer) => p.(role := role) }

  /** Array.map with an update of the entries of one session. */
  function UpdatePeer(ps: seq<Peer>, s: Sid, update: Peer -> Peer): seq<Peer> {
    seq(|ps|, i requires 0 <= i < |ps| => if ps[i].sessionId == s then update(ps[i]) else ps[i])
  }

  /** Array.filter dropping one session. */
  function Without(ps: seq<Peer>, s: Sid): seq<Peer> {
    if ps == [] then []
    else
      var init, last := Without(ps[..|ps| - 1], s), ps[|ps| - 1];
      if last.sessionId == s then init else init + [last]
  }

  predicate Lists(ps: seq<Peer>, s: Sid) { exists i :: 0 <= i < |ps| && ps[i].sessionId == s }

  function Joined(ps: seq<Peer>, s: Sid, userName: Text, status: Status, role: Role): seq<Peer> {
    if Lists(ps, s) then ps else ps + [Peer(s, userName, status, false, None, role)]
  }

  function LoadState(p: RoomPayload): RoomView {
    var peers := PeersOf(p.participants);
    RoomView(p.roomId, p.roomName, p.createdBy, p.phase,
             if p.phase == PhaseReveal && p.result.Some? then WithVotes(peers, p.result.value.votes) else peers,
             p.result)
  }

  /** The reducer on a loaded room. */
  function ApplyToRoom(v: RoomView, m: Message): RoomView {
    var ps := v.participants;
    match m
    case ParticipantJoined(s, name, status, role) => v.(participants := Joined(ps, s, name, status, role))
    case ParticipantLeft(s) => v.(participants := Without(ps, s))
    case VoteCast(s) => v.(participants := UpdatePeer(ps, s, Flagged(true)))
    case VoteRetracted(s) => v.(participants := UpdatePeer(ps, s, Flagged(false)))
    case VotesRevealed(result) =>
      v.(phase := PhaseReveal, result := Some(result), participants := WithVotes(ps, result.votes))
    case RoundReset => v.(phase := PhaseVoting, result := None, participants := ClearVotes(ps))
    case PresenceChanged(s, status) => v.(participants := UpdatePeer(ps, s, AtStatus(status)))
    case NameUpdated(s, name) => v.(participants := UpdatePeer(ps, s, Named(name)))
    case RoleUpdated(s, role) => v.(participants := UpdatePeer(ps, s, InRole(role)))
    case _ => v
  }

  /** handleMessage: every room update but room_state is ignored until a room is loaded; room_cleared
      keeps the stale room, and errors change nothing here. */
  function Apply(r: Replica, m: Message): Replica {
    match m
    case RoomStateMsg(p) => Replica(Some(LoadState(p)), p.timer)
    case TimerUpdated(t) => r.(timer := t)
    case _ => if r.room.None? then r else r.(room := Some(ApplyToRoom(r.room.value, m)))
  }

  function ApplyAll(r: Replica, ms: seq<Message>): Replica {
    if ms == [] then r else Apply(ApplyAll(r, ms[..|ms| - 1]), ms[|ms| - 1])
  }

  lemma {:induction false} ApplyAllConcat(r: Replica, a: seq<Message>, b: seq<Message>)
    ensures ApplyAll(r, a + b) == ApplyAll(ApplyAll(r, a), b)
  {
    if b == [] {
      assert a + b == a;
    } else {
      assert (a + b)[..|a + b| - 1] == a + b[..|b| - 1];
      ApplyAllConcat(r, a, b[..|b| - 1]);
    }
  }

  /** The voteCount signal: connected non-observers, and how many of them have voted. */
  function VotedCount(ps: seq<Peer>): (nat, nat) {
    if ps == [] then (0, 0)
    else
      var (voted, total) := VotedCount(ps[..|ps| - 1]);
      var p := ps[|ps| - 1];
      if p.status != Disconnected && p.role != Observer then (voted + (if p.hasVoted then 1 else 0), total + 1)
      else (voted, total)
  }
}
