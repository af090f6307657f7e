/** The values a planning-poker room is made of (internal/domain/room.go, internal/domain/stats.go). */
module RoomTypes {
  import opened Common
  import opened Names

  type Sid = string

  datatype Phase = PhaseVoting | PhaseReveal
  datatype Status = Active | Idle | Disconnected
  datatype Role = Voter | Observer

  /** A card value as it arrives: "" retracts, "?" is unsure, a number is kept in half points, and
      any other text is Junk. */
  datatype Card = Blank | Unsure | Points(halves: nat) | Junk(text: string)

  predicate ValidVote(c: Card) {
    c.Blank? || c.Unsure? || (c.Points? && c.halves in {0, 1, 2, 4, 6, 10, 16, 26, 40, 80, 200})
  }

  /** A role or a presence status as it arrives from a client. */
  datatype RoleField = NoRole | RoleField(role: Role) | BadRole
  datatype StatusField = StatusField(status: Status) | BadStatus

  datatype Seat = Seat(sessionId: Sid, name: Text, vote: Card, status: Status, role: Role,
                       lastPing: Time, joinedAt: Time)

  type Seats = map<Sid, Seat>

  datatype TimerState = TimerIdle | TimerRunning | TimerExpired
  datatype Timer = Timer(duration: int, state: TimerState, startedAt: Option<Time>)
  datatype TimerSnapshot = TimerSnapshot(duration: int, state: TimerState, startedAt: Option<Time>, remaining: int)

  const MIN_TIMER_DURATION := 30
  const MAX_TIMER_DURATION := 600
  const DEFAULT_TIMER_DURATION := 30
  const MAX_ROOM_NAME: nat := 60
  const MAX_PARTICIPANT_NAME: nat := 30
  const MAX_PARTICIPANTS: nat := 50

  datatype RoomData = RoomData(id: string, name: Text, createdBy: Text, phase: Phase, seats: Seats,
                               timer: Timer, lastActivity: Time)

  datatype VoteEntry = VoteEntry(sessionId: Sid, name: Text, value: Card)

  /** Average in hundredths of a point, median in quarter points, spread in half points. */
  datatype RoundResult = RoundResult(votes: seq<VoteEntry>, average: Option<int>, median: Option<int>,
                                     uncertain: nat, total: nat, consensus: bool, spread: Option<(int, int)>)

  /** The participants map is keyed by each participant's own session id. */
  ghost predicate Keyed(seats: Seats) {
    forall s :: s in seats ==> seats[s].sessionId == s
  }
}
