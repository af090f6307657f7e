# A verified model of the planning-poker room server and its browser client

The system is a planning-poker room kept by a Go server and replicated into browsers.  The server holds each
room, handles one command at a time, and tells the registered clients what changed; a TypeScript reducer in
every browser rebuilds the room from those messages.  Around the room sit a registry with a garbage collector,
token-bucket rate limiters, a connection tracker, and the browser's reconnect machine.

This project models that system in Dafny and proves what it is built on:

- **the room**: every operation, in place and as a function, the invariant all runs keep, which votes a
  reveal lists, what can change a revealed result, and a lazily expiring timer that cannot be told from one
  that expires on the dot (`RoomSpec`, `RoomState`, `RoomHistory`);
- **the protocol**: what each handler answers and broadcasts, by objects with bounded send buffers that are
  proved to do what one function says (`Protocol`, `Server`); and, said without that function, which operations are
  carried out, whom they touch, who is told of a refusal, which timer is told, and how a room gets its name
  (`HandlerLaws`);
- **replica coherence**: on whole runs with any number of lagging, reconnecting and leaving clients, the
  browser's incremental copy agrees with the list the server would compute afresh (`CoherentViews`, on `Replica`,
  `Coherence`, `CoherentSteps`, `CoherentCards`, `Runs` and `CoherentRuns`), except about changes that no message
  tells, each traced to its event (`HiddenChanges`), and shows the result it was told last (`ShownResults`);
  conditions on the events for that (`JoinTimes`), runs on which vote flags and counters are exact (`QuietRuns`),
  how a cleared room is found again (`Resync`), what happens between the room lock and the queues (`Overtaking`,
  `Reordering`), and **vote secrecy** in every round as a property of two runs (`Secrecy`);
- **statistics and names**: independence of map order, median, rounded average and consensus (`Stats`,
  `Sorting`), and how many passes the name sanitiser needs (`Names`);
- **rate limits and connections**: an exact specification of a token bucket over its whole history, many
  buckets with deletion seen as one private bucket each, and conservation of connection counts (`Buckets`,
  `RateLimiting`, `ConnTracking`);
- **locks and the registry**: deadlock freedom of every mix of goroutines, and what the garbage collector may
  delete when its steps interleave with joins (`Locking`, `Registry`);
- **the browser's connection and addresses**: the reconnect machine (`WebClient`) and room ids (`RoomUrl`).

Operations that the original performs by changing objects are classes whose methods are proved equal to
functions on values (`Data()`, `View()` or `Value()` give the value of an object); the run-level theorems are
about those functions.

## Assumptions

- A command handler, the cleanup of a connection, and a ping each run as one step (`Runs`).  The code
  releases the room lock before it broadcasts (internal/server/ws.go:292-309), so messages of two handlers
  could be queued in the other order than their room operations; the coherence and secrecy theorems are about
  runs in which they are not.  `Overtaking` says exactly which commands are lost to a joiner when their messages
  are queued before its older room_state, and what a join between room_cleared and the clearing loses;
  `Reordering` says which neighbours in a queue may change places.  `Locking` and `Registry` do not make this
  assumption.
- `Runs` and `Server` are about one room id; messages to other rooms do not meet.  Where the room may be
  collected it has no registered client; the finer interleaving is in `Registry`.
- Clocks are inputs: times of the room in integer nanoseconds, of the rate limiters in real seconds, of the
  browser in milliseconds.  Theorems that need a clock that does not go back say so.
- Card values are kept in half points, averages in hundredths of a point and medians in quarter points, all
  exact; buckets and delays are real numbers.
- A socket that was closed fires no open event: `closeSocket` removes the other handlers but not `onopen`
  (web/src/ws.ts:303-315).
- A code point is reduced to what the sanitiser asks of it: a combining mark, or a character that may be white
  space and may be stripped.  The slug of a name is taken from the name in lower case.

## Words used by the coherence theorems

A run is *orderly* when everybody who is seated sorts, at that moment, after all who are seated already by (join
time, session id); `Coherence.AppendMatchesIffLast` shows that this is exactly what appending needs, and `JoinTimes`
that every run on which participants are seated at increasing times is orderly.  A client is *up to date* when it is
registered, its send buffer never overflowed, and the last room_state queued for it follows the last room_cleared:
after `room_cleared` a browser keeps its stale view until its own re-join is answered.  It is *settled* when it has
handled everything queued for it.

The *drift* of a client is exactly what its settled copy shows wrongly: for some sessions another name or role than
the server's, and for some a vote flag although they hold no vote.  A change is *hidden* from a client when an event
makes it and tells nobody (a rejoin under another name or role, a vote given up by becoming an observer) and the
client has since been sent no room_state and no message that tells of it.  `HiddenChanges.DriftWasHidden` shows that
only hidden changes drift, so a participant who never rejoins under another name is shown under the right one by
everybody up to date: `HiddenChanges.SteadyLooksAreShown`.

## Where the code decides

- The comment on the sanitiser promises to limit combining marks (internal/domain/room.go:152-154).  Its
  counter restarts at characters it then drops, so one pass may leave longer runs: `Names.OnePassIsNotAlwaysFixed`,
  and the exact inputs in `Names.OnePassSuffices`.
- A name is cut to its length after it was trimmed (internal/domain/room.go:208-216, 348-350), so a stored name
  may end with white space: `RoomSpec.StoredNameCanEndInSpace`, exactly when in `RoomSpec.StoredNameIsTrimmedIff`,
  and when storing it again changes nothing in `RoomSpec.StoredAgainIff`.
- A join that is refused for its name or role has already made the room if there was none
  (internal/server/ws.go:225-240): `HandlerLaws.FirstJoinMakesRoom`.
- The spread is reported whenever there is a numeric vote, also at consensus (internal/domain/stats.go:87-89).
- A room joined less than a day ago can be deleted before its client is registered, because the collector's
  check and deletion hold the manager's lock while a join holds only the room's: `Registry.JoinedRoomCanVanish`,
  and exactly when in `Registry.JoinedRoomSurvivesIff`.
- After a rejoin the other browsers keep the old name and role, and after a voter becomes an observer they
  keep the vote flag: `CoherentSteps.RejoinIsShownIffUnchanged`, `CoherentSteps.RoleChangeIsShownIffNoVoteLost`.
- A joiner's state is built under the room lock and sent after it was released (internal/server/ws.go:246-251), so
  another handler's messages can be queued first and are then overwritten: a vote, a reveal, the start of the timer
  (`Overtaking.OvertakingVoteIsLost`, `Overtaking.OvertakingRevealIsLost`, `Overtaking.OvertakingStartIsLost`).
  Exactly when the joiner still has a copy of the room is `Overtaking.OvertakenStateSettlesIff`, and for which
  commands `Overtaking.OvertakingCommandIff`.
- The room is cleared after room_cleared was queued (internal/server/ws.go:382-389).  A browser whose join takes the
  room lock in between is sent the old list, loses its seat and stays registered; it keeps the seat exactly when the
  clearing comes first: `Overtaking.RejoinSurvivesClearIff`.
- A rate limit below one per minute admits a first request it has no token for, again after each sweep:
  `RateLimiting.SweepShowsBelowOne`.
- The rounded average can meet the upper end of the spread without consensus from a hundred votes on:
  `Stats.ConsensusBoundIsSharp`; a room holds at most fifty.

## Model

| member | source | states |
|---|---|---|
| Names.SanitizeName | internal/domain/room.go:155-200 | The loop with its builder and mark counter computes, for every input, trimming, filtering and trimming again. |
| Names.SanitizeShape | internal/domain/room.go:155-200 | What the sanitiser returns is trimmed, holds no stripped character and is a subsequence of the name that was sent; the cut to a stored name comes after it. |
| Names.FirstTrimIsRedundant | internal/domain/room.go:155-156 | Leaving out the first TrimSpace never changes the result. |
| Names.TwoPassesRepair | internal/domain/room.go:155-200 | Two passes give what one pass would if dropped characters did not restart the mark counter. |
| Names.FixedAfterOnePass | internal/domain/room.go:155-200 | A second pass changes nothing exactly when the first left no run of more than three marks. |
| Names.FixedAfterTwoPasses | internal/domain/room.go:155-200 | Two passes always reach a fixed point, with mark runs of at most three. |
| Names.OnePassSuffices | internal/domain/room.go:159-170 | The exact condition on the input for one pass to be enough: no mark is let through after a restart at a dropped character that three kept marks already precede. |
| Names.CleanInputNeedsOnePass | internal/domain/room.go:150-200 | Input without stripped characters is at its fixed point after one pass, with runs of at most three marks. |
| Names.OnePassIsNotAlwaysFixed | internal/domain/room.go:159-183 | An input for which the bound on mark runs fails after one pass. |
| Names.CutNameShape | internal/domain/room.go:208-212 | After cutting: no stripped character, a subsequence of the input, no white space in front, and at the end only when the cut fell there. |
| Names.CutAgainIff | internal/domain/room.go:208-212 | Sanitising and cutting again changes nothing if and only if the cut name does not end with white space and has no run of more than three marks. |
| RoomSpec.StoredNameShape | internal/domain/room.go:208-216 | A stored name has 1 to 30 code points, none that is stripped, in the order sent, no white space in front, and at the end only if it has exactly 30 because the rest was cut. |
| RoomSpec.StoredNameIsTrimmedIff | internal/domain/room.go:208-212 | A stored name is trimmed if and only if the sanitised name has at most 30 code points or its thirtieth is no white space. |
| RoomSpec.StoredAgainIff | internal/domain/room.go:344-352 | Storing a stored name again changes nothing if and only if it does not end with white space and has no run of more than three marks. |
| RoomSpec.StoredNameCanEndInSpace | internal/domain/room.go:208-212 | Twenty-nine letters, a space and a letter are stored with the space at the end. |
| Stats.CollectVotes | internal/domain/stats.go:37-66 | Whatever order the map is walked in, the loop lists exactly the counted votes, once each, with matching tallies. |
| Stats.CalculateResult | internal/domain/stats.go:30-92 | The whole computation gives a result that is a function of the participants map alone, the one `StatisticsMeaning` describes. |
| Stats.Average | internal/domain/stats.go:94-101 | The running sum gives the mean of all values, rounded half up to hundredths. |
| Stats.IsConsensus | internal/domain/stats.go:111-122 | True exactly when there is a value and all are equal. |
| Stats.WalkOrderIsIrrelevant | internal/domain/stats.go:37-71 | Any enumeration of the same participants sorts to the same vote list. |
| Stats.StatisticsMeaning | internal/domain/stats.go:30-92 | Votes strictly sorted with nobody missing or invented; every number as often as there are participants with that card, the rest unsure; spread attained and bounding every number; the mean to the nearest hundredth; the midpoint of all points that halve the numbers; consensus exactly when all are equal. |
| Stats.MedianIsMidpoint | internal/domain/stats.go:103-109 | The median has at least half the values at most, and at least half at least, it, and is the midpoint of all points that do. |
| Stats.MidpointIsUnique | internal/domain/stats.go:103-109 | No other point is that midpoint. |
| Stats.AverageBounds | internal/domain/stats.go:94-101 | The rounded average is within 0.005 of the mean and between minimum and maximum. |
| Stats.ConsensusIffAverageAtEnd | internal/domain/stats.go:94-122 | With fewer than a hundred values: all equal if and only if the average is the minimum, and if and only if it is the maximum. |
| Stats.ConsensusBoundIsSharp | internal/domain/stats.go:94-122 | For every number of values from a hundred on, the average can be the maximum although they differ. |
| Stats.ReportedConsensus | internal/domain/room.go:70-74 | In a room of at most fifty the reported average, spread and consensus flag agree as above. |
| RoomSpec.NewRoomOk | internal/domain/room.go:121-140 | A new room satisfies the room invariant. |
| RoomSpec.PerformKeepsCapacity | internal/domain/room.go:234-236 | No operation takes a room past fifty participants. |
| RoomSpec.PerformKeepsRoomOk | internal/domain/room.go:205-455 | Every operation keeps the invariant (keys are session ids, valid cards, observers without vote, names of 1 to 30, legal timer), and a refused one changes nothing. |
| RoomSpec.RunKeepsRoomOk | internal/domain/room.go:205-455 | The invariant over every sequence of operations, the server's status write and pings included. |
| RoomState.Room.constructor | internal/domain/room.go:121-140 | A new room object has a sanitised, truncated name, no participants, an idle 30-second timer. |
| RoomState.Room.Join | internal/domain/room.go:205-251 | In place: new name, role and status on a rejoin with an observer's vote taken away, a fresh participant otherwise, refusals in the code's order. |
| RoomState.Room.Leave | internal/domain/room.go:255-262 | Removes exactly that participant; false when there is none. |
| RoomState.Room.UpdateRole | internal/domain/room.go:266-281 | Sets the role and takes an observer's vote; refusals leave the room alone. |
| RoomState.Room.CastVote | internal/domain/room.go:285-302 | Stores the card of a voter in the voting phase; refusals in the code's order. |
| RoomState.Room.Reveal | internal/domain/room.go:306-313 | Switches the phase and returns the statistics of the current participants. |
| RoomState.Room.NewRound | internal/domain/room.go:318-329 | Clears every vote, resets the timer, returns to voting. |
| RoomState.Room.ClearRoom | internal/domain/room.go:334-339 | Empties the room and restores the default timer. |
| RoomState.Room.UpdateName | internal/domain/room.go:343-358 | Stores the sanitised, truncated name, or refuses. |
| RoomState.Room.UpdatePresence | internal/domain/room.go:362-374 | Stores active or idle only. |
| RoomState.Room.HasVoted | internal/domain/room.go:377-383 | True exactly for a seated participant holding a card. |
| RoomState.Room.SetTimerDuration | internal/domain/room.go:388-398 | Only on an idle timer and only 30 to 600 seconds. |
| RoomState.Room.StartTimer | internal/domain/room.go:403-411 | Only from idle. |
| RoomState.Room.ResetTimer | internal/domain/room.go:416-424 | Back to idle without a start time. |
| RoomState.Room.TimerInfo | internal/domain/room.go:429-455 | The snapshot, and expiry stored on the spot with the start time kept. |
| RoomState.Room.MarkDisconnected | internal/server/ws.go:109-113 | The server's direct status write changes one status and nothing else. |
| RoomState.Room.UpdatePing | internal/server/room_manager.go:165-175 | The ping write changes one time and nothing else. |
| RoomHistory.VoteLedger | internal/domain/room.go:205-339 | A participant holds card v exactly when the history has an accepted vote of v after which came no other accepted vote, join, leave, observer switch, round reset or clear. |
| RoomHistory.RevealListsTheLedger | internal/domain/stats.go:30-63 | A reveal lists exactly each current voter's standing vote of the history. |
| RoomHistory.RevealedPairsShrink | internal/domain/room.go:255-281 | While revealed, an operation only removes (session, vote) pairs, and only by that session leaving or becoming an observer. |
| RoomHistory.FrozenResult | internal/server/room_manager.go:267-269 | The same over any run that stays revealed. |
| RoomHistory.LazyTimerIsEager | internal/domain/room.go:388-455 | On every run each snapshot is that of a timer that expires exactly at its deadline, with 0 <= remaining <= duration and 30 <= duration <= 600. |
| RoomHistory.ExtraReadsAreInvisible | internal/domain/room.go:429-455 | Two runs that differ only in timer readings leave rooms that differ at most in a stored expiry. |
| RoomHistory.ReadingChangesNothing | internal/domain/room.go:429-455 | Readings inserted anywhere change no later snapshot and no later outcome. |
| Protocol.RosterIsSorted | internal/server/room_manager.go:237-258 | The participant list holds exactly the seats' entries, strictly sorted by join time and session id. |
| Protocol.SendAllKeepsSession | internal/server/client.go:59-66 | A buffer that did not overflow holds all messages in order; overflow closes for good, and the bound of 32 is kept. |
| Protocol.SendAllQueuesWhatFits | internal/server/client.go:59-66 | Exactly the first messages that fit among 32 are queued, and the connection is closed if and only if one does not fit. |
| Protocol.ReactKeepsRoomOk | internal/server/ws.go:162-191 | Every handler keeps the room invariant, never loses an existing room, and seats a client only in a room. |
| Protocol.HandleKeepsSysOk | internal/server/ws.go:193-619 | Every handler keeps: registered exactly while holding a session id, and a room for registered clients. |
| Protocol.DropKeepsSysOk | internal/server/ws.go:95-123 | So does the cleanup of a connection. |
| HandlerLaws.FirstJoinMakesRoom | internal/server/ws.go:212-229 | Where there was no room a command leaves one if and only if it is a join with valid session id and user name that the creation limit allows; it has the connection's id, the user as creator, the sent room name or else the user's followed by "'s Room", sanitised and cut at 60, nobody but the joiner, and an idle timer of 30 seconds. |
| HandlerLaws.EventKeepsIdentity | internal/domain/room.go:88-91 | No event of a run changes the id, name or creator of a room while it exists. |
| HandlerLaws.RoomKeepsItsMakersName | internal/server/ws.go:221-229 | On every run a room goes by the connection's id and has the name and creator of the join that made it. |
| HandlerLaws.CarriedOutIff | internal/domain/room.go:205-424 | For every operation, told from the room and its arguments, exactly when it is carried out. |
| HandlerLaws.OthersAreUntouched | internal/domain/room.go:205-455 | An operation about one participant leaves everybody else, the phase and the timer as they were; a new round takes only cards from the others. |
| HandlerLaws.SubjectBecomes | internal/domain/room.go:205-374 | What becomes of the participant it is about: which fields change and to what, joining time, ping and vote included. |
| HandlerLaws.UseIsRecordedIff | internal/domain/room.go:94-107 | A use of the room is recorded if and only if an operation is carried out; readings, pings and lost connections are none. |
| HandlerLaws.RefusalsAreTold | internal/server/ws.go:162-619 | For every command, told from room, session and command, whether it is refused and with which code; the code goes to the sender alone and session and participants stay as they were; otherwise nobody is told of an error. |
| HandlerLaws.ToldTimersAreRight | internal/server/room_manager.go:260-275 | Every timer in a timer_updated or room_state is, at that moment, what a timer that expires exactly at its deadline shows: duration, state, seconds left, start in milliseconds. |
| HandlerLaws.ReadingStoresWhatItShows | internal/domain/room.go:429-455 | Reading the timer stores the state it shows, expiry included, and nothing else. |
| Replica.ApplyAllConcat | web/src/ws.ts:71-278 | Handling messages in two batches is handling them in one. |
| Coherence.MatchesMeansRoster | internal/server/room_manager.go:237-258 | A list that matches the seats is, entry by entry and in order, the list the server would sort afresh; a name, role or flag differs if and only if the drift records it, and then it is what the drift says. |
| Coherence.LoadedStateMirrors | web/src/ws.ts:85-113 | A loaded room_state mirrors the room without drift, whatever was shown before. |
| Coherence.AppendMatchesIffLast | web/src/ws.ts:115-137 | Appending a newcomer gives the server's order if and only if the newcomer sorts last by join time and session id. |
| Coherence.LeaveMatches | web/src/ws.ts:139-154 | Filtering a session out follows its leaving and ends its drift. |
| Coherence.UpdateMatches | web/src/ws.ts:229-266 | Mapping over the entries of one session follows a rewritten seat, whatever drift the others have. |
| Coherence.ResetMatches | web/src/ws.ts:197-213 | Resetting all entries follows a new round and ends all drift of flags. |
| CoherentSteps.OthersFollow | internal/server/ws.go:193-619 | The commuting square: a handler's messages for the others, applied to a copy of the old room, give a copy of the new one, for every command but clearing; the drift changes only for the subject of the command, and ends where something is announced. |
| CoherentSteps.SelfFollows | internal/server/ws.go:193-619 | The same for the acting client's own messages. |
| CoherentSteps.JoinerIsSynced | internal/server/ws.go:241-251 | A successful join leaves the joining client with an exact copy. |
| CoherentSteps.DisconnectFollows | internal/server/ws.go:104-123 | The announcement of a lost connection follows the status write. |
| CoherentSteps.RejoinIsShownIffUnchanged | internal/server/ws.go:263-271 | After a rejoin another client's name, role and vote flag are right exactly when the rejoin changed none of them. |
| CoherentSteps.RoleChangeIsShownIffNoVoteLost | web/src/ws.ts:255-266 | After a role change the vote flag is right exactly when no vote was given up. |
| CoherentRuns.RunKeepsWorldOk | internal/server/ws.go:193-619 | On every orderly run every up-to-date client settles on a copy of the room, up to its drift, and the server's invariants hold. |
| CoherentCards.VoteOfBallot | web/src/ws.ts:182-184 | The browser's map lookup in a fresh vote list finds the card of every counted vote. |
| CoherentCards.LoadedCardsMatch | web/src/ws.ts:85-96 | A loaded room_state shows no card while voting and every counted card during reveal. |
| CoherentCards.KeptCardsMatch | web/src/ws.ts:115-266 | Messages that touch no card keep the shown cards right as long as votes are only withdrawn. |
| CoherentCards.OthersKeepCards | internal/server/ws.go:193-619 | The commuting square for cards: after any handler but the clearing one, no card is shown while voting, and during reveal exactly the server's card of everyone whose vote still counts, in the list and in the result. |
| CoherentRuns.CopyShows | internal/server/room_manager.go:237-275 | A copy shows the phase, the timer, and exactly the sessions, order and statuses of a fresh room_state; every vote is flagged; a name, role or flag differs if and only if the drift records it; cards as above. |
| HiddenChanges.DriftWasHidden | internal/server/ws.go:263-271 | On every run, whatever a client's drift records of a name, role or flag is a change hidden from that client. |
| HiddenChanges.HiddenHasCause | internal/server/ws.go:263-271 | What is hidden from a client was hidden by an event of the run (a rejoin under another name or role, a vote holder becoming an observer) since which no room_state was queued for the client. |
| HiddenChanges.SteadyLooksAreShown | web/src/ws.ts:71-278 | On orderly runs, every up-to-date client shows rightly the name of a session that never rejoins under another name, the role of one that never rejoins under another role, and the flag of one that never becomes an observer while holding a vote. |
| ShownResults.RunKeepsResult | web/src/ws.ts:178-195 | On every orderly run, during reveal, an up-to-date client's settled result is the statistics of the votes the room had at the later of the reveal and that client's last room_state. |
| ShownResults.ShownResultIsCurrentIff | internal/server/room_manager.go:267-269 | Such a result is the one the server would recompute now if and only if those votes, names included, are the counted votes now. |
| CoherentViews.ReplicaCoherence | web/src/ws.ts:71-278 | On every orderly run every up-to-date client settles on the room: phase, timer, sessions, order, statuses and cards; names, roles and flags unless a change was hidden from it since its last room_state; and the result as above. |
| CoherentViews.ReplicaCoherenceByJoinTimes | web/src/ws.ts:71-278 | The same, with the server's invariants, on every run whose joins come at increasing times. |
| JoinTimes.SeatsWereJoined | internal/domain/room.go:238-249 | On every run everybody's join time is the time of an event that seated somebody. |
| JoinTimes.IncreasingSeatingIsOrderly | internal/domain/room.go:238-249 | Seating participants at increasing times makes a run orderly; refused joins and rejoins may come at any time. |
| JoinTimes.IncreasingJoinsAreOrderly | internal/domain/room.go:238-249 | By the events alone: joins at increasing times do. |
| CoherentRuns.VoteCountIsExact | web/src/state.ts:141-148 | A copy without role or vote drift counts the votes and voters the server has. |
| CoherentRuns.VoteCounterCoherence | web/src/state.ts:141-148 | The same for every up-to-date client's settled copy without such drift on every orderly run. |
| QuietRuns.VoteFlagsCoherence | web/src/ws.ts:156-213 | On orderly runs where nobody who holds a vote becomes an observer, every up-to-date client flags exactly the participants who hold a vote, whatever roles rejoins bring. |
| QuietRuns.VoteCountersOnQuietRuns | web/src/state.ts:141-148 | If rejoins keep their roles too, every up-to-date client's counter is the server's pair of counts. |
| Resync.QuiescentIsUpToDate | web/src/ws.ts:215-227 | When a browser joins again for every room_cleared it handles and no join of it is refused, then once nothing is on its way to or from it, it is up to date, if it is registered and open. |
| Resync.QuiescentShowsRoom | web/src/ws.ts:215-227 | And on orderly runs what it shows is then the room, in the sense of `CoherentViews.ReplicaCoherence`. |
| Resync.AdmittedJoinIsUpToDate | internal/server/ws.go:231-251 | An admitted join registers the client under the session and seats the participant, and makes the client up to date if and only if its connection is open with a free place in the send buffer. |
| Overtaking.OvertakenStateSettlesIff | internal/server/ws.go:241-251 | A joiner whose room_state was built before, and queued after, other handlers' messages settles on an exact copy of the later room if and only if participant list, phase and timer are as they were. |
| Overtaking.OvertakenMirrorNeedsPhaseAndTimer | internal/server/ws.go:241-251 | With another phase or timer no drift makes it a copy. |
| Overtaking.OvertakenCopyIff | internal/server/ws.go:241-251 | For the whole copy, cards and result included: if and only if in addition no vote was added during reveal. |
| Overtaking.OvertakingCommandIff | internal/server/ws.go:193-619 | For every command, exactly when it may overtake: refused, or setting what is so already (a changed card, the same name, status, role or duration, a rejoin of somebody active as before, leaving without a seat, clearing a room that is as new). |
| Overtaking.OvertakingDisconnectIff | internal/server/ws.go:104-123 | For a lost connection: of nobody seated, or of somebody already disconnected. |
| Overtaking.OvertakingRevealIsLost | internal/server/ws.go:313-337 | An overtaking reveal leaves the joiner voting, without a result, and no drift makes that a copy. |
| Overtaking.OvertakingStartIsLost | internal/server/ws.go:549-572 | So does the start of the timer leave it with an idle one. |
| Overtaking.OvertakingVoteIsLost | internal/server/ws.go:241-251 | A first vote queued before an older room_state is lost to the joiner. |
| Overtaking.RejoinSurvivesClearIff | internal/server/ws.go:382-389 | A join answering room_cleared is registered in either case, and keeps its seat and settles on a copy if and only if the clearing took the room lock first; otherwise it lists itself in a room it has no seat in. |
| Reordering.EntryUpdatesCommuteIff | web/src/ws.ts:156-266 | Two messages about a listed participant may change places if and only if they are about different aspects or are the same message. |
| Reordering.SwapSettlesTheSame | web/src/ws.ts:156-266 | Such neighbours may change places anywhere in a queue. |
| Reordering.OwnSeatBroadcastsReorder | internal/server/ws.go:292-309 | The broadcasts of votes, presences, renames and role changes of two different sessions may be queued in either order. |
| Secrecy.VoteSecrecy | internal/server/ws.go:274-311 | Two runs that differ only in which valid cards are sent give every client the same messages and every browser the same view until a reveal succeeds. |
| Secrecy.SecrecyInEveryRound | internal/server/ws.go:274-311 | After any two such runs, whatever was revealed, such continuations on which the room is voting queue the same messages for every client. |
| Secrecy.RunsStayAlike | internal/server/ws.go:193-619 | Also after reveals, such runs differ only in the cards held. |
| Secrecy.NewRoundErasesCards | internal/domain/room.go:318-329 | A successful new round makes the two rooms equal again. |
| Server.Client.Send | internal/server/client.go:59-66 | Queues while there is room among 32, closes otherwise. |
| Server.Client.Drain | internal/server/client.go:102-105 | The pump takes messages first in, first out. |
| Server.Hub.Broadcast | internal/server/room_manager.go:132-145 | Queues the message for every registered client and nobody else, in any order of the set. |
| Server.Hub.BroadcastExcept | internal/server/room_manager.go:148-162 | The same without one client. |
| Server.Hub.HandleJoin | internal/server/ws.go:193-272 | The join handler with its checks, room creation, registration, state and news does what the protocol says; the room it makes is that of `HandlerLaws.FirstJoinMakesRoom`. |
| Server.Hub.HandleVote | internal/server/ws.go:274-311 | Voting, retracting and the silent retraction of nothing. |
| Server.Hub.HandleReveal | internal/server/ws.go:313-337 | Reveal or refusal. |
| Server.Hub.HandleNewRound | internal/server/ws.go:339-368 | The timer is read also when the round is refused; two broadcasts in order otherwise. |
| Server.Hub.HandleClearRoom | internal/server/ws.go:370-390 | Everyone is told before the room is cleared. |
| Server.Hub.HandleUpdateName | internal/server/ws.go:392-431 | The stored, not the sent, name is announced. |
| Server.Hub.HandlePresence | internal/server/ws.go:433-466 | Presence or refusal. |
| Server.Hub.HandleUpdateRole | internal/server/ws.go:468-501 | Role or refusal. |
| Server.Hub.HandleTimerSetDuration | internal/server/ws.go:517-547 | Duration or refusal, with the timer's new state. |
| Server.Hub.HandleTimerStart | internal/server/ws.go:549-572 | Silent when nothing changes. |
| Server.Hub.HandleTimerReset | internal/server/ws.go:574-597 | Silent when nothing changes. |
| Server.Hub.HandleLeave | internal/server/ws.go:599-619 | Leaves, tells the others, unregisters, gives up the session. |
| Server.Hub.Disconnect | internal/server/ws.go:95-123 | The cleanup marks and announces before it unregisters. |
| Server.Hub.UpdatePingTime | internal/server/room_manager.go:165-175 | Writes the ping time of a seated participant, if the room exists. |
| Server.Hub.Dispatch | internal/server/ws.go:162-191 | Every command changes room, sessions, buffers and registration exactly as the one function of the protocol says. |
| Server.BuildRoomState | internal/server/room_manager.go:237-275 | Gathering in map order and sorting gives the roster; the result is recomputed during reveal; reading the timer may store its expiry. |
| Server.SortedInfosAreRoster | internal/server/room_manager.go:240-258 | Any order of gathering sorts to the same participant list. |
| Buckets.LevelIsLeast | internal/server/msg_rate_limiter.go:38-44 | A lazily refilled level is the least, over all refill instants, of capacity plus refill less admissions since. |
| Buckets.AdmittedIffAffordable | internal/server/msg_rate_limiter.go:34-52 | A call is admitted if and only if the capacity is at least one and, from every earlier refill instant, admissions since plus one are within capacity plus refill; for any clock, rate and capacity. |
| Buckets.WindowBound | internal/server/msg_rate_limiter.go:34-52 | In any stretch of calls at most capacity plus the refill over the stretch are admitted. |
| Buckets.SpacedCallsAreAdmitted | internal/server/msg_rate_limiter.go:34-52 | Callers that leave 1/rate between calls are never refused. |
| Buckets.MsgRateLimiter.constructor | internal/server/msg_rate_limiter.go:19-26 | Starts full with an empty history. |
| Buckets.MsgRateLimiter.Allow | internal/server/msg_rate_limiter.go:34-52 | The in-place limiter answers exactly by that condition on its whole history. |
| RateLimiting.KeysNeverCollide | internal/server/ratelimit.go:55-68 | Keys are equal only for the same kind and address. |
| RateLimiting.LimiterIsOneBucketEach | internal/server/ratelimit.go:55-122 | For limits of at least one per minute and any interleaving of requests and sweeps, each address is answered as by a bucket of its own that is never deleted. |
| RateLimiting.CreationsAtOnce | internal/server/ratelimit.go:55-60 | Of the room creations asked for by one address at one instant exactly the first `roomCreationsPerMin` are admitted, whatever else is asked. |
| RateLimiting.ConnectionsAtOnce | internal/server/ratelimit.go:63-68 | Of the connections exactly the first `wsConnectionsPerMin`. |
| RateLimiting.CreationsInStretch | internal/server/ratelimit.go:55-60 | In any stretch of one address's requests at most `roomCreationsPerMin` creations are admitted, and as many more per minute it lasts. |
| RateLimiting.ConnectionsInStretch | internal/server/ratelimit.go:63-68 | Likewise for connections and `wsConnectionsPerMin`. |
| RateLimiting.CreatedIsFullLessOne | internal/server/ratelimit.go:75-85 | A bucket created one token short by its first request is one that was full when the request came. |
| RateLimiting.IdleBucketIsNew | internal/server/ratelimit.go:87-100 | A bucket idle for a minute answers and ends as a new one. |
| RateLimiting.SweepShowsBelowOne | internal/server/ratelimit.go:74-85 | For limits below one a sweep changes answers: the condition of the refinement is exact. |
| RateLimiting.RateLimiter.Allow | internal/server/ratelimit.go:70-101 | In place, one key's bucket is created or used and no other changes. |
| RateLimiting.RateLimiter.AllowRoomCreation | internal/server/ratelimit.go:55-60 | The step of a room-creation request, under the limit `CreationsAtOnce` names. |
| RateLimiting.RateLimiter.AllowWSConnection | internal/server/ratelimit.go:63-68 | The step of a connection request, under the limit `ConnectionsAtOnce` names. |
| RateLimiting.RateLimiter.CleanUp | internal/server/ratelimit.go:112-119 | The loop deletes exactly the buckets idle for more than 300 seconds. |
| ConnTracking.ConnectionsAreConserved | internal/server/conntracker.go:39-72 | In every interleaving of handlers each counter is the number of live handlers of its address, the total their number and the sum of the counters, no counter is zero and both limits hold. |
| ConnTracking.RefusedOnlyAtLimit | internal/server/conntracker.go:43-48 | A connection is refused if and only if live handlers reach a limit. |
| ConnTracking.ConnTracker.TryAdd | internal/server/conntracker.go:39-53 | Counts in place, or changes nothing when refusing. |
| ConnTracking.ConnTracker.Remove | internal/server/conntracker.go:57-72 | Counts down in place, dropping a counter at zero. |
| Locking.ProgramsAreWhole | internal/server/ws.go:162-191 | Every path of every handler and background job, in any sequence, takes room locks first and one at a time, nothing under any other lock, and ends holding nothing. |
| Locking.RunKeepsDiscipline | internal/server/room_manager.go:18-23 | In every reachable state no lock is held twice and nobody reads the manager while somebody writes it. |
| Locking.SomeoneCanStep | internal/server/ws.go:231-247 | Among goroutines keeping that order, an unfinished one means one that is not blocked, pending writers holding back readers included. |
| Locking.NeverDeadlocked | internal/server/ws.go:162-191 | No reachable state of any number of goroutines is stuck. |
| Locking.CanAlwaysFinish | internal/server/ws.go:162-191 | From every reachable state everything can be brought to an end with nothing left locked. |
| Locking.OppositeOrderDeadlocks | internal/server/ws.go:231-247 | With the manager taken before the room, two goroutines can block each other for good. |
| Registry.RunKeepsWorldOk | internal/server/room_manager.go:53-85 | In every interleaving, what the collector has decided to delete has no clients and was not used in the day before its captured time. |
| Registry.ClientsAreTheRegistered | internal/server/room_manager.go:88-129 | In every interleaving a client is in the set under an id if and only if the history has its registration there, after which came no unregistration of that client, no deletion of the id and no creation of a room under it. |
| Registry.OnlyStaleRoomsAreDeleted | internal/server/room_manager.go:73-84 | A room only ever loses its id when nobody's registration stands in the history and it was not used in the day before the collector's time. |
| Registry.ObtainGivesTheRoom | internal/server/room_manager.go:88-103 | A handler gets the room that goes by the id from then on, and no id changes its room. |
| Registry.SweepRunsToItsEnd | internal/server/room_manager.go:70-84 | The collector's own steps, with nothing in between, end and do what the second phase does. |
| Registry.JoinedRoomSurvivesIff | internal/server/ws.go:225-243 | Within a day, a joined room still goes by its id when its client registers if and only if at the join it did and the collector had not just decided on it. |
| Registry.JoinedRoomCanVanish | internal/server/room_manager.go:70-84 | A run that leaves a client registered under an id without a room. |
| Registry.RoomManager.GetOrCreateRoom | internal/server/room_manager.go:88-103 | The existing room, or a new one with an emptied client set. |
| Registry.RoomManager.RegisterClient | internal/server/room_manager.go:113-120 | Adds the client, making the set if needed. |
| Registry.RoomManager.UnregisterClient | internal/server/room_manager.go:123-129 | Removes that client and nobody else, if the set exists, as `ClientsAreTheRegistered` requires. |
| Registry.RoomManager.ListCandidates | internal/server/room_manager.go:55-64 | The first phase lists exactly the stale rooms. |
| Registry.RoomManager.DeleteCandidates | internal/server/room_manager.go:71-84 | The second phase deletes those of its candidates that are still stale. |
| Registry.RoomManager.CollectGarbage | internal/server/room_manager.go:53-85 | Uninterrupted, a collection leaves exactly the rooms that are not stale, with their clients. |
| RoomUrl.SlugHasShape | web/src/utils/room-url.ts:2-11 | A slug has only id characters, single dashes, none at the start, at most 48, and one at the end only after cutting. |
| RoomUrl.RoomUrlRoundTrip | web/src/utils/room-url.ts:21-32 | Every generated id has at most 61 characters, is accepted by the server and read back from its address. |
| RoomUrl.AddressIsReadIff | web/src/utils/room-url.ts:29-32 | An address is read as an id if and only if it is /room/ and that id, of at least one id character. |
| RoomUrl.PlainNameSlug | web/src/utils/room-url.ts:2-11 | The slug of letters, digits and single inner spaces is that text with dashes, cut at 48. |
| RoomUrl.StrangeCharacterIsDropped | web/src/utils/room-url.ts:6 | A character that is neither white space nor of an id, between two that are no white space, leaves the slug as it is. |
| RoomUrl.FirstSplit | web/src/ws.ts:19 | The search finds the shortest name before a dash and eight or more hex digits, as the lazy pattern does, or reports that there is none. |
| RoomUrl.ShownNameIsBeforeLastDash | web/src/ws.ts:18-24 | For every id: the shown name is what precedes the last dash if at least eight hex digits follow it and something on one line precedes it, and otherwise the whole id, with spaces for dashes. |
| RoomUrl.RoomNameIsSpacedSlug | web/src/ws.ts:18-24 | The name shown for an id is its slug with spaces for dashes, hex-like slugs included. |
| RoomUrl.ShownNameKeepsSlug | web/src/ws.ts:18-24 | Slugging the shown name gives the slug back, less at most one trailing dash. |
| RoomUrl.ShownNameWithoutSlug | web/src/utils/room-url.ts:21-26 | Without a slug the hex digits are the name. |
| WebClient.RunKeepsWebOk | web/src/ws.ts:284-390 | From entering a room until quitting exactly one of live socket and pending timer exists; every socket's first frame is a join; at most 20 frames are queued; delays are at least 500 and below 13000 ms. |
| WebClient.AttemptCountsFailures | web/src/ws.ts:284-300 | The backoff's exponent is the number of closures since the connection last worked. |
| WebClient.DelayBounds | web/src/ws.ts:55-59 | Delays double from half a second to at most ten, plus at most 30 percent. |
| WebClient.ShownIsReduction | web/src/ws.ts:71-278 | The shown room is the reduction of all messages that arrived, over all reconnections. |
| WebClient.FramesAreThoseAsked | web/src/ws.ts:46-390 | On every run, told from the events: whether there is a socket, its state, a pending timer, and the status; the frames of the socket are a join for its opening, every command asked for while it was open, and a join for every room_cleared; a socket given up by quitting while open ends with a leave; the queue holds the first twenty commands asked for without an open socket. |
| WebClient.ClosureSchedulesAttempt | web/src/ws.ts:284-300 | A closure is followed by an attempt after half a second doubled for every closure since the connection worked, at most ten seconds, and up to 30 percent more, and after ten seconds once thirty have passed since the series began; what is shown counts the attempts. |
| WebClient.JoinsAnswerClears | web/src/ws.ts:215-227 | An open socket has sent one join and one more for every room_cleared it received. |
| WebClient.Page.Send | web/src/ws.ts:46-52 | Sends on a socket that is open; while it is opening or closing, or without one, queues, or drops when 20 are queued; with the outcome `FramesAreThoseAsked` tells. |
| WebClient.Page.ScheduleReconnect | web/src/ws.ts:284-300 | At most one pending timer; slow polling after 30 seconds. |
| WebClient.Page.CloseSocket | web/src/ws.ts:303-315 | Neither timer nor socket is left, and no handler on the old socket. |
| WebClient.Page.Connect | web/src/ws.ts:318-358 | One new socket replaces whatever there was. |
| WebClient.Page.Disconnect | web/src/ws.ts:361-382 | Says goodbye on an open socket and resets the machine. |
| WebClient.Page.Retry | web/src/ws.ts:385-390 | Starts over with a fresh backoff. |
| WebClient.Page.OnOpen | web/src/ws.ts:331-345 | Discards stale frames and joins. |
| WebClient.Page.OnClose | web/src/ws.ts:349-353 | Forgets the socket and schedules. |
| WebClient.Page.OnTimer | web/src/ws.ts:296-299 | The reconnect callback: the timer is gone and a new socket is opened for the same room. |
| WebClient.Page.HandleMessage | web/src/ws.ts:71-278 | Reduces the message; a cleared room is joined again. |

## Left out

- WebSocket accept, read, write and ping, close frames, HTTP serving, security headers, signals and CloseAll's close frames: input, output and library behaviour.
- JSON encoding: a frame that does not parse, or has an unknown type, is the command `Malformed` with the answer its handler gives; error texts are reduced to their codes.
- The browser's components, toasts, `selectedCard`, `actionPending`, presence detection, local storage and the countdown display.
- Randomness: session ids, hex suffixes and jitter are inputs.
- `clientIP`, allowed origins and environment parsing; `RoomCount`, `ConnectionCount` and `Uptime` only read.
- The room's `CreatedAt`, which nothing reads, and the error of `NewRoom` for an empty id, which the id pattern rules out before.
- The time of last activity is an atomic the collector reads without the room's lock (internal/domain/room.go:94-107), so reading it is not a lock action in `Locking`.
- The internals of channels, `sync.Once` and `sync.RWMutex` beyond which calls block; data races; the choice among ready cases of `select`.
- The collector's first phase inside `Registry` runs: its candidate list may be any list there, since the second phase checks again.
- Floating-point rounding of buckets, delays and statistics; the wrap-around of Go integers, which no counter here approaches.
- Registry.RoomManager.DeleteCandidates: models the loop without other goroutines in between; those are in the runs of `Registry.Step`.
- Whole runs in which two handlers' broadcasts are queued in the other order than they held the room lock: `Overtaking` and `Reordering` treat one overtaken room_state, one clearing and neighbouring messages, not such runs.
- Server.Hub.Dispatch: takes a handler as one step and the answer of the room-creation limiter as an input.
