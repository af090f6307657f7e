/** The registry of rooms at the granularity of its locks (internal/server/room_manager.go): goroutines that
    obtain, use and register with rooms, interleaved with the garbage collector's captured time, candidate
    list, checks and deletions. */
module Registry {
  import opened Common
  import opened Names
  import opened RoomState

  type RoomId = string
  type ClientId = nat

  /** Room objects are numbered in order of creation; an id names at most one of them at a time. */
  type RoomNumber = nat

  const ROOM_EXPIRY: Time := 24 * 3600 * SECOND

  /** The two maps of the manager, and each room object's time of last activity. */
  datatype Shelf = Shelf(rooms: map<RoomId, RoomNumber>, clients: map<RoomId, set<ClientId>>, lastActivity: seq<Time>)

  function ClientsOf(s: Shelf, id: RoomId): set<ClientId> { if id in s.clients then s.clients[id] else {} }

  function GetOrCreate(s: Shelf, id: RoomId, now: Time): (Shelf, RoomNumber) {
    if id in s.rooms then (s, s.rooms[id])
    else
      var r := |s.lastActivity|;
      (Shelf(s.rooms[id := r], s.clients[id := {}], s.lastActivity + [now]), r)
  }

  function Registered(s: Shelf, id: RoomId, c: ClientId): Shelf {
    s.(clients := s.clients[id := ClientsOf(s, id) + {c}])
  }

  function Unregistered(s: Shelf, id: RoomId, c: ClientId): Shelf {
    if id in s.clients then s.(clients := s.clients[id := s.clients[id] - {c}]) else s
  }

  /** The check made in both phases of a collection. */
  predicate Stale(s: Shelf, id: RoomId, at: Time) {
    && id in s.rooms && s.rooms[id] < |s.lastActivity|
    && ClientsOf(s, id) == {}
    && at - s.lastActivity[s.rooms[id]] > ROOM_EXPIRY
  }

  function Deleted(s: Shelf, id: RoomId): Shelf { s.(rooms := s.rooms - {id}, clients := s.clients - {id}) }

  /** The collector between its steps.  Collected: the time is captured and candidates are listed, no lock is
      held.  Sweeping and Deciding: the manager is write-locked; Deciding has just found todo[0] stale. */
  datatype Collector =
    | Resting
    | Collected(at: Time, todo: seq<RoomId>)
    | Sweeping(at: Time, todo: seq<RoomId>)
    | Deciding(at: Time, todo: seq<RoomId>)

  datatype Use = Use(room: RoomNumber, at: Time)

  /** `held` is what a join handler got from GetOrCreateRoom; `uses` is the history of all activity. */
  datatype World = World(shelf: Shelf, held: map<ClientId, (RoomId, RoomNumber)>, gc: Collector, clock: Time,
                         uses: seq<Use>)

  /** Touch is any operation on a room object under its own lock, Join the one of a join handler. */
  datatype Event =
    | Obtain(client: ClientId, id: RoomId, at: Time)
    | Join(client: ClientId, at: Time)
    | Register(client: ClientId)
    | Unregister(client: ClientId, id: RoomId)
    | Touch(room: RoomNumber, at: Time)
    | GcCollect(at: Time, candidates: seq<RoomId>)
    | GcLock
    | GcCheck
    | GcDelete
    | GcUnlock

  predicate ManagerFree(w: World) { w.gc.Resting? || w.gc.Collected? }

  function Used(w: World, r: RoomNumber, now: Time): World {
    if r < |w.shelf.lastActivity|
    then w.(shelf := w.shelf.(lastActivity := w.shelf.lastActivity[r := now]), uses := w.uses + [Use(r, now)],
            clock := now)
    else w
  }

  function Obtained(w: World, c: ClientId, id: RoomId, now: Time): World {
    var (shelf, r) := GetOrCreate(w.shelf, id, now);
    w.(shelf := shelf, held := w.held[c := (id, r)], clock := now,
       uses := if id in w.shelf.rooms then w.uses else w.uses + [Use(r, now)])
  }

  /** One step; a step that needs the manager while the collector has it locked does not happen yet. */
  function Step(w: World, e: Event): World {
    match e
    case Obtain(c, id, now) => if ManagerFree(w) then Obtained(w, c, id, now) else w
    case Join(c, now) => if c in w.held then Used(w, w.held[c].1, now) else w
    case Touch(r, now) => Used(w, r, now)
    case Register(c) =>
      if ManagerFree(w) && c in w.held then w.(shelf := Registered(w.shelf, w.held[c].0, c)) else w
    case Unregister(c, id) => if ManagerFree(w) then w.(shelf := Unregistered(w.shelf, id, c)) else w
    case GcCollect(now, candidates) =>
      if !w.gc.Resting? then w
      else w.(gc := if candidates == [] then Resting else Collected(now, candidates), clock := now)
    case GcLock => if w.gc.Collected? then w.(gc := Sweeping(w.gc.at, w.gc.todo)) else w
    case GcCheck =>
      if !(w.gc.Sweeping? && w.gc.todo != []) then w
      else if Stale(w.shelf, w.gc.todo[0], w.gc.at) then w.(gc := Deciding(w.gc.at, w.gc.todo))
      else w.(gc := Sweeping(w.gc.at, w.gc.todo[1..]))
    case GcDelete =>
      if !(w.gc.Deciding? && w.gc.todo != []) then w
      else w.(shelf := Deleted(w.shelf, w.gc.todo[0]), gc := Sweeping(w.gc.at, w.gc.todo[1..]))
    case GcUnlock => if w.gc.Sweeping? && w.gc.todo == [] then w.(gc := Resting) else w
  }

  const EMPTY := World(Shelf(map[], map[], []), map[], Resting, 0, [])

  function Run(w: World, events: seq<Event>): World
    decreases |events|
  {
    if events == [] then w else Run(Step(w, events[0]), events[1..])
  }

  function TimeOf(e: Event): Option<Time> {
    match e
    case Obtain(_, _, now) => Some(now)
    case Join(_, now) => Some(now)
    case Touch(_, now) => Some(now)
    case GcCollect(now, _) => Some(now)
    case _ => None
  }

  /** The clock never goes back. */
  predicate Timely(w: World, e: Event) { TimeOf(e).Some? ==> w.clock <= TimeOf(e).value }

  predicate WellTimed(w: World, events: seq<Event>)
    decreases |events|
  {
    events == [] || (Timely(w, events[0]) && WellTimed(Step(w, events[0]), events[1..]))
  }

  // ----- what every reachable state satisfies -----

  /** The room object was not used in the day before `at`. */
  ghost predicate UnusedTheDayBefore(w: World, r: RoomNumber, at: Time) {
    forall i :: 0 <= i < |w.uses| && w.uses[i].room == r ==> w.uses[i].at < at - 86_400 * SECOND || at <= w.uses[i].at
  }

  /** What the collector has decided on has no clients and was not used in the day before its time. */
  ghost predicate DecisionOk(w: World) {
    w.gc.Deciding? ==>
      && w.gc.todo != [] && w.gc.todo[0] in w.shelf.rooms
      && ClientsOf(w.shelf, w.gc.todo[0]) == {}
      && UnusedTheDayBefore(w, w.shelf.rooms[w.gc.todo[0]], w.gc.at)
  }

  ghost predicate NumbersOk(w: World) {
    && (forall id :: id in w.shelf.rooms ==> w.shelf.rooms[id] < |w.shelf.lastActivity|)
    && (forall c :: c in w.held ==> w.held[c].1 < |w.shelf.lastActivity|)
  }

  /** The recorded activity is the latest use, and nothing lies in the future. */
  ghost predicate ActivityOk(w: World) {
    && (forall r :: 0 <= r < |w.shelf.lastActivity| ==> w.shelf.lastActivity[r] <= w.clock)
    && (forall i :: 0 <= i < |w.uses| ==> w.uses[i].room < |w.shelf.lastActivity|
                                          && w.uses[i].at <= w.shelf.lastActivity[w.uses[i].room])
    && (!w.gc.Resting? ==> w.gc.at <= w.clock)
  }

  ghost predicate WorldOk(w: World) { NumbersOk(w) && ActivityOk(w) && DecisionOk(w) }

  lemma StepKeepsNumbersOk(w: World, e: Event)
    requires NumbersOk(w)
    ensures NumbersOk(Step(w, e))
  {
  }

  lemma StepKeepsActivityOk(w: World, e: Event)
    requires NumbersOk(w) && ActivityOk(w) && Timely(w, e)
    ensures ActivityOk(Step(w, e))
  {
  }

  lemma StepKeepsDecisionOk(w: World, e: Event)
    requires WorldOk(w) && Timely(w, e)
    ensures DecisionOk(Step(w, e))
  {
    var w' := Step(w, e);
    if e.GcCheck? && w.gc.Sweeping? && w'.gc.Deciding? {
      assert Stale(w.shelf, w'.gc.todo[0], w'.gc.at);
    }
  }

  lemma StepKeepsWorldOk(w: World, e: Event)
    requires WorldOk(w) && Timely(w, e)
    ensures WorldOk(Step(w, e))
  {
    StepKeepsNumbersOk(w, e);
    StepKeepsActivityOk(w, e);
    StepKeepsDecisionOk(w, e);
  }

  lemma {:induction false} RunKeepsWorldOk(w: World, events: seq<Event>)
    requires WorldOk(w) && WellTimed(w, events)
    ensures WorldOk(Run(w, events))
    decreases |events|
  {
    if events == [] {
    } else {
      StepKeepsWorldOk(w, events[0]);
      RunKeepsWorldOk(Step(w, events[0]), events[1..]);
    }
  }

  // ----- who is counted as a client -----

  /** The event puts client `c` into the set of clients of `id`. */
  predicate Registers(w: World, e: Event, id: RoomId, c: ClientId) {
    e == Register(c) && ManagerFree(w) && c in w.held && w.held[c].0 == id
  }

  /** The event takes client `c` out of it, or the set goes with its room, or starts anew with a new room. */
  predicate EndsRegistration(w: World, e: Event, id: RoomId, c: ClientId) {
    || (e == Unregister(c, id) && ManagerFree(w))
    || (e == GcDelete && w.gc.Deciding? && w.gc.todo != [] && w.gc.todo[0] == id)
    || (e.Obtain? && e.id == id && ManagerFree(w) && id !in w.shelf.rooms)
  }

  /** The run's event number `k` registers the client under the id, and nothing after it ends that. */
  ghost predicate StandingRegistration(events: seq<Event>, id: RoomId, c: ClientId, k: int) {
    && 0 <= k < |events| && Registers(Run(EMPTY, events[..k]), events[k], id, c)
    && forall j :: k < j < |events| ==> !EndsRegistration(Run(EMPTY, events[..j]), events[j], id, c)
  }

  lemma ClientsAfterEvent(w: World, e: Event, id: RoomId, c: ClientId)
    ensures c in ClientsOf(Step(w, e).shelf, id) <==>
              Registers(w, e, id, c) || (c in ClientsOf(w.shelf, id) && !EndsRegistration(w, e, id, c))
  {
  }

  lemma {:induction false} RunLast(w: World, events: seq<Event>)
    requires events != []
    ensures Run(w, events) == Step(Run(w, events[..|events| - 1]), events[|events| - 1])
    decreases |events|
  {
    if |events| > 1 {
      RunLast(Step(w, events[0]), events[1..]);
      assert events[..|events| - 1][1..] == events[1..][..|events| - 2];
    }
  }

  lemma PrefixRun(events: seq<Event>, n: nat, j: int)
    requires 0 <= j < n <= |events|
    ensures events[..n][..j] == events[..j] && events[..n][j] == events[j]
  {
  }

  lemma StandingGoesOn(events: seq<Event>, id: RoomId, c: ClientId, k: int)
    requires events != [] && k < |events| - 1
    ensures var n := |events| - 1;
            StandingRegistration(events, id, c, k)
            <==> StandingRegistration(events[..n], id, c, k)
                 && !EndsRegistration(Run(EMPTY, events[..n]), events[n], id, c)
  {
    var n := |events| - 1;
    forall j | 0 <= j < n
      ensures events[..n][..j] == events[..j] && events[..n][j] == events[j]
    {
      PrefixRun(events, n, j);
    }
  }

  /** A client is in the set under an id exactly when the history has a registration under that id after which came
      no unregistration of that client, no deletion of the id and no creation of a room under it. */
  lemma {:induction false} ClientsAreTheRegistered(events: seq<Event>, id: RoomId, c: ClientId)
    ensures c in ClientsOf(Run(EMPTY, events).shelf, id) <==> exists k :: StandingRegistration(events, id, c, k)
  {
    if events == [] {
    } else {
      var n := |events| - 1;
      var w, e := Run(EMPTY, events[..n]), events[n];
      ClientsAreTheRegistered(events[..n], id, c);
      RunLast(EMPTY, events);
      ClientsAfterEvent(w, e, id, c);
      if Registers(w, e, id, c) {
        assert StandingRegistration(events, id, c, n);
      } else if c in ClientsOf(w.shelf, id) && !EndsRegistration(w, e, id, c) {
        var k :| StandingRegistration(events[..n], id, c, k);
        StandingGoesOn(events, id, c, k);
      } else if k :| StandingRegistration(events, id, c, k) {
        StandingGoesOn(events, id, c, k);
      }
    }
  }

  ghost predicate GoesBy(w: World, id: RoomId, r: RoomNumber) { id in w.shelf.rooms && w.shelf.rooms[id] == r }

  lemma OnlyDeletionTakesAway(w: World, e: Event, id: RoomId, r: RoomNumber)
    requires WorldOk(w) && GoesBy(w, id, r) && !GoesBy(Step(w, e), id, r)
    ensures e == GcDelete && w.gc.Deciding? && w.gc.todo != [] && w.gc.todo[0] == id
  {
  }

  /** A room is only ever removed by the collector, and then nobody's registration under its id stands in the
      history, and it was not used in the day before the collector's captured time, whatever ran in between. */
  lemma OnlyStaleRoomsAreDeleted(events: seq<Event>, e: Event, id: RoomId, r: RoomNumber)
    requires WellTimed(EMPTY, events) && Timely(Run(EMPTY, events), e)
    requires GoesBy(Run(EMPTY, events), id, r) && !GoesBy(Step(Run(EMPTY, events), e), id, r)
    ensures var w := Run(EMPTY, events);
            && e == GcDelete && w.gc.Deciding? && w.gc.at <= w.clock
            && ClientsOf(w.shelf, id) == {} && UnusedTheDayBefore(w, r, w.gc.at)
    ensures forall c, k :: !StandingRegistration(events, id, c, k)
  {
    RunKeepsWorldOk(EMPTY, events);
    OnlyDeletionTakesAway(Run(EMPTY, events), e, id, r);
    forall c, k
      ensures !StandingRegistration(events, id, c, k)
    {
      ClientsAreTheRegistered(events, id, c);
    }
  }

  /** GetOrCreateRoom gives the room that goes by the id from then on: the one that did, or a new one with no clients,
      created now. */
  lemma ObtainGivesTheRoom(w: World, c: ClientId, id: RoomId, now: Time)
    requires ManagerFree(w)
    ensures var w' := Step(w, Obtain(c, id, now));
            && c in w'.held && w'.held[c].0 == id && GoesBy(w', id, w'.held[c].1)
            && (forall d :: d in w.held && d != c ==> d in w'.held && w'.held[d] == w.held[d])
            && (forall i, r :: GoesBy(w, i, r) ==> GoesBy(w', i, r))
            && (id !in w.shelf.rooms ==>
                  && w'.held[c].1 == |w.shelf.lastActivity| && w'.shelf.lastActivity == w.shelf.lastActivity + [now]
                  && ClientsOf(w'.shelf, id) == {})
            && (id in w.shelf.rooms ==> w'.shelf == w.shelf)
  {
  }

  // ----- does a room that was just joined live until its client is registered? -----

  /** The collector has found the room under this id stale and is about to delete it. */
  predicate Doomed(w: World, id: RoomId) { w.gc.Deciding? && w.gc.todo != [] && w.gc.todo[0] == id }

  predicate NotAfter(events: seq<Event>, limit: Time) {
    forall i :: 0 <= i < |events| ==> TimeOf(events[i]).Some? ==> TimeOf(events[i]).value <= limit
  }

  /** In use within the last day, and not doomed. */
  ghost predicate Safe(w: World, id: RoomId, r: RoomNumber, used: Time) {
    && GoesBy(w, id, r) && !Doomed(w, id)
    && r < |w.shelf.lastActivity| && used <= w.shelf.lastActivity[r]
    && w.clock <= used + ROOM_EXPIRY
  }

  lemma SafeStep(w: World, id: RoomId, r: RoomNumber, used: Time, e: Event)
    requires WorldOk(w) && Timely(w, e) && Safe(w, id, r, used)
    requires TimeOf(e).Some? ==> TimeOf(e).value <= used + ROOM_EXPIRY
    ensures Safe(Step(w, e), id, r, used)
  {
  }

  lemma {:induction false} SafeRoomStays(w: World, id: RoomId, r: RoomNumber, used: Time, events: seq<Event>)
    requires WorldOk(w) && WellTimed(w, events) && NotAfter(events, used + ROOM_EXPIRY) && Safe(w, id, r, used)
    ensures Safe(Run(w, events), id, r, used)
    decreases |events|
  {
    if events == [] {
    } else {
      StepKeepsWorldOk(w, events[0]);
      SafeStep(w, id, r, used, events[0]);
      SafeRoomStays(Step(w, events[0]), id, r, used, events[1..]);
    }
  }

  /** The room object no longer goes by this id, or is about to lose it. */
  ghost predicate Lost(w: World, id: RoomId, r: RoomNumber) {
    r < |w.shelf.lastActivity| && (!GoesBy(w, id, r) || Doomed(w, id))
  }

  lemma LostStep(w: World, id: RoomId, r: RoomNumber, e: Event)
    requires Lost(w, id, r)
    ensures Lost(Step(w, e), id, r)
  {
  }

  lemma {:induction false} LostRoomStaysLost(w: World, id: RoomId, r: RoomNumber, events: seq<Event>)
    requires Lost(w, id, r)
    ensures Lost(Run(w, events), id, r)
    decreases |events|
  {
    if events == [] {
    } else {
      LostStep(w, id, r, events[0]);
      LostRoomStaysLost(Step(w, events[0]), id, r, events[1..]);
    }
  }

  /** Within a day of its join, and once the manager is free for RegisterClient, the joined room is still the
      one under its id exactly when, at the join, it was so and the collector had not just decided to delete
      it: the collector's check and its deletion are not one step to a join, which holds only the room. */
  lemma JoinedRoomSurvivesIff(before: seq<Event>, c: ClientId, now: Time, between: seq<Event>)
    requires var w := Run(EMPTY, before);
             && WellTimed(EMPTY, before) && c in w.held && w.clock <= now
             && WellTimed(Step(w, Join(c, now)), between) && NotAfter(between, now + ROOM_EXPIRY)
             && ManagerFree(Run(Step(w, Join(c, now)), between))
    ensures var w := Run(EMPTY, before);
            var (id, r) := w.held[c];
            GoesBy(Run(Step(w, Join(c, now)), between), id, r) <==> GoesBy(w, id, r) && !Doomed(w, id)
  {
    var w := Run(EMPTY, before);
    var (id, r) := w.held[c];
    RunKeepsWorldOk(EMPTY, before);
    StepKeepsWorldOk(w, Join(c, now));
    var joined := Step(w, Join(c, now));
    if GoesBy(w, id, r) && !Doomed(w, id) {
      SafeRoomStays(joined, id, r, now, between);
    } else {
      LostRoomStaysLost(joined, id, r, between);
    }
  }

  lemma RunFirst(w: World, e: Event, rest: seq<Event>)
    ensures Run(w, [e] + rest) == Run(Step(w, e), rest)
    ensures WellTimed(w, [e] + rest) <==> Timely(w, e) && WellTimed(Step(w, e), rest)
  {
    assert ([e] + rest)[1..] == rest;
  }

  /** Two steps whose outcomes are known. */
  lemma RunFirstTwo(w: World, a: Event, w1: World, b: Event, w2: World, rest: seq<Event>)
    requires w1 == Step(w, a) && Timely(w, a) && w2 == Step(w1, b) && Timely(w1, b)
    ensures Run(w, [a, b] + rest) == Run(w2, rest)
    ensures WellTimed(w2, rest) ==> WellTimed(w, [a, b] + rest)
  {
    RunFirst(w1, b, rest);
    RunFirst(w, a, [b] + rest);
    assert [a, b] + rest == [a] + ([b] + rest);
  }

  /** A room left alone for a day, and the collector just about to delete it. */
  function DecidedWorld(c: ClientId, id: RoomId): World {
    World(Shelf(map[id := 0], map[id := {}], [0]), map[c := (id, 0)], Deciding(ROOM_EXPIRY + 1, [id]),
          ROOM_EXPIRY + 1, [Use(0, 0)])
  }

  lemma CollectorDecides(c: ClientId, id: RoomId, rest: seq<Event>) returns (events: seq<Event>)
    ensures Run(EMPTY, events) == Run(DecidedWorld(c, id), rest)
    ensures WellTimed(DecidedWorld(c, id), rest) ==> WellTimed(EMPTY, events)
  {
    var g, decided := ROOM_EXPIRY + 1, DecidedWorld(c, id);
    var obtained := decided.(gc := Resting, clock := 0);
    var collected, locked := decided.(gc := Collected(g, [id])), decided.(gc := Sweeping(g, [id]));
    assert obtained == Step(EMPTY, Obtain(c, id, 0));
    assert collected == Step(obtained, GcCollect(g, [id]));
    assert locked == Step(collected, GcLock);
    assert decided == Step(locked, GcCheck);
    RunFirstTwo(collected, GcLock, locked, GcCheck, decided, rest);
    RunFirstTwo(EMPTY, Obtain(c, id, 0), obtained, GcCollect(g, [id]), collected, [GcLock, GcCheck] + rest);
    events := [Obtain(c, id, 0), GcCollect(g, [id])] + ([GcLock, GcCheck] + rest);
  }

  lemma JoinComesTooLate(c: ClientId, id: RoomId) returns (events: seq<Event>, w: World)
    ensures WellTimed(DecidedWorld(c, id), events) && w == Run(DecidedWorld(c, id), events)
    ensures id !in w.shelf.rooms && ClientsOf(w.shelf, id) == {c}
  {
    var g, decided := ROOM_EXPIRY + 1, DecidedWorld(c, id);
    var joined := decided.(shelf := decided.shelf.(lastActivity := [g]), uses := [Use(0, 0), Use(0, g)]);
    var deleted := joined.(shelf := Deleted(joined.shelf, id), gc := Sweeping(g, []));
    var freed := deleted.(gc := Resting);
    assert joined == Step(decided, Join(c, g));
    assert [id][1..] == [] && deleted == Step(joined, GcDelete);
    assert freed == Step(deleted, GcUnlock);
    w := Step(freed, Register(c));
    RunFirstTwo(deleted, GcUnlock, freed, Register(c), w, []);
    RunFirstTwo(decided, Join(c, g), joined, GcDelete, deleted, [GcUnlock, Register(c)] + []);
    events := [Join(c, g), GcDelete] + ([GcUnlock, Register(c)] + []);
  }

  /** It does happen: a join at the wrong moment leaves a client registered under an id without a room. */
  lemma JoinedRoomCanVanish(c: ClientId, id: RoomId) returns (events: seq<Event>)
    ensures WellTimed(EMPTY, events)
    ensures id !in Run(EMPTY, events).shelf.rooms && ClientsOf(Run(EMPTY, events).shelf, id) == {c}
  {
    var rest, _ := JoinComesTooLate(c, id);
    events := CollectorDecides(c, id, rest);
  }

  // ----- the manager in place, one method per stretch under its lock -----

  /** The second phase of a collection with nothing in between. */
  function SweptAll(s: Shelf, at: Time, candidates: seq<RoomId>): Shelf
    decreases |candidates|
  {
    if candidates == [] then s
    else SweptAll(if Stale(s, candidates[0], at) then Deleted(s, candidates[0]) else s, at, candidates[1..])
  }

  method NewRoom(id: RoomId, name: Text, createdBy: Text, now: Time) returns (room: Room)
    ensures fresh(room) && room.lastActivity == now
  {
    room := new Room(id, name, createdBy, now);
    assert room.Data().lastActivity == now;
  }

  class RoomManager {
    var rooms: map<RoomId, Room>
    var clients: map<RoomId, set<ClientId>>
    ghost var created: seq<Room>
    ghost var number: map<Room, RoomNumber>

    constructor ()
      ensures Valid() && View() == Shelf(map[], map[], [])
    {
      rooms, clients, created, number := map[], map[], [], map[];
    }

    /** Every room in the map has the number of its creation. */
    ghost predicate Valid()
      reads this
    {
      && (forall r :: r in number ==> number[r] < |created| && created[number[r]] == r)
      && (forall id :: id in rooms ==> rooms[id] in number)
    }

    ghost function Activity(): seq<Time>
      reads this, created
    {
      seq(|created|, i requires 0 <= i < |created| reads this, created => created[i].lastActivity)
    }

    ghost function Numbers(): map<RoomId, RoomNumber>
      requires Valid()
      reads this
    {
      map id | id in rooms :: number[rooms[id]]
    }

    ghost function View(): Shelf
      requires Valid()
      reads this, created
    {
      Shelf(Numbers(), clients, Activity())
    }

    method GetOrCreateRoom(id: RoomId, name: Text, createdBy: Text, now: Time) returns (room: Room)
      requires Valid()
      modifies this
      ensures Valid() && room in number
      ensures (View(), number[room]) == GetOrCreate(old(View()), id, now)
    {
      if id in rooms {
        return rooms[id];
      }
      room := AddRoom(id, name, createdBy, now);
    }

    twostate lemma NumbersGrew(id: RoomId, new room: Room)
      requires old(Valid()) && Valid() && id in rooms && rooms[id] == room
      requires rooms == old(rooms)[id := room] && number == old(number)[room := |old(created)|]
      requires forall k :: k in old(rooms) ==> old(rooms)[k] != room
      ensures Numbers() == old(Numbers())[id := |old(created)|]
    {
    }

    method AddRoom(id: RoomId, name: Text, createdBy: Text, now: Time) returns (room: Room)
      requires Valid() && id !in rooms
      modifies this
      ensures Valid() && room in number
      ensures (View(), number[room]) == GetOrCreate(old(View()), id, now)
    {
      room := NewRoom(id, name, createdBy, now);
      rooms := rooms[id := room];
      clients := clients[id := {}];
      created, number := created + [room], number[room := |created|];
      assert Activity() == old(Activity()) + [now];
      NumbersGrew(id, room);
    }

    method RegisterClient(id: RoomId, c: ClientId)
      requires Valid()
      modifies this`clients
      ensures Valid() && View() == Registered(old(View()), id, c)
    {
      if id !in clients {
        clients := clients[id := {}];
      }
      clients := clients[id := clients[id] + {c}];
    }

    method UnregisterClient(id: RoomId, c: ClientId)
      requires Valid()
      modifies this`clients
      ensures Valid() && View() == Unregistered(old(View()), id, c)
    {
      if id in clients {
        clients := clients[id := clients[id] - {c}];
      }
    }

    /** The check of one room, as both phases make it. */
    method IsStale(id: RoomId, now: Time) returns (stale: bool)
      requires Valid()
      ensures stale == Stale(View(), id, now)
    {
      if id !in rooms {
        return false;
      }
      assert View().lastActivity[number[rooms[id]]] == rooms[id].lastActivity;
      var members := if id in clients then clients[id] else {};
      stale := members == {} && now - rooms[id].lastActivity > ROOM_EXPIRY;
    }

    /** The first phase: the stale rooms, in whatever order the map yields them. */
    method ListCandidates(now: Time) returns (candidates: seq<RoomId>)
      requires Valid()
      ensures forall id :: id in candidates <==> Stale(View(), id, now)
    {
      candidates := [];
      var remaining := rooms.Keys;
      while remaining != {}
        invariant remaining <= rooms.Keys
        invariant forall id :: id in candidates <==> id in rooms.Keys - remaining && Stale(View(), id, now)
      {
        var id :| id in remaining;
        var stale := IsStale(id, now);
        if stale {
          candidates := candidates + [id];
        }
        remaining := remaining - {id};
      }
    }

    method DeleteRoom(id: RoomId)
      requires Valid()
      modifies this`rooms, this`clients
      ensures Valid() && View() == Deleted(old(View()), id)
    {
      rooms := rooms - {id};
      clients := clients - {id};
      assert Numbers() == old(Numbers()) - {id};
    }

    /** The second phase: each candidate is checked again before it is deleted. */
    method DeleteCandidates(now: Time, candidates: seq<RoomId>)
      requires Valid()
      modifies this`rooms, this`clients
      ensures Valid() && View() == SweptAll(old(View()), now, candidates)
    {
      for i := 0 to |candidates|
        invariant Valid() && SweptAll(View(), now, candidates[i..]) == SweptAll(old(View()), now, candidates)
      {
        assert candidates[i..][0] == candidates[i] && candidates[i..][1..] == candidates[i + 1..];
        var stale := IsStale(candidates[i], now);
        if stale {
          DeleteRoom(candidates[i]);
        }
      }
    }

    /** A collection that nothing interrupts leaves exactly the rooms that are not stale. */
    method CollectGarbage(now: Time)
      requires Valid()
      modifies this`rooms, this`clients
      ensures Valid()
      ensures forall id :: id in View().rooms <==> id in old(View()).rooms && !Stale(old(View()), id, now)
      ensures forall id :: id in View().rooms ==> View().rooms[id] == old(View()).rooms[id]
                                                  && ClientsOf(View(), id) == ClientsOf(old(View()), id)
    {
      var candidates := ListCandidates(now);
      if candidates == [] {
        return;
      }
      SweepRemovesStale(View(), now, candidates);
      DeleteCandidates(now, candidates);
    }
  }

  lemma {:induction false} SweepRemovesStale(s: Shelf, at: Time, candidates: seq<RoomId>)
    ensures var swept := SweptAll(s, at, candidates);
            && swept.lastActivity == s.lastActivity
            && (forall id :: id in swept.rooms <==> id in s.rooms && !(id in candidates && Stale(s, id, at)))
            && (forall id :: id in swept.rooms ==> swept.rooms[id] == s.rooms[id])
            && (forall id :: id in swept.rooms ==> ClientsOf(swept, id) == ClientsOf(s, id))
    decreases |candidates|
  {
    if candidates == [] {
    } else {
      SweepRemovesStale(if Stale(s, candidates[0], at) then Deleted(s, candidates[0]) else s, at, candidates[1..]);
    }
  }

  /** The collector's own steps, taken without anything in between, do what the uninterrupted phase does, and end. */
  lemma {:induction false} SweepRunsToItsEnd(w: World, at: Time, todo: seq<RoomId>) returns (steps: seq<Event>)
    requires w.gc == Sweeping(at, todo)
    ensures forall i :: 0 <= i < |steps| ==> steps[i].GcCheck? || steps[i].GcDelete? || steps[i].GcUnlock?
    ensures Run(w, steps) == w.(shelf := SweptAll(w.shelf, at, todo), gc := Resting)
    decreases |todo|
  {
    if todo == [] {
      steps := [GcUnlock];
      assert steps[1..] == [];
    } else {
      var checked := Step(w, GcCheck);
      if Stale(w.shelf, todo[0], at) {
        var rest := SweepRunsToItsEnd(Step(checked, GcDelete), at, todo[1..]);
        RunFirstTwo(w, GcCheck, checked, GcDelete, Step(checked, GcDelete), rest);
        steps := [GcCheck, GcDelete] + rest;
      } else {
        var rest := SweepRunsToItsEnd(checked, at, todo[1..]);
        RunFirst(w, GcCheck, rest);
        steps := [GcCheck] + rest;
      }
    }
  }
}
