/** The locks of the server and the order in which its goroutines take them (internal/server/ws.go,
    internal/server/room_manager.go, internal/server/client.go): every reachable state of any number of
    goroutines can go on, down to the last one finishing. */
module Locking {

  /** The write side of the manager's RWMutex is a lock among writers that also holds back new readers;
      a writer that has it then awaits the readers already in. */
  datatype LockName =
    | RoomLock(room: nat)
    | ManagerWrite
    | ClientLock(client: nat)
    | MessageLimiterLock(connection: nat)
    | LimiterLock
    | TrackerLock

  datatype Action = Acquire(lock: LockName) | Release(released: LockName) | AwaitReaders | BeginRead | EndRead

  datatype Hold = Hold(locks: set<LockName>, reading: bool, writing: bool)

  const FREE := Hold({}, false, false)

  /** A goroutine: what it holds, and what it has still to do with locks. */
  datatype Thread = Thread(hold: Hold, todo: seq<Action>)

  // ----- what a goroutine may do, and what the scheduler lets it -----

  ghost predicate Enabled(ts: seq<Thread>, i: nat) {
    && i < |ts| && ts[i].todo != []
    && match ts[i].todo[0]
       case Acquire(l) => forall j :: 0 <= j < |ts| ==> l !in ts[j].hold.locks
       case BeginRead => forall j :: 0 <= j < |ts| ==> ManagerWrite !in ts[j].hold.locks
       case AwaitReaders => forall j :: 0 <= j < |ts| ==> !ts[j].hold.reading
       case Release(_) => true
       case EndRead => true
  }

  function Perform(h: Hold, a: Action): Hold {
    match a
    case Acquire(l) => h.(locks := h.locks + {l})
    case Release(l) => h.(locks := h.locks - {l}, writing := h.writing && l != ManagerWrite)
    case AwaitReaders => h.(writing := true)
    case BeginRead => h.(reading := true)
    case EndRead => h.(reading := false)
  }

  function Advance(ts: seq<Thread>, i: nat): seq<Thread>
    requires i < |ts| && ts[i].todo != []
  {
    ts[i := Thread(Perform(ts[i].hold, ts[i].todo[0]), ts[i].todo[1..])]
  }

  // ----- the locking discipline -----

  function Rank(l: LockName): nat { if l.RoomLock? then 0 else 1 }

  /** Room locks come first and one at a time; nothing is taken under any other lock. */
  predicate Allowed(h: Hold, a: Action) {
    match a
    case Acquire(l) => !h.reading && forall k :: k in h.locks ==> Rank(k) < Rank(l)
    case Release(l) => l in h.locks && (l == ManagerWrite ==> h.writing)
    case AwaitReaders => ManagerWrite in h.locks && !h.reading && !h.writing
    case BeginRead => !h.reading && forall k :: k in h.locks ==> Rank(k) < 1
    case EndRead => h.reading
  }

  /** The actions keep to the discipline from `h` on and end holding `end`. */
  predicate Disciplined(h: Hold, todo: seq<Action>, end: Hold)
    decreases |todo|
  {
    if todo == [] then h == end
    else Allowed(h, todo[0]) && Disciplined(Perform(h, todo[0]), todo[1..], end)
  }

  /** Every goroutine keeps to the discipline and will end holding nothing. */
  ghost predicate AllDisciplined(ts: seq<Thread>) {
    forall i :: 0 <= i < |ts| ==> Disciplined(ts[i].hold, ts[i].todo, FREE)
  }

  predicate HoldOk(h: Hold) {
    && (h.reading ==> forall k :: k in h.locks ==> k.RoomLock?)
    && (h.writing ==> ManagerWrite in h.locks)
  }

  /** Mutual exclusion: no lock is held twice, and nobody reads the manager while somebody writes it. */
  ghost predicate Exclusive(ts: seq<Thread>) {
    && (forall i :: 0 <= i < |ts| ==> HoldOk(ts[i].hold))
    && (forall i, j :: 0 <= i < j < |ts| ==> ts[i].hold.locks !! ts[j].hold.locks)
    && (forall i, j :: 0 <= i < |ts| && 0 <= j < |ts| && ts[i].hold.writing ==> !ts[j].hold.reading)
  }

  lemma AdvanceKeepsDiscipline(ts: seq<Thread>, i: nat)
    requires AllDisciplined(ts) && i < |ts| && ts[i].todo != []
    ensures AllDisciplined(Advance(ts, i))
  {
  }

  lemma AdvanceKeepsExclusion(ts: seq<Thread>, i: nat)
    requires AllDisciplined(ts) && Exclusive(ts) && Enabled(ts, i)
    ensures Exclusive(Advance(ts, i))
  {
    assert Allowed(ts[i].hold, ts[i].todo[0]);
  }

  // ----- somebody can always go on -----

  predicate HoldsLeaf(h: Hold) { h.reading || exists k :: k in h.locks && Rank(k) == 1 }

  /** A goroutine under a leaf lock is about to leave it, or is a writer awaiting readers. */
  lemma LeafHolderGoesOn(t: Thread)
    requires Disciplined(t.hold, t.todo, FREE) && HoldsLeaf(t.hold)
    ensures t.todo != [] && (t.todo[0].Release? || t.todo[0].EndRead? || t.todo[0].AwaitReaders?)
    ensures t.hold.reading ==> t.todo[0].Release? || t.todo[0].EndRead?
  {
  }

  /** In any state of disciplined goroutines, if one is unfinished then one is not blocked. */
  lemma SomeoneCanStep(ts: seq<Thread>, u: nat) returns (i: nat)
    requires AllDisciplined(ts) && u < |ts| && ts[u].todo != []
    ensures Enabled(ts, i)
  {
    if j :| 0 <= j < |ts| && ts[j].hold.reading {
      LeafHolderGoesOn(ts[j]);
      return j;
    }
    if j :| 0 <= j < |ts| && HoldsLeaf(ts[j].hold) {
      LeafHolderGoesOn(ts[j]);
      return j;
    }
    if j :| 0 <= j < |ts| && ts[j].hold.locks != {} {
      var k :| k in ts[j].hold.locks;
      assert Rank(k) == 0;
      assert Disciplined(ts[j].hold, ts[j].todo, FREE);
      return j;
    }
    return u;
  }

  // ----- what the server's goroutines do with locks -----

  /** SessionID or SetSessionID. */
  function Session(c: nat): seq<Action> { [Acquire(ClientLock(c)), Release(ClientLock(c))] }

  function ReadManager(): seq<Action> { [BeginRead, EndRead] }

  function WriteManager(): seq<Action> { [Acquire(ManagerWrite), AwaitReaders, Release(ManagerWrite)] }

  function Leaf(l: LockName): seq<Action> { [Acquire(l), Release(l)] }

  function UnderRoom(r: nat, inner: seq<Action>): seq<Action> {
    [Acquire(RoomLock(r))] + inner + [Release(RoomLock(r))]
  }

  /** Queueing a message: a full buffer is logged with the client's session id. */
  datatype Receiver = Receiver(client: nat, full: bool)

  function SendTo(to: Receiver): seq<Action> { if to.full then Session(to.client) else [] }

  function SendToAll(tos: seq<Receiver>): seq<Action> {
    if tos == [] then [] else SendTo(tos[0]) + SendToAll(tos[1..])
  }

  function Broadcast(tos: seq<Receiver>): seq<Action> { ReadManager() + SendToAll(tos) }

  /** How a command handler ends once it has left the room lock. */
  datatype Ending =
    | Refused(full: bool)
    | Told(tos: seq<Receiver>)
    | ToldTwice(first: seq<Receiver>, second: seq<Receiver>)
    | Silent

  function Finish(c: nat, named: bool, e: Ending): seq<seq<Action>> {
    var name := if named then Session(c) else [];
    match e
    case Refused(full) => [SendTo(Receiver(c, full))]
    case Told(tos) => [name, Broadcast(tos)]
    case ToldTwice(first, second) => [name, Broadcast(first), Broadcast(second)]
    case Silent => []
  }

  /** The lock-taking part of each handler and background job, one constructor per path through it.
      `c` is the handler's own client, `r` its room. */
  datatype Operation =
    | Connect
    | EndConnection
    | CheckMessageRate(connection: nat)
    | Answer(c: nat, full: bool)
    | NotJoined(c: nat, full: bool)
    | NoRoom(c: nat, full: bool)
    | JoinLimited(c: nat, full: bool)
    | JoinRefused(c: nat, r: nat, created: bool, full: bool)
    | Join(c: nat, r: nat, created: bool, full: bool, tos: seq<Receiver>)
    | Vote(c: nat, r: nat, ending: Ending)
    | Reveal(c: nat, r: nat, ending: Ending)
    | NewRound(c: nat, r: nat, ending: Ending)
    | ClearRoom(c: nat, r: nat, tos: seq<Receiver>)
    | UpdateName(c: nat, r: nat, ok: bool, ending: Ending)
    | PresenceOrRole(c: nat, r: nat, ending: Ending)
    | SetTimer(c: nat, r: nat, ending: Ending)
    | Leave(c: nat, r: nat, tos: seq<Receiver>)
    | Ping(c: nat, r: nat)
    | Disconnect(c: nat, r: nat, tos: seq<Receiver>)
    | DisconnectAlone(c: nat, joined: bool)
    | CollectGarbage(anyCandidates: bool)
    | SweepLimiter
    | CloseAll
    | CountRooms

  /** Begin of every command handler that finds its client joined and its room there. */
  function Enter(c: nat, r: nat, inner: seq<Action>): seq<seq<Action>> {
    [Session(c), ReadManager(), UnderRoom(r, inner)]
  }

  function CreationCheck(created: bool): seq<Action> { if created then Leaf(LimiterLock) else [] }

  /** The stretches of an operation, none of which leaves a lock held. */
  function Parts(op: Operation): seq<seq<Action>> {
    match op
    case Connect => [Leaf(LimiterLock), Leaf(TrackerLock)]
    case EndConnection => [Leaf(TrackerLock)]
    case CheckMessageRate(m) => [Leaf(MessageLimiterLock(m))]
    case Answer(c, full) => [SendTo(Receiver(c, full))]
    case NotJoined(c, full) => [Session(c), SendTo(Receiver(c, full))]
    case NoRoom(c, full) => [Session(c), ReadManager(), SendTo(Receiver(c, full))]
    case JoinLimited(c, full) => [ReadManager(), Leaf(LimiterLock), SendTo(Receiver(c, full))]
    case JoinRefused(c, r, created, full) =>
      [ReadManager(), CreationCheck(created), WriteManager(), UnderRoom(r, []), SendTo(Receiver(c, full))]
    case Join(c, r, created, full, tos) =>
      [ReadManager(), CreationCheck(created), WriteManager(), UnderRoom(r, Session(c) + WriteManager()),
       SendTo(Receiver(c, full)), Broadcast(tos)]
    case Vote(c, r, e) => Enter(c, r, Session(c) + Session(c)) + Finish(c, true, e)
    case Reveal(c, r, e) => Enter(c, r, []) + Finish(c, false, e)
    case NewRound(c, r, e) => Enter(c, r, []) + Finish(c, false, e)
    case ClearRoom(c, r, tos) => [Session(c), ReadManager(), Broadcast(tos), UnderRoom(r, [])]
    case UpdateName(c, r, ok, e) =>
      Enter(c, r, if ok then Session(c) + Session(c) else Session(c)) + Finish(c, true, e)
    case PresenceOrRole(c, r, e) => Enter(c, r, Session(c)) + Finish(c, true, e)
    case SetTimer(c, r, e) => Enter(c, r, []) + Finish(c, false, e)
    case Leave(c, r, tos) => Enter(c, r, Session(c)) + [Session(c), Broadcast(tos), WriteManager(), Session(c)]
    case Ping(c, r) => Enter(c, r, [])
    case Disconnect(c, r, tos) => Enter(c, r, []) + [Broadcast(tos), WriteManager()]
    case DisconnectAlone(c, joined) => [Session(c), if joined then ReadManager() else [], WriteManager()]
    case CollectGarbage(any) => [ReadManager(), if any then WriteManager() else []]
    case SweepLimiter => [Leaf(LimiterLock)]
    case CloseAll => [WriteManager()]
    case CountRooms => [ReadManager()]
  }

  function Chain(parts: seq<seq<Action>>): seq<Action> {
    if parts == [] then [] else parts[0] + Chain(parts[1..])
  }

  /** What a goroutine does that runs these operations one after the other. */
  function Program(ops: seq<Operation>): seq<Action> {
    if ops == [] then [] else Chain(Parts(ops[0])) + Program(ops[1..])
  }

  lemma {:induction false} DisciplineComposes(h: Hold, a: seq<Action>, mid: Hold, b: seq<Action>, end: Hold)
    requires Disciplined(h, a, mid) && Disciplined(mid, b, end)
    ensures Disciplined(h, a + b, end)
    decreases |a|
  {
    if a == [] {
      assert a + b == b;
    } else {
      assert (a + b)[1..] == a[1..] + b;
      DisciplineComposes(Perform(h, a[0]), a[1..], mid, b, end);
    }
  }

  /** At most one room lock held. */
  predicate AtMostARoom(h: Hold) {
    !h.reading && !h.writing && forall k :: k in h.locks ==> k.RoomLock?
  }

  /** Actions that can be done holding nothing or just a room, and that end as they began. */
  ghost predicate Block(a: seq<Action>) { forall h :: AtMostARoom(h) ==> Disciplined(h, a, h) }

  lemma BlocksCompose(a: seq<Action>, b: seq<Action>)
    requires Block(a) && Block(b)
    ensures Block(a + b)
  {
    forall h | AtMostARoom(h)
      ensures Disciplined(h, a + b, h)
    {
      DisciplineComposes(h, a, h, b, h);
    }
  }

  lemma LeafIsBlock(l: LockName)
    requires Rank(l) == 1 && l != ManagerWrite
    ensures Block(Leaf(l))
  {
    forall h | AtMostARoom(h)
      ensures Disciplined(h, Leaf(l), h)
    {
      assert Leaf(l)[1..] == [Release(l)];
      assert h.locks + {l} - {l} == h.locks;
    }
  }

  lemma ManagerBlocks()
    ensures Block(ReadManager()) && Block(WriteManager()) && Block([])
  {
    forall h | AtMostARoom(h)
      ensures Disciplined(h, ReadManager(), h) && Disciplined(h, WriteManager(), h)
    {
      assert ReadManager()[1..] == [EndRead];
      assert WriteManager()[1..] == [AwaitReaders, Release(ManagerWrite)];
      assert WriteManager()[1..][1..] == [Release(ManagerWrite)];
      assert h.locks + {ManagerWrite} - {ManagerWrite} == h.locks;
    }
  }

  lemma SessionIsBlock(c: nat)
    ensures Block(Session(c))
  {
    LeafIsBlock(ClientLock(c));
  }

  lemma {:induction false} BroadcastIsBlock(tos: seq<Receiver>)
    ensures Block(SendToAll(tos)) && Block(Broadcast(tos))
    decreases |tos|
  {
    ManagerBlocks();
    if tos == [] {
    } else {
      SendIsBlock(tos[0]);
      BroadcastIsBlock(tos[1..]);
      BlocksCompose(SendTo(tos[0]), SendToAll(tos[1..]));
    }
    BlocksCompose(ReadManager(), SendToAll(tos));
  }

  lemma SendIsBlock(to: Receiver)
    ensures Block(SendTo(to))
  {
    ManagerBlocks();
    SessionIsBlock(to.client);
  }

  /** From holding nothing back to holding nothing. */
  predicate Whole(a: seq<Action>) { Disciplined(FREE, a, FREE) }

  lemma WholesCompose(a: seq<Action>, b: seq<Action>)
    requires Whole(a) && Whole(b)
    ensures Whole(a + b)
  {
    DisciplineComposes(FREE, a, FREE, b, FREE);
  }

  lemma UnderRoomIsWhole(r: nat, inner: seq<Action>)
    requires Block(inner)
    ensures Whole(UnderRoom(r, inner))
  {
    var held := Hold({RoomLock(r)}, false, false);
    assert {} + {RoomLock(r)} == {RoomLock(r)} && {RoomLock(r)} - {RoomLock(r)} == {};
    assert Disciplined(held, inner, held);
    assert Disciplined(held, [Release(RoomLock(r))], FREE);
    DisciplineComposes(held, inner, held, [Release(RoomLock(r))], FREE);
    assert UnderRoom(r, inner)[1..] == inner + [Release(RoomLock(r))];
  }

  lemma StretchesAreWhole()
    ensures forall c: nat :: Whole(Session(c))
    ensures forall l: LockName :: Rank(l) == 1 && l != ManagerWrite ==> Whole(Leaf(l))
    ensures forall to: Receiver :: Whole(SendTo(to))
    ensures forall tos: seq<Receiver> :: Whole(Broadcast(tos))
    ensures Whole(ReadManager()) && Whole(WriteManager()) && Whole([])
  {
    forall c: nat
      ensures Whole(Session(c))
    {
      SessionIsBlock(c);
    }
    forall l: LockName | Rank(l) == 1 && l != ManagerWrite
      ensures Whole(Leaf(l))
    {
      LeafIsBlock(l);
    }
    forall to: Receiver
      ensures Whole(SendTo(to))
    {
      SendIsBlock(to);
    }
    forall tos: seq<Receiver>
      ensures Whole(Broadcast(tos))
    {
      BroadcastIsBlock(tos);
    }
    ManagerBlocks();
  }

  lemma RoomStretchesAreWhole(c: nat, r: nat)
    ensures Whole(UnderRoom(r, [])) && Whole(UnderRoom(r, Session(c)))
    ensures Whole(UnderRoom(r, Session(c) + Session(c))) && Whole(UnderRoom(r, Session(c) + WriteManager()))
  {
    SessionIsBlock(c);
    ManagerBlocks();
    BlocksCompose(Session(c), Session(c));
    BlocksCompose(Session(c), WriteManager());
    UnderRoomIsWhole(r, []);
    UnderRoomIsWhole(r, Session(c));
    UnderRoomIsWhole(r, Session(c) + Session(c));
    UnderRoomIsWhole(r, Session(c) + WriteManager());
  }

  ghost predicate AllWhole(parts: seq<seq<Action>>) { forall i :: 0 <= i < |parts| ==> Whole(parts[i]) }

  lemma EnterAndFinishAreWhole(c: nat, r: nat, inner: seq<Action>, named: bool, e: Ending)
    requires Whole(UnderRoom(r, inner))
    ensures AllWhole(Enter(c, r, inner)) && AllWhole(Finish(c, named, e))
    ensures AllWhole(Enter(c, r, inner) + Finish(c, named, e))
  {
    StretchesAreWhole();
  }

  predicate EndsByTelling(op: Operation) {
    op.Vote? || op.Reveal? || op.NewRound? || op.UpdateName? || op.PresenceOrRole? || op.SetTimer?
  }

  lemma TellingOperationsAreWhole(op: Operation)
    requires EndsByTelling(op)
    ensures AllWhole(Parts(op))
  {
    RoomStretchesAreWhole(op.c, op.r);
    match op {
      case Vote(c, r, e) => EnterAndFinishAreWhole(c, r, Session(c) + Session(c), true, e);
      case UpdateName(c, r, ok, e) =>
        EnterAndFinishAreWhole(c, r, if ok then Session(c) + Session(c) else Session(c), true, e);
      case PresenceOrRole(c, r, e) => EnterAndFinishAreWhole(c, r, Session(c), true, e);
      case Reveal(c, r, e) => EnterAndFinishAreWhole(c, r, [], false, e);
      case NewRound(c, r, e) => EnterAndFinishAreWhole(c, r, [], false, e);
      case SetTimer(c, r, e) => EnterAndFinishAreWhole(c, r, [], false, e);
    }
  }

  lemma JoinsAreWhole(op: Operation)
    requires op.Join? || op.JoinRefused? || op.JoinLimited?
    ensures AllWhole(Parts(op))
  {
    StretchesAreWhole();
    if !op.JoinLimited? {
      RoomStretchesAreWhole(op.c, op.r);
    }
  }

  lemma RoomVisitsAreWhole(op: Operation)
    requires op.ClearRoom? || op.Leave? || op.Ping? || op.Disconnect?
    ensures AllWhole(Parts(op))
  {
    StretchesAreWhole();
    RoomStretchesAreWhole(op.c, op.r);
  }

  lemma OperationsAreWhole(op: Operation)
    ensures AllWhole(Parts(op))
  {
    if EndsByTelling(op) {
      TellingOperationsAreWhole(op);
    } else if op.Join? || op.JoinRefused? || op.JoinLimited? {
      JoinsAreWhole(op);
    } else if op.ClearRoom? || op.Leave? || op.Ping? || op.Disconnect? {
      RoomVisitsAreWhole(op);
    } else {
      StretchesAreWhole();
    }
  }

  lemma {:induction false} ChainIsWhole(parts: seq<seq<Action>>)
    requires AllWhole(parts)
    ensures Whole(Chain(parts))
    decreases |parts|
  {
    if parts == [] {
    } else {
      ChainIsWhole(parts[1..]);
      WholesCompose(parts[0], Chain(parts[1..]));
    }
  }

  lemma {:induction false} ProgramsAreWhole(ops: seq<Operation>)
    ensures Whole(Program(ops))
    decreases |ops|
  {
    if ops == [] {
    } else {
      OperationsAreWhole(ops[0]);
      ChainIsWhole(Parts(ops[0]));
      ProgramsAreWhole(ops[1..]);
      WholesCompose(Chain(Parts(ops[0])), Program(ops[1..]));
    }
  }

  // ----- runs -----

  datatype Event = Spawn(ops: seq<Operation>) | Go(thread: nat)

  /** A goroutine that is blocked, or finished, stays as it is. */
  ghost function Step(ts: seq<Thread>, e: Event): seq<Thread> {
    match e
    case Spawn(ops) => ts + [Thread(FREE, Program(ops))]
    case Go(i) => if Enabled(ts, i) then Advance(ts, i) else ts
  }

  ghost function Run(start: seq<Thread>, events: seq<Event>): seq<Thread> {
    if events == [] then start else Step(Run(start, events[..|events| - 1]), events[|events| - 1])
  }

  lemma StepKeepsDiscipline(ts: seq<Thread>, e: Event)
    requires AllDisciplined(ts) && Exclusive(ts)
    ensures AllDisciplined(Step(ts, e)) && Exclusive(Step(ts, e))
  {
    match e {
      case Spawn(ops) => ProgramsAreWhole(ops);
      case Go(i) =>
        if Enabled(ts, i) {
          AdvanceKeepsDiscipline(ts, i);
          AdvanceKeepsExclusion(ts, i);
        }
    }
  }

  lemma {:induction false} RunKeepsDiscipline(events: seq<Event>)
    ensures AllDisciplined(Run([], events)) && Exclusive(Run([], events))
  {
    if events == [] {
    } else {
      RunKeepsDiscipline(events[..|events| - 1]);
      StepKeepsDiscipline(Run([], events[..|events| - 1]), events[|events| - 1]);
    }
  }

  function Work(ts: seq<Thread>): nat {
    if ts == [] then 0 else Work(ts[..|ts| - 1]) + |ts[|ts| - 1].todo|
  }

  lemma {:induction false} AdvanceIsWork(ts: seq<Thread>, i: nat)
    requires i < |ts| && ts[i].todo != []
    ensures Work(Advance(ts, i)) == Work(ts) - 1
  {
    var n := |ts| - 1;
    if i < n {
      AdvanceIsWork(ts[..n], i);
      assert Advance(ts, i)[..n] == Advance(ts[..n], i);
    } else {
      assert Advance(ts, i)[..n] == ts[..n];
    }
  }

  lemma {:induction false} UnfinishedThread(ts: seq<Thread>) returns (u: nat)
    requires Work(ts) > 0
    ensures u < |ts| && ts[u].todo != []
  {
    if ts[|ts| - 1].todo != [] {
      return |ts| - 1;
    }
    u := UnfinishedThread(ts[..|ts| - 1]);
  }

  /** In every reachable state, however many goroutines run whatever operations, one that is unfinished
      means one that can take a step. */
  lemma NeverDeadlocked(events: seq<Event>, u: nat) returns (i: nat)
    requires var ts := Run([], events); u < |ts| && ts[u].todo != []
    ensures Enabled(Run([], events), i)
  {
    RunKeepsDiscipline(events);
    i := SomeoneCanStep(Run([], events), u);
  }

  /** And from every reachable state everything can be brought to an end, with nothing left locked. */
  lemma {:induction false} CanAlwaysFinish(events: seq<Event>) returns (rest: seq<Event>)
    ensures forall i :: 0 <= i < |rest| ==> rest[i].Go?
    ensures var ts := Run([], events + rest);
            forall i :: 0 <= i < |ts| ==> ts[i] == Thread(FREE, [])
    decreases Work(Run([], events))
  {
    var ts := Run([], events);
    RunKeepsDiscipline(events);
    if Work(ts) == 0 {
      rest := [];
      assert events + rest == events;
      AllDone(ts);
    } else {
      var i := NextWork(events);
      var tail := CanAlwaysFinish(events + [Go(i)]);
      OneThenRest(events, i, tail);
      rest := [Go(i)] + tail;
    }
  }

  lemma OneThenRest(events: seq<Event>, i: nat, tail: seq<Event>)
    requires forall k :: 0 <= k < |tail| ==> tail[k].Go?
    ensures events + [Go(i)] + tail == events + ([Go(i)] + tail)
    ensures forall k :: 0 <= k < |[Go(i)] + tail| ==> ([Go(i)] + tail)[k].Go?
  {
  }

  lemma NextWork(events: seq<Event>) returns (i: nat)
    requires Work(Run([], events)) > 0
    ensures Work(Run([], events + [Go(i)])) < Work(Run([], events))
  {
    var ts := Run([], events);
    RunKeepsDiscipline(events);
    var u := UnfinishedThread(ts);
    i := SomeoneCanStep(ts, u);
    AdvanceIsWork(ts, i);
    assert (events + [Go(i)])[..|events|] == events;
  }

  lemma AllDone(ts: seq<Thread>)
    requires Work(ts) == 0 && forall i :: 0 <= i < |ts| ==> Disciplined(ts[i].hold, ts[i].todo, FREE)
    ensures forall i :: 0 <= i < |ts| ==> ts[i] == Thread(FREE, [])
  {
    forall i | 0 <= i < |ts|
      ensures ts[i] == Thread(FREE, [])
    {
      NoWorkMeansDone(ts, i);
    }
  }

  lemma {:induction false} NoWorkMeansDone(ts: seq<Thread>, i: nat)
    requires Work(ts) == 0 && i < |ts|
    ensures ts[i].todo == []
  {
    if i < |ts| - 1 {
      NoWorkMeansDone(ts[..|ts| - 1], i);
    }
  }

  /** The order matters: with the manager taken first, two goroutines can block each other for good. */
  lemma OppositeOrderDeadlocks(r: nat)
    ensures var a := Thread(Hold({RoomLock(r)}, false, false), WriteManager() + [Release(RoomLock(r))]);
            var b := Thread(Hold({ManagerWrite}, false, true),
                            [Acquire(RoomLock(r)), Release(RoomLock(r)), Release(ManagerWrite)]);
            Exclusive([a, b]) && forall i: nat :: !Enabled([a, b], i)
  {
    var a := Thread(Hold({RoomLock(r)}, false, false), WriteManager() + [Release(RoomLock(r))]);
    var b := Thread(Hold({ManagerWrite}, false, true),
                    [Acquire(RoomLock(r)), Release(RoomLock(r)), Release(ManagerWrite)]);
    var ts := [a, b];
    assert a.todo[0] == Acquire(ManagerWrite) && ManagerWrite in ts[1].hold.locks;
    assert b.todo[0] == Acquire(RoomLock(r)) && RoomLock(r) in ts[0].hold.locks;
  }
}
