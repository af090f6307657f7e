/** The browser's connection to a room: sending, reconnecting and the room it shows (web/src/ws.ts). */
module WebClient {
  import opened Common
  import opened Names
  import opened RoomTypes
  import opened Protocol
  import Replica
  import RoomUrl

  const MAX_QUEUE_SIZE: nat := 20
  const MAX_RECONNECT_DELAY := 10000.0
  const BASE_DELAY := 500.0
  const RECONNECT_TIMEOUT := 30000
  const SLOW_POLL_INTERVAL := 10000.0

  /** Who the user is when a join is sent. */
  datatype Identity = Identity(sessionId: Sid, userName: Text, role: Role)

  /** A frame sent to the server: the join of this file, or any other command. */
  datatype Frame = JoinFrame(who: Identity, roomName: string) | CommandFrame(cmd: Command)

  datatype Status = Connecting | Connected | Offline

  /** The readyState of a WebSocket whose close event has not fired. */
  datatype Ready = Opening | Open | Closing

  /** The module's current WebSocket, and the frames sent on it. */
  datatype Live = Live(ready: Ready, sent: seq<Frame>)

  /** The variables of the module.  Delays are in milliseconds; `past` holds what was sent on the sockets
      given up so far. */
  datatype Web = Web(socket: Option<Live>, timer: Option<real>, attempt: nat, startTime: int, roomId: string,
                     queue: seq<Frame>, status: Status, info: (nat, bool), shown: Replica.Replica,
                     past: seq<seq<Frame>>)

  // ----- the functions of the module -----

  function WithFrame(w: Web, f: Frame): Web {
    if w.socket.Some? && w.socket.value.ready == Open then
      w.(socket := Some(w.socket.value.(sent := w.socket.value.sent + [f])))
    else if |w.queue| < MAX_QUEUE_SIZE then w.(queue := w.queue + [f])
    else w
  }

  function JoinOf(w: Web, me: Identity): Frame { JoinFrame(me, RoomUrl.GenerateRoomName(w.roomId)) }

  function DoubledDelay(attempt: nat): real {
    if attempt == 0 then BASE_DELAY else 2.0 * DoubledDelay(attempt - 1)
  }

  /** `random` is what Math.random returns. */
  function ReconnectDelay(attempt: nat, random: real): real {
    var doubled := DoubledDelay(attempt);
    var base := if doubled <= MAX_RECONNECT_DELAY then doubled else MAX_RECONNECT_DELAY;
    base + Jitter(base * 0.3, random)
  }

  function Jitter(most: real, random: real): real { most * random }

  function WithReconnect(w: Web, now: int, random: real): Web {
    if w.timer.Some? then w
    else
      var maxReached := now - w.startTime > RECONNECT_TIMEOUT;
      w.(timer := Some(if maxReached then SLOW_POLL_INTERVAL else ReconnectDelay(w.attempt, random)),
         attempt := w.attempt + 1, info := (w.attempt + 1, maxReached))
  }

  function GiveUpSocket(w: Web): Web {
    if w.socket.Some? then w.(socket := None, past := w.past + [w.socket.value.sent]) else w
  }

  function WithoutSocket(w: Web): Web { GiveUpSocket(w.(timer := None)) }

  function WithConnection(w: Web, roomId: string, now: int): Web {
    WithoutSocket(w).(roomId := roomId, status := Connecting, socket := Some(Live(Opening, [])),
                    startTime := if w.attempt == 0 then now else w.startTime)
  }

  function WithoutConnection(w: Web): Web {
    var left := if w.socket.Some? && w.socket.value.ready == Open then WithFrame(w, CommandFrame(Leave)) else w;
    WithoutSocket(left).(status := Offline, attempt := 0, info := (0, false), queue := [])
  }

  function WithRetry(w: Web, now: int): Web {
    WithConnection(w.(attempt := 0, startTime := now, info := (0, false)), w.roomId, now)
  }

  // ----- what happens to the page -----

  /** Calls from the page (Enter, Quit, TryAgain, Ask), and the browser's own events; ClosingBegins is the closing
      handshake or a failure, after which the close event is still to come.  An event of a socket or timer that
      does not exist cannot happen, and only an open socket delivers messages. */
  datatype Event =
    | Enter(roomId: string, now: int)
    | Quit
    | TryAgain(now: int)
    | Ask(cmd: Command)
    | Opened(me: Identity)
    | ClosingBegins
    | Closed(now: int, random: real)
    | Received(msg: Message, me: Identity)
    | TimerFired(now: int)

  function WebOpened(w: Web, me: Identity): Web
    requires w.socket.Some?
  {
    var connected := w.(socket := Some(w.socket.value.(ready := Open)), status := Connected, attempt := 0,
                     info := (0, false), queue := []);
    WithFrame(connected, JoinOf(connected, me))
  }

  function WebClosed(w: Web, now: int, random: real): Web {
    WithReconnect(GiveUpSocket(w).(status := Offline), now, random)
  }

  /** handleMessage: the shown room is reduced, and a cleared room is joined again. */
  function WebReceived(w: Web, m: Message, me: Identity): Web {
    var applied := w.(shown := Replica.Apply(w.shown, m));
    if m == RoomCleared then WithFrame(applied, JoinOf(applied, me)) else applied
  }

  predicate CanHappen(w: Web, e: Event) {
    match e
    case Opened(_) => w.socket.Some? && w.socket.value.ready == Opening
    case ClosingBegins => w.socket.Some? && w.socket.value.ready != Closing
    case Closed(_, random) => w.socket.Some? && 0.0 <= random < 1.0
    case Received(_, _) => w.socket.Some? && w.socket.value.ready == Open
    case TimerFired(_) => w.timer.Some?
    case _ => true
  }

  function Step(w: Web, e: Event): Web {
    if !CanHappen(w, e) then w
    else
      match e
      case Enter(roomId, now) => WithConnection(w, roomId, now)
      case Quit => WithoutConnection(w)
      case TryAgain(now) => WithRetry(w, now)
      case Ask(cmd) => WithFrame(w, CommandFrame(cmd))
      case Opened(me) => WebOpened(w, me)
      case ClosingBegins => w.(socket := Some(w.socket.value.(ready := Closing)))
      case Closed(now, random) => WebClosed(w, now, random)
      case Received(m, me) => WebReceived(w, m, me)
      case TimerFired(now) => WithConnection(w.(timer := None), w.roomId, now)
  }

  /** The page as it is loaded. */
  function Start(timer: TimerPayload): Web {
    Web(None, None, 0, 0, "", [], Offline, (0, false), Replica.Replica(None, timer), [])
  }

  function Run(start: Web, events: seq<Event>): Web {
    if events == [] then start else Step(Run(start, events[..|events| - 1]), events[|events| - 1])
  }

  /** Between entering a room (or trying again) and quitting. */
  predicate Wanted(events: seq<Event>) {
    if events == [] then false
    else
      match events[|events| - 1]
      case Enter(_, _) => true
      case TryAgain(_) => true
      case Quit => false
      case _ => Wanted(events[..|events| - 1])
  }

  /** Closures since the last time a socket opened, the user tried again or quit. */
  function Failures(start: Web, events: seq<Event>): nat {
    if events == [] then 0
    else
      var earlier, e := events[..|events| - 1], events[|events| - 1];
      if !CanHappen(Run(start, earlier), e) then Failures(start, earlier)
      else match e
        case Opened(_) => 0
        case TryAgain(_) => 0
        case Quit => 0
        case Closed(_, _) => Failures(start, earlier) + 1
        case _ => Failures(start, earlier)
  }

  /** The messages that arrived on open sockets. */
  function Arrived(start: Web, events: seq<Event>): seq<Message> {
    if events == [] then []
    else
      var earlier, e := events[..|events| - 1], events[|events| - 1];
      if e.Received? && CanHappen(Run(start, earlier), e) then Arrived(start, earlier) + [e.msg]
      else Arrived(start, earlier)
  }

  // ----- what always holds -----

  /** Exactly one way forward while the user wants to be in the room, none otherwise: a socket whose close event
      is still to come, or a pending timer, never both. */
  predicate OneWayForward(w: Web, wanted: bool) {
    if wanted then w.socket.Some? != w.timer.Some? else w.socket.None? && w.timer.None?
  }

  predicate JoinsFirst(sent: seq<Frame>) { sent != [] ==> sent[0].JoinFrame? }

  /** Every socket's first frame is a join; an open one has sent it. */
  ghost predicate FramesOk(w: Web) {
    && (forall i :: 0 <= i < |w.past| ==> JoinsFirst(w.past[i]))
    && (w.socket.Some? ==> var live := w.socket.value;
                           && JoinsFirst(live.sent) && (live.ready == Opening ==> live.sent == [])
                           && (live.ready == Open ==> live.sent != []))
  }

  predicate DelayOk(w: Web) { w.timer.Some? ==> 500.0 <= w.timer.value < 13000.0 }

  ghost predicate WebOk(w: Web, wanted: bool) {
    OneWayForward(w, wanted) && FramesOk(w) && DelayOk(w) && |w.queue| <= MAX_QUEUE_SIZE
  }

  lemma {:induction false} DoubledIsAtLeastBase(attempt: nat)
    ensures DoubledDelay(attempt) >= BASE_DELAY
  {
    if attempt > 0 {
      DoubledIsAtLeastBase(attempt - 1);
    }
  }

  /** Backoff doubles from half a second, at most ten seconds, plus less than a third of jitter. */
  lemma DelayBounds(attempt: nat, random: real)
    requires 0.0 <= random < 1.0
    ensures var d, doubled := ReconnectDelay(attempt, random), DoubledDelay(attempt);
            && 500.0 <= d < 13000.0
            && (doubled <= 10000.0 ==> doubled <= d <= 1.3 * doubled)
            && (doubled > 10000.0 ==> 10000.0 <= d)
  {
    DoubledIsAtLeastBase(attempt);
    var doubled := DoubledDelay(attempt);
    var base := if doubled <= MAX_RECONNECT_DELAY then doubled else MAX_RECONNECT_DELAY;
    JitterBounds(base * 0.3, random);
  }

  lemma JitterBounds(most: real, random: real)
    requires most > 0.0 && 0.0 <= random < 1.0
    ensures 0.0 <= Jitter(most, random) < most
  {
    assert most * random >= 0.0;
    assert most * (1.0 - random) > 0.0;
  }

  lemma StepKeepsWebOk(w: Web, e: Event, wanted: bool)
    requires WebOk(w, wanted)
    ensures WebOk(Step(w, e), if e.Enter? || e.TryAgain? then true else if e.Quit? then false else wanted)
  {
    if e.Closed? && CanHappen(w, e) {
      DelayBounds(w.attempt, e.random);
    }
  }

  /** In every run: exactly one of live socket and pending timer while the room is wanted, a join as the first
      frame of every socket, at most twenty queued frames, and delays from half a second up to thirteen. */
  lemma {:induction false} RunKeepsWebOk(timer: TimerPayload, events: seq<Event>)
    ensures WebOk(Run(Start(timer), events), Wanted(events))
  {
    if events == [] {
    } else {
      RunKeepsWebOk(timer, events[..|events| - 1]);
      StepKeepsWebOk(Run(Start(timer), events[..|events| - 1]), events[|events| - 1], Wanted(events[..|events| - 1]));
    }
  }

  /** The backoff counts the closures since the connection last worked. */
  lemma {:induction false} AttemptCountsFailures(timer: TimerPayload, events: seq<Event>)
    ensures Run(Start(timer), events).attempt == Failures(Start(timer), events)
  {
    if events == [] {
    } else {
      AttemptCountsFailures(timer, events[..|events| - 1]);
      RunKeepsWebOk(timer, events[..|events| - 1]);
    }
  }

  lemma OnlyMessagesChangeTheRoom(w: Web, e: Event)
    ensures Step(w, e).shown == if e.Received? && CanHappen(w, e) then Replica.Apply(w.shown, e.msg) else w.shown
  {
  }

  lemma ApplyAllExtends(r: Replica.Replica, ms: seq<Message>, m: Message)
    ensures Replica.ApplyAll(r, ms + [m]) == Replica.Apply(Replica.ApplyAll(r, ms), m)
  {
    assert (ms + [m])[..|ms|] == ms;
  }

  /** What is shown is every message that arrived, reduced in order, over all reconnections. */
  lemma {:induction false} ShownIsReduction(start: Web, events: seq<Event>)
    ensures Run(start, events).shown == Replica.ApplyAll(start.shown, Arrived(start, events))
  {
    if events == [] {
    } else {
      var earlier, e := events[..|events| - 1], events[|events| - 1];
      ShownIsReduction(start, earlier);
      OnlyMessagesChangeTheRoom(Run(start, earlier), e);
      if e.Received? {
        ApplyAllExtends(start.shown, Arrived(start, earlier), e.msg);
      }
    }
  }

  // ----- joins answer clears -----

  function Joins(sent: seq<Frame>): nat {
    if sent == [] then 0 else Joins(sent[..|sent| - 1]) + if sent[|sent| - 1].JoinFrame? then 1 else 0
  }

  /** How often room_cleared arrived on the current socket. */
  function Clears(start: Web, events: seq<Event>): nat {
    if events == [] then 0
    else
      var earlier, e := events[..|events| - 1], events[|events| - 1];
      if !CanHappen(Run(start, earlier), e) then Clears(start, earlier)
      else if e.Opened? then 0
      else Clears(start, earlier) + if e.Received? && e.msg == RoomCleared then 1 else 0
  }

  lemma JoinsExtend(sent: seq<Frame>, f: Frame)
    ensures Joins(sent + [f]) == Joins(sent) + if f.JoinFrame? then 1 else 0
  {
    assert (sent + [f])[..|sent|] == sent;
  }

  lemma FrameCountsJoins(w: Web, f: Frame)
    requires w.socket.Some? && w.socket.value.ready == Open
    ensures WithFrame(w, f).socket.Some?
    ensures Joins(WithFrame(w, f).socket.value.sent) == Joins(w.socket.value.sent) + if f.JoinFrame? then 1 else 0
  {
    JoinsExtend(w.socket.value.sent, f);
  }

  lemma OpeningJoinsOnce(w: Web, me: Identity)
    requires w.socket.Some? && w.socket.value.sent == []
    ensures WebOpened(w, me).socket.Some? && Joins(WebOpened(w, me).socket.value.sent) == 1
  {
    JoinsExtend([], JoinOf(w, me));
    assert [] + [JoinOf(w, me)] == [JoinOf(w, me)];
  }

  lemma StepCountsJoins(w: Web, e: Event, clears: nat)
    requires CanHappen(w, e) && FramesOk(w)
    requires w.socket.Some? && w.socket.value.ready == Open ==> Joins(w.socket.value.sent) == 1 + clears
    ensures var w' := Step(w, e);
            w'.socket.Some? && w'.socket.value.ready == Open ==>
              Joins(w'.socket.value.sent)
              == 1 + if e.Opened? then 0 else clears + if e.Received? && e.msg == RoomCleared then 1 else 0
  {
    match e {
      case Opened(me) => OpeningJoinsOnce(w, me);
      case Received(m, me) => FrameCountsJoins(w.(shown := Replica.Apply(w.shown, m)), JoinOf(w, me));
      case Ask(cmd) => if w.socket.Some? && w.socket.value.ready == Open { FrameCountsJoins(w, CommandFrame(cmd)); }
      case _ =>
    }
  }

  /** An open socket has sent one join, and one more for every room_cleared it received. */
  lemma {:induction false} JoinsAnswerClears(timer: TimerPayload, events: seq<Event>)
    ensures var w := Run(Start(timer), events);
            w.socket.Some? && w.socket.value.ready == Open ==>
              Joins(w.socket.value.sent) == 1 + Clears(Start(timer), events)
  {
    if events == [] {
    } else {
      var earlier, e := events[..|events| - 1], events[|events| - 1];
      JoinsAnswerClears(timer, earlier);
      RunKeepsWebOk(timer, earlier);
      if CanHappen(Run(Start(timer), earlier), e) {
        StepCountsJoins(Run(Start(timer), earlier), e, Clears(Start(timer), earlier));
      }
    }
  }

  // ----- what a run comes to, told from its events -----

  /** No connection is wanted, the next attempt is awaited, or there is a socket. */
  datatype Line = Down | Awaited | Up(ready: Ready)

  function LineAfter(l: Line, e: Event): Line {
    match e
    case Enter(_, _) => Up(Opening)
    case TryAgain(_) => Up(Opening)
    case Quit => Down
    case Opened(_) => if l == Up(Opening) then Up(Open) else l
    case ClosingBegins => if l.Up? then Up(Closing) else l
    case Closed(_, random) => if l.Up? && 0.0 <= random < 1.0 then Awaited else l
    case TimerFired(_) => if l == Awaited then Up(Opening) else l
    case _ => l
  }

  function LineOf(events: seq<Event>): Line {
    if events == [] then Down else LineAfter(LineOf(events[..|events| - 1]), events[|events| - 1])
  }

  /** The room entered last. */
  function RoomOf(events: seq<Event>): string {
    if events == [] then ""
    else if events[|events| - 1].Enter? then events[|events| - 1].roomId
    else RoomOf(events[..|events| - 1])
  }

  /** The frames on the current socket: a join when it opened, every command asked for while it was open, and a join
      for every room_cleared received. */
  function SentOf(events: seq<Event>): seq<Frame> {
    if events == [] then []
    else
      var earlier, e := events[..|events| - 1], events[|events| - 1];
      var line, sent, name := LineOf(earlier), SentOf(earlier), RoomUrl.GenerateRoomName(RoomOf(earlier));
      match e
      case Opened(me) => if line == Up(Opening) then [JoinFrame(me, name)] else sent
      case Ask(cmd) => if line == Up(Open) then sent + [CommandFrame(cmd)] else sent
      case Received(m, me) => if line == Up(Open) && m == RoomCleared then sent + [JoinFrame(me, name)] else sent
      case ClosingBegins => sent
      case _ => if LineAfter(line, e) == line && !e.Enter? && !e.TryAgain? then sent else []
  }

  /** The queue: the first twenty commands asked for without an open socket since one opened or the user quit. */
  function QueueOf(events: seq<Event>): seq<Frame> {
    if events == [] then []
    else
      var earlier, e := events[..|events| - 1], events[|events| - 1];
      var line, queue := LineOf(earlier), QueueOf(earlier);
      match e
      case Ask(cmd) => if line == Up(Open) || |queue| >= 20 then queue else queue + [CommandFrame(cmd)]
      case Opened(_) => if line == Up(Opening) then [] else queue
      case Quit => []
      case _ => queue
  }

  /** The frames of every socket given up, a leave being the last one when the user quit on an open socket. */
  function PastOf(events: seq<Event>): seq<seq<Frame>> {
    if events == [] then []
    else
      var earlier, e := events[..|events| - 1], events[|events| - 1];
      var line, sent, past := LineOf(earlier), SentOf(earlier), PastOf(earlier);
      if !line.Up? then past
      else if e == Quit then past + [if line == Up(Open) then sent + [CommandFrame(Leave)] else sent]
      else if e.Enter? || e.TryAgain? || (e.Closed? && 0.0 <= e.random < 1.0) then past + [sent]
      else past
  }

  predicate ShowsStatus(l: Line, status: Status) {
    match l
    case Up(Opening) => status == Connecting
    case Up(Open) => status == Connected
    case Up(Closing) => status != Offline
    case _ => status == Offline
  }

  ghost predicate TellsLine(w: Web, events: seq<Event>) {
    && (match LineOf(events)
        case Down => w.socket.None? && w.timer.None?
        case Awaited => w.socket.None? && w.timer.Some?
        case Up(ready) => w.socket.Some? && w.timer.None? && w.socket.value.ready == ready)
    && w.roomId == RoomOf(events) && ShowsStatus(LineOf(events), w.status)
  }

  function SentNow(w: Web): seq<Frame> { if w.socket.Some? then w.socket.value.sent else [] }

  lemma StepTellsLine(w: Web, events: seq<Event>)
    requires events != [] && TellsLine(w, events[..|events| - 1])
    ensures TellsLine(Step(w, events[|events| - 1]), events)
  {
  }

  lemma {:induction false} StepTellsSent(w: Web, events: seq<Event>)
    requires events != [] && TellsLine(w, events[..|events| - 1]) && SentNow(w) == SentOf(events[..|events| - 1])
    requires w.socket.Some? && w.socket.value.ready == Opening ==> w.socket.value.sent == []
    ensures SentNow(Step(w, events[|events| - 1])) == SentOf(events)
  {
  }

  lemma {:induction false} StepTellsQueue(w: Web, events: seq<Event>)
    requires events != [] && TellsLine(w, events[..|events| - 1]) && w.queue == QueueOf(events[..|events| - 1])
    ensures Step(w, events[|events| - 1]).queue == QueueOf(events)
  {
  }

  lemma {:induction false} StepTellsPast(w: Web, events: seq<Event>)
    requires events != [] && TellsLine(w, events[..|events| - 1]) && SentNow(w) == SentOf(events[..|events| - 1])
    requires w.past == PastOf(events[..|events| - 1])
    ensures Step(w, events[|events| - 1]).past == PastOf(events)
  {
  }

  /** On every run, whether there is a socket or a pending timer, the status, what was sent on the current socket and
      on every earlier one, and what is queued are those the events tell. */
  lemma {:induction false} FramesAreThoseAsked(timer: TimerPayload, events: seq<Event>)
    ensures var w := Run(Start(timer), events);
            && TellsLine(w, events)
            && SentNow(w) == SentOf(events) && w.queue == QueueOf(events) && w.past == PastOf(events)
  {
    if events == [] {
    } else {
      var w := Run(Start(timer), events[..|events| - 1]);
      FramesAreThoseAsked(timer, events[..|events| - 1]);
      StepTellsLine(w, events);
      StepTellsQueue(w, events);
      OpeningSentNothing(timer, events[..|events| - 1]);
      StepTellsSent(w, events);
      StepTellsPast(w, events);
    }
  }

  lemma OpeningSentNothing(timer: TimerPayload, events: seq<Event>)
    ensures var w := Run(Start(timer), events);
            w.socket.Some? && w.socket.value.ready == Opening ==> w.socket.value.sent == []
  {
    RunKeepsWebOk(timer, events);
  }

  // ----- when the next attempt is made -----

  function PowerOfTwo(k: nat): nat { if k == 0 then 1 else 2 * PowerOfTwo(k - 1) }

  lemma {:induction false} DoubledIsPower(k: nat)
    ensures DoubledDelay(k) == 500.0 * PowerOfTwo(k) as real
  {
    if k > 0 {
      DoubledIsPower(k - 1);
    }
  }

  /** When the present series of attempts began: the user entered or tried again, or the first attempt after the
      connection worked. */
  function SeriesStart(start: Web, events: seq<Event>): int {
    if events == [] then start.startTime
    else
      var earlier, e := events[..|events| - 1], events[|events| - 1];
      match e
      case TryAgain(now) => now
      case Enter(_, now) => if Failures(start, earlier) == 0 then now else SeriesStart(start, earlier)
      case TimerFired(now) =>
        if LineOf(earlier) == Awaited && Failures(start, earlier) == 0 then now else SeriesStart(start, earlier)
      case _ => SeriesStart(start, earlier)
  }

  /** What is shown of reconnecting counts the attempts, and says nothing of a timeout before the first. */
  predicate InfoTellsAttempt(w: Web) { w.info.0 == w.attempt && (w.attempt == 0 ==> !w.info.1) }

  lemma {:induction false} StepKeepsSeriesStart(start: Web, w: Web, events: seq<Event>)
    requires events != [] && w.startTime == SeriesStart(start, events[..|events| - 1]) && InfoTellsAttempt(w)
    requires w.attempt == Failures(start, events[..|events| - 1]) && TellsLine(w, events[..|events| - 1])
    ensures var w' := Step(w, events[|events| - 1]);
            w'.startTime == SeriesStart(start, events) && InfoTellsAttempt(w')
  {
  }

  lemma {:induction false} StartTimeIsSeriesStart(timer: TimerPayload, events: seq<Event>)
    ensures var w := Run(Start(timer), events);
            w.startTime == SeriesStart(Start(timer), events) && InfoTellsAttempt(w)
  {
    if events == [] {
    } else {
      var earlier := events[..|events| - 1];
      StartTimeIsSeriesStart(timer, earlier);
      AttemptCountsFailures(timer, earlier);
      FramesAreThoseAsked(timer, earlier);
      StepKeepsSeriesStart(Start(timer), Run(Start(timer), earlier), events);
    }
  }

  lemma ScheduledAttempt(w: Web, now: int, random: real)
    requires w.socket.Some? && w.timer.None? && 0.0 <= random < 1.0
    ensures var doubled, late, w' := 500.0 * PowerOfTwo(w.attempt) as real, now - w.startTime > 30000,
                                     WebClosed(w, now, random);
            && w'.timer.Some? && w'.info == (w.attempt + 1, late)
            && (late ==> w'.timer.value == 10000.0)
            && (!late && doubled <= 10000.0 ==> doubled <= w'.timer.value <= 1.3 * doubled)
            && (!late && doubled > 10000.0 ==> 10000.0 <= w'.timer.value < 13000.0)
  {
    DelayBounds(w.attempt, random);
    DoubledIsPower(w.attempt);
  }

  /** A socket that closes is followed by an attempt after half a second doubled for every closure since the connection
      last worked, at most ten seconds, and up to 30 percent more; once thirty seconds have passed since the series of
      attempts began, after ten seconds. */
  lemma {:induction false} ClosureSchedulesAttempt(timer: TimerPayload, events: seq<Event>, now: int, random: real)
    requires LineOf(events).Up? && 0.0 <= random < 1.0
    ensures var failures, w := Failures(Start(timer), events), Run(Start(timer), events + [Closed(now, random)]);
            var doubled, late := 500.0 * PowerOfTwo(failures) as real, now - SeriesStart(Start(timer), events) > 30000;
            && w.timer.Some? && w.info == (failures + 1, late)
            && (late ==> w.timer.value == 10000.0)
            && (!late && doubled <= 10000.0 ==> doubled <= w.timer.value <= 1.3 * doubled)
            && (!late && doubled > 10000.0 ==> 10000.0 <= w.timer.value < 13000.0)
  {
    var w := Run(Start(timer), events);
    assert (events + [Closed(now, random)])[..|events|] == events;
    FramesAreThoseAsked(timer, events);
    StartTimeIsSeriesStart(timer, events);
    AttemptCountsFailures(timer, events);
    ScheduledAttempt(w, now, random);
    assert Run(Start(timer), events + [Closed(now, random)]) == WebClosed(w, now, random);
  }

  // ----- the module in place -----

  /** A browser WebSocket.  The browser sets `ready`; `listening` stands for its onclose, onerror and onmessage
      handlers. */
  class Socket {
    var ready: Ready
    var listening: bool
    var sent: seq<Frame>

    constructor ()
      ensures ready == Opening && listening && sent == []
    {
      ready, listening, sent := Opening, true, [];
    }
  }

  class Page {
    var socket: Socket?
    var reconnectTimer: Option<real>
    var reconnectAttempt: nat
    var reconnectStartTime: int
    var currentRoomId: string
    var messageQueue: seq<Frame>
    var connectionStatus: Status
    var reconnectInfo: (nat, bool)
    var roomState: Option<Replica.RoomView>
    var timerState: TimerPayload
    ghost var retired: seq<Socket>

    constructor (timer: TimerPayload)
      ensures Valid() && View() == Start(timer)
    {
      socket, reconnectTimer, reconnectAttempt, reconnectStartTime := null, None, 0, 0;
      currentRoomId, messageQueue, connectionStatus, reconnectInfo := "", [], Offline, (0, false);
      roomState, timerState, retired := None, timer, [];
    }

    /** The current socket is listened to; the ones given up are not, and are other objects. */
    ghost predicate Valid()
      reads this, socket, retired
    {
      && (socket != null ==> socket.listening && socket !in retired)
      && (forall i :: 0 <= i < |retired| ==> !retired[i].listening)
    }

    ghost function Past(): seq<seq<Frame>>
      reads this, retired
    {
      seq(|retired|, i requires 0 <= i < |retired| reads this, retired => retired[i].sent)
    }

    ghost function View(): Web
      reads this, socket, retired
    {
      Web(if socket == null then None else Some(Live(socket.ready, socket.sent)), reconnectTimer, reconnectAttempt,
          reconnectStartTime, currentRoomId, messageQueue, connectionStatus, reconnectInfo,
          Replica.Replica(roomState, timerState), Past())
    }

    method Send(f: Frame)
      requires Valid()
      modifies this`messageQueue, socket
      ensures Valid() && View() == WithFrame(old(View()), f)
      ensures socket != null ==> socket.ready == old(socket.ready)
    {
      if socket != null && socket.ready == Open {
        socket.sent := socket.sent + [f];
        assert Past() == old(Past());
      } else if |messageQueue| < MAX_QUEUE_SIZE {
        messageQueue := messageQueue + [f];
      }
    }

    method ScheduleReconnect(now: int, random: real)
      modifies this`reconnectTimer, this`reconnectAttempt, this`reconnectInfo
      ensures View() == WithReconnect(old(View()), now, random)
    {
      if reconnectTimer.Some? {
        return;
      }
      var elapsed := now - reconnectStartTime;
      var maxReached := elapsed > RECONNECT_TIMEOUT;
      var delay := if maxReached then SLOW_POLL_INTERVAL else ReconnectDelay(reconnectAttempt, random);
      reconnectAttempt := reconnectAttempt + 1;
      reconnectInfo := (reconnectAttempt, maxReached);
      reconnectTimer := Some(delay);
    }

    /** Taking the handlers off the current socket and forgetting it. */
    method DropSocket()
      requires Valid()
      modifies this`socket, this`retired, socket
      ensures Valid() && socket == null && View() == GiveUpSocket(old(View()))
    {
      if socket != null {
        ghost var past := Past();
        socket.listening := false;
        retired := retired + [socket];
        assert Past() == past + [socket.sent];
        socket := null;
      }
    }

    method CloseSocket()
      requires Valid()
      modifies this`reconnectTimer, this`socket, this`retired, socket
      ensures Valid() && socket == null && View() == WithoutSocket(old(View()))
    {
      if reconnectTimer.Some? {
        reconnectTimer := None;
      }
      DropSocket();
    }

    method Connect(roomId: string, now: int)
      requires Valid()
      modifies this, socket
      ensures Valid() && View() == WithConnection(old(View()), roomId, now)
    {
      CloseSocket();
      currentRoomId := roomId;
      connectionStatus := Connecting;
      if reconnectAttempt == 0 {
        reconnectStartTime := now;
      }
      ghost var past := Past();
      socket := new Socket();
      assert Past() == past;
    }

    method Disconnect()
      requires Valid()
      modifies this, socket
      ensures Valid() && View() == WithoutConnection(old(View()))
    {
      if socket != null && socket.ready == Open {
        Send(CommandFrame(Leave));
      }
      CloseSocket();
      connectionStatus := Offline;
      reconnectAttempt := 0;
      reconnectInfo := (0, false);
      messageQueue := [];
    }

    method Retry(now: int)
      requires Valid()
      modifies this, socket
      ensures Valid() && View() == WithRetry(old(View()), now)
    {
      reconnectAttempt := 0;
      reconnectStartTime := now;
      reconnectInfo := (0, false);
      Connect(currentRoomId, now);
    }

    /** The socket's onopen. */
    method OnOpen(me: Identity)
      requires Valid() && socket != null
      modifies this, socket
      ensures Valid() && View() == WebOpened(old(View()), me)
    {
      ghost var past := Past();
      socket.ready := Open;
      assert Past() == past;
      connectionStatus := Connected;
      reconnectAttempt := 0;
      reconnectInfo := (0, false);
      messageQueue := [];
      Send(JoinFrame(me, RoomUrl.GenerateRoomName(currentRoomId)));
    }

    /** The socket's onclose. */
    method OnClose(now: int, random: real)
      requires Valid() && socket != null
      modifies this, socket
      ensures Valid() && View() == WebClosed(old(View()), now, random)
    {
      connectionStatus := Offline;
      DropSocket();
      ScheduleReconnect(now, random);
    }

    /** The callback of the reconnect timer. */
    method OnTimer(now: int)
      requires Valid() && reconnectTimer.Some?
      modifies this, socket
      ensures Valid() && View() == Step(old(View()), TimerFired(now))
    {
      reconnectTimer := None;
      Connect(currentRoomId, now);
    }

    /** What a message does to the room and the timer shown. */
    method ReduceRoom(m: Message)
      modifies this`roomState, this`timerState
      ensures Replica.Replica(roomState, timerState)
           == Replica.Apply(Replica.Replica(old(roomState), old(timerState)), m)
    {
      match m {
        case RoomStateMsg(state) =>
          roomState := Some(Replica.LoadState(state));
          timerState := state.timer;
        case TimerUpdated(timer) =>
          timerState := timer;
        case _ =>
          if roomState.Some? {
            roomState := Some(Replica.ApplyToRoom(roomState.value, m));
          }
      }
    }

    /** The socket's onmessage, for a message that parsed. */
    method HandleMessage(m: Message, me: Identity)
      requires Valid()
      modifies this, socket
      ensures Valid() && View() == WebReceived(old(View()), m, me)
    {
      if m == RoomCleared {
        Send(JoinFrame(me, RoomUrl.GenerateRoomName(currentRoomId)));
      } else {
        ReduceRoom(m);
      }
    }
  }
}
