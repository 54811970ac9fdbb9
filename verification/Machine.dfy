/**
 The client's state as a value, the atomic steps its methods are made of, the invariant
 every step keeps, the relation between the states before and after any stretch of re-entrant
 execution, and what the larger calls promise. The class in Client.dfy performs these steps in
 place; that they keep the invariant is proved in Invariance.dfy.
 */
module Machine {
  import opened Wrappers
  import opened Bytes
  import opened Envelopes
  import opened Proto
  import opened MessageBuses
  import opened Histories
  import opened Backoff
  import opened Time
  import opened Timers
  import opened Watches

  /** What the library hands to the callbacks: nothing yet, a connect in progress, or the client. */
  datatype UserData = NoUserData | Context(frame: nat) | Self | Dangling

  /** A request waiting for its answer; it lives in the frame of sendRequest. */
  datatype ExpectedResponse = ExpectedResponse(
    typeName: TypeName, messageType: byte, key: bytes,
    message: Option<Content>, error: Option<ErrorCode>, notified: bool)

  /** What a connect in progress shares with the connect callback. */
  datatype ConnectContext = ConnectContext(notified: bool, returnCode: int)

  /**
   What the library, the clock and rand() answered: whether the socket was closed, what leaving the broker returned, how
   much time had passed when the clock was read, and the delay drawn.
   */
  datatype Luck = Luck(closed: bool, left: int, elapsed: nat, delay: int)

  /** mosquitto_loop_misc is called once a second; milliseconds. */
  const MISC_PERIOD: int := 1_000

  /** What is kept account of beside the client's own fields. */
  datatype Marks = Marks(
    /** The library still has its connection to the broker. */
    linkUp: bool,
    /** The user kept to the rules: see RulesInv. */
    disciplined: bool,
    /** reconnect() has been called by its timer and has not returned. */
    onStack: bool,
    /** handleMisc() has been called by its timer and has not returned. */
    onMisc: bool,
    /** A connect has succeeded, and its connection was neither lost nor given up since. */
    ready: bool,
    /** The dispatches of the bus that are under way, innermost last. */
    open: seq<nat>,
    /** There was a slot on the loop to watch the socket of the last connection that was made. */
    room: bool,
    /** How many timers had been started on the loop when the client was made. */
    startedBefore: nat,
    /** Those of them that had fired. */
    firedBefore: multiset<nat>)

  datatype State = State(
    connected: bool,
    reconnecting: bool,
    session: Option<SessionInformation>,
    expected: Option<nat>,
    queue: seq<QueuedMessage>,
    delay: int,
    reconnectId: int,
    miscId: int,
    userData: UserData,
    requests: seq<ExpectedResponse>,
    contexts: seq<ConnectContext>,
    table: Table,
    watches: seq<SocketWatch>,
    subscriptions: seq<Subscription>,
    socket: int,
    history: History,
    /** How many more calls the user's callbacks will make. */
    reentries: nat,
    marks: Marks)

  // ----- the steps

  ghost function Log(s: State, e: Event): State { s.(history := Then(s.history, e)) }

  /** Calls of the library, with what they returned. */
  ghost function Recorded(s: State, calls: seq<(LibraryCall, int)>): (t: State)
    ensures t == s.(history := t.history)
  {
    if calls == [] then s
    else
      var n := |calls| - 1;
      Log(Recorded(s, calls[..n]), Library(calls[n].0, calls[n].1))
  }

  /** A library call reported an error; the library may have closed its socket. */
  ghost function Dropped(s: State, closed: bool): State {
    s.(marks := s.marks.(linkUp := false), socket := if closed then INVALID_FD else s.socket)
  }

  /** The ticket that the next timer on the loop gets, if there is a slot for it. */
  ghost function NextTicket(t: Table): Option<nat> {
    if StartId(t) == INVALID_TIMER then None else Some(|t.tickets|)
  }

  ghost function ReconnectArmed(s: State, elapsed: nat, delay: int): State
    requires TableOk(s.table)
  {
    s.(table := Started(s.table, elapsed, delay, ReconnectTimer), reconnectId := StartId(s.table), reconnecting := true,
       history := Then(s.history, DelayArmed(NextTicket(s.table), delay)))
  }

  ghost function SessionCut(s: State): State { Log(s.(session := None), SessionReset) }

  ghost function LostConnection(s: State, luck: Luck): State
    requires TableOk(s.table)
  {
    if s.reconnecting then s
    else s.(
      watches := Unwatch(s.watches, s.socket),
      table := Started(s.table, luck.elapsed, luck.delay, ReconnectTimer), reconnectId := StartId(s.table),
      reconnecting := true, connected := false, marks := s.marks.(ready := false), session := None,
      history := Then(Then(s.history, DelayArmed(NextTicket(s.table), luck.delay)), SessionReset))
  }

  /** The connection is given up: mosquitto_disconnect has been called. */
  ghost function Abandoned(s: State, rc: int, closed: bool): State {
    Log(s.(connected := false, socket := if closed then INVALID_FD else s.socket,
           marks := s.marks.(linkUp := false, ready := false)), Library(LeaveBroker, rc))
  }

  /** Both timers stopped, by the ids the client remembers. */
  ghost function Cleared(s: State): Table
    requires TableOk(s.table)
  {
    ReleaseOk(s.table, s.reconnectId, Stopped);
    Cancelled(Cancelled(s.table, s.reconnectId), s.miscId)
  }

  /** The part of disconnect that is for a connected client. */
  ghost function Closed(s: State, rc: int, closed: bool): State
    requires TableOk(s.table)
  {
    Log(s.(watches := Unwatch(s.watches, s.socket), table := Cleared(s), connected := false,
           socket := if closed then INVALID_FD else s.socket, marks := s.marks.(linkUp := false, ready := false)),
        Library(LeaveBroker, rc))
  }

  ghost function Disconnected(s: State, rc: int, closed: bool): State
    requires TableOk(s.table)
  {
    if !s.connected then SessionCut(s) else Closed(SessionCut(s), rc, closed)
  }

  lemma {:induction false} DisconnectedTable(s: State, rc: int, closed: bool)
    requires TableOk(s.table)
    ensures TableOk(Disconnected(s, rc, closed).table) && LedgerGrows(s.table, Disconnected(s, rc, closed).table)
    ensures TableOk(Cleared(s)) && LedgerGrows(s.table, Cleared(s))
  {
    var t := Cancelled(s.table, s.reconnectId);
    ReleaseOk(s.table, s.reconnectId, Stopped);
    ReleaseOk(t, s.miscId, Stopped);
    LedgerTransitive(s.table, t, Cleared(s));
    LedgerRefl(s.table);
  }

  ghost function InvalidatedSession(s: State, luck: Luck): State
    requires TableOk(s.table)
  {
    if s.reconnecting then s
    else
      DisconnectedTable(s, luck.left, luck.closed);
      ReconnectArmed(Disconnected(s, luck.left, luck.closed), luck.elapsed, luck.delay)
  }

  /** scheduleMisc stops whatever has the misc timer's id, and then starts the timer for one second. */
  ghost function MiscScheduled(s: State, elapsed: nat): State
    requires TableOk(s.table)
  {
    ReleaseOk(s.table, s.miscId, Stopped);
    var cleared := Cancelled(s.table, s.miscId);
    s.(table := Started(cleared, elapsed, MISC_PERIOD, MiscTimer), miscId := StartId(cleared))
  }

  ghost function ContextOpened(s: State, rc: int): State {
    Log(s.(contexts := s.contexts + [ConnectContext(false, -1)]), Handshake(|s.contexts|, Dial(rc)))
  }

  ghost function LinkOpened(s: State, frame: nat, fd: int): State {
    s.(connected := true, marks := s.marks.(linkUp := true, room := RoomToWatch(s.watches, fd)), socket := fd,
       userData := Context(frame), watches := Watch(s.watches, fd, ClientHandler))
  }

  /** A descriptor can be watched unless it is -1 or others have taken every slot. */
  ghost predicate RoomToWatch(ws: seq<SocketWatch>, fd: int) {
    fd != INVALID_FD && |LiveFds(ws) - {fd}| != |ws|
  }

  ghost function DialledOut(s: State, rc: int, fd: int): State {
    if rc != 0 then ContextOpened(s, rc) else LinkOpened(ContextOpened(s, rc), |s.contexts|, fd)
  }

  ghost function Acknowledged(s: State, frame: nat, code: int): State
    requires frame < |s.contexts|
  {
    Log(s.(contexts := s.contexts[frame := ConnectContext(true, code)]), Handshake(frame, Connack(code)))
  }

  /** connect returns without an accepted acknowledgement: its context dies with it. */
  ghost function ContextGone(s: State, frame: nat): State {
    s.(userData := if s.userData == Context(frame) then Dangling else s.userData)
  }

  /** The step of a subscription to the client's own topic, or to the events topic. */
  function JoinStep(own: bool, rc: int): (step: Step)
    ensures (step.JoinOwn? || step.JoinEvents?) && step.rc == rc
  {
    if own then JoinOwn(rc) else JoinEvents(rc)
  }

  /** A subscription that succeeds on a dropped link breaks the rules. */
  ghost function Subscribed(s: State, frame: nat, step: Step): State
    requires step.JoinOwn? || step.JoinEvents?
  {
    s.(marks := s.marks.(disciplined := s.marks.disciplined && (step.rc == 0 ==> s.marks.linkUp)),
       history := Then(s.history, Handshake(frame, step)))
  }

  /** The wall clock has been read, in seconds. */
  ghost function Timed(s: State, time: int): State { Log(s, Library(ReadTime, time)) }

  ghost function PublishedTo(s: State, message: Message, payload: bytes, frame: Option<nat>, rc: int): State {
    var h := Then(s.history, Published(message, payload));
    s.(history := if frame.Some? then Then(h, Handshake(frame.value, LoginPublish(rc, |s.requests|))) else h)
  }

  ghost function SessionOpened(s: State, frame: nat, grant: Grant): State {
    Log(s.(session := Some(grant.session)), Handshake(frame, LoginAccept(grant)))
  }

  /** The broker has accepted: from now on the callbacks find the client itself. */
  ghost function Adopted(s: State): State { s.(userData := Self) }

  ghost function RequestOpened(s: State, name: TypeName, key: bytes): State {
    s.(requests := s.requests + [ExpectedResponse(name, TypeFor(name), key, None, None, false)],
       expected := Some(|s.requests|))
  }

  function Noted(r: ExpectedResponse, v: Verdict): ExpectedResponse {
    match v
    case Good(content) => r.(message := Some(content), notified := true)
    case Bad(code) => r.(error := Some(code), notified := true)
  }

  ghost function Answered(cfg: Config, s: State, i: nat, payload: bytes): State
    requires i < |s.requests|
  {
    var r := s.requests[i];
    Log(s.(requests := s.requests[i := Noted(r, Judge(cfg, r.typeName, r.key, payload))]), Response(i, payload))
  }

  ghost function Enqueued(s: State, e: QueuedMessage, source: bytes): State {
    Log(s.(queue := s.queue + [e]), Accepted(e, source))
  }

  /** What onGeneralMessage makes of a successful payload while a session is open. */
  ghost function Filed(cfg: Config, s: State, topic: string, payload: bytes): State
    requires s.session.Some? && Decode(payload).Opened?
  {
    var t := Decode(payload).envelope.messageType;
    match ClassFor(t)
    case None => s
    case Some(name) =>
      match cfg.parse(name, BodyUnder(cfg.cipher, ReceiveKey(s.session.value, t), payload))
      case None => s
      case Some(content) => Enqueued(s, QueuedMessage(topic, t, Message(name, content)), payload)
  }

  /** The checks of onGeneralMessage, from the state the raw-message callback left. */
  ghost predicate ConsideredSpec(cfg: Config, mid: State, topic: string, payload: bytes, luck: Luck, t: State)
    requires TableOk(mid.table) && Decode(payload).Opened?
  {
    var status := Decode(payload).envelope.responseStatus;
    t == if status == STATUS_INVALID_SESSION then InvalidatedSession(mid, luck)
         else if status == STATUS_SUCCESS && mid.session.Some? then Filed(cfg, mid, topic, payload)
         else mid
  }

  /** The raw-message callback has been called if the payload is an envelope, and left the client in `mid`. */
  ghost predicate Heard(s: State, payload: bytes, mid: State) {
    if Decode(payload).Opened? then Evolves(Log(s, RawSeen(payload)), mid) else mid == s
  }

  ghost predicate GeneralSpec(cfg: Config, s: State, mid: State, topic: string, payload: bytes, luck: Luck, t: State)
    requires TableOk(mid.table)
  {
    && Heard(s, payload, mid)
    && if Decode(payload).Opened? then ConsideredSpec(cfg, mid, topic, payload, luck, t) else t == s
  }

  /** A message on the client's own topic: for the waiting request if there is one, otherwise as on the events topic. */
  ghost predicate PrivateSpec(cfg: Config, s: State, mid: State, topic: string, payload: bytes, luck: Luck, t: State) {
    match s.expected
    case Some(i) => Heard(s, payload, mid) && i < |mid.requests| && t == Answered(cfg, mid, i, payload)
    case None =>
      && TableOk(mid.table)
      && GeneralSpec(cfg, Log(s, Stray(payload)), mid, topic, payload, luck, t)
  }

  ghost predicate MessageSpec(cfg: Config, s: State, mid: State, topic: string, payload: bytes, luck: Luck, t: State) {
    if topic == EVENTS_TOPIC then
      TableOk(mid.table) && GeneralSpec(cfg, s, mid, topic, payload, luck, t)
    else if topic == cfg.ownTopic then PrivateSpec(cfg, s, mid, topic, payload, luck, t)
    else t == s
  }

  /** A packet that the library reads: an acknowledgement of a connect, or a message. */
  datatype Packet = Acknowledgement(code: int) | Arrival(topic: string, payload: Wire)

  /** What became of a packet: whether the connect callback was set, and for a message the state after the raw callback. */
  datatype Reception = Reception(packet: Packet, heard: bool, mid: State, luck: Luck)

  /** An acknowledgement reaches the waiting connect, a message the client once it is the callbacks' target; nothing else. */
  ghost predicate ReceivedAs(cfg: Config, s: State, x: Reception, t: State) {
    match x.packet
    case Acknowledgement(code) =>
      if x.heard && s.userData.Context? then
        s.userData.frame < |s.contexts| && t == Acknowledged(s, s.userData.frame, code)
      else t == s
    case Arrival(topic, payload) =>
      if s.userData.Self? then MessageSpec(cfg, s, x.mid, topic, payload, x.luck, t) else t == s
  }

  /** Packet after packet of a batch. */
  ghost predicate BatchReceived(cfg: Config, packets: seq<Packet>, xs: seq<Reception>, points: seq<State>) {
    && |points| == |packets| + 1 && |xs| == |packets|
    && forall i | 0 <= i < |packets| :: xs[i].packet == packets[i] && ReceivedAs(cfg, points[i], xs[i], points[i + 1])
  }

  /** The connection is lost, and unless the user called, nothing was dispatched on the way. */
  ghost predicate ReadFailed(s: State, t: State) {
    && t.reconnecting && !t.marks.linkUp
    && (t.reentries == s.reentries ==> PoppedOf(t.history) == PoppedOf(s.history))
  }

  /** mosquitto_loop_write has been called; a failure is a lost connection. */
  ghost function Wrote(s: State, rc: int, luck: Luck): State
    requires TableOk(s.table)
  {
    var w := Log(s, Library(LoopWrite, rc));
    if rc == 0 then w else LostConnection(Dropped(w, luck.closed), luck)
  }

  /** One call of the client's handler: what it may do, the state after its read half, and what the library returned. */
  datatype Handling = Handling(read: bool, write: bool, mid: State, readRc: int, writeRc: int, luck: Luck)

  /**
   The handler of the client's socket: without a connection it does nothing; if it may read it calls the library, and
   then either everything received has been dispatched or the connection is lost; if it may write and the connection
   was not lost by then, it calls the library for that.
   */
  ghost predicate SocketSpec(s: State, h: Handling, t: State) {
    var n := Log(s, Notified(ClientHandler, h.read, h.write));
    if !s.connected then t == n
    else
      && TableOk(h.mid.table)
      && (if h.read then
            && Extends(Then(n.history, Library(LoopRead, h.readRc)), h.mid.history)
            && (if h.readRc == 0 then h.mid.queue == [] else ReadFailed(s, h.mid))
          else h.mid == n && h.readRc == 0)
      && t == if h.readRc == 0 && h.write then Wrote(h.mid, h.writeRc, h.luck) else h.mid
  }

  /** handleMisc, once its call is on record; `rc` is what the library said. */
  ghost function MiscHandled(s: State, rc: int, luck: Luck): State
    requires TableOk(s.table)
  {
    var m := Log(s, Library(LoopMisc, rc));
    if !s.connected then s
    else if rc != 0 then LostConnection(Dropped(m, luck.closed), luck)
    else MiscScheduled(m, luck.elapsed)
  }

  // ----- waiting

  /** socketEvents(): without a connection nothing; otherwise reading, and writing if the library wants to. */
  ghost function EventsAsked(s: State, wants: int): State {
    if s.connected then Log(s, Library(WantWrite, wants)) else s
  }

  /** What select is asked for on this descriptor. */
  function Interest(connected: bool, wants: int, fd: int): Fds {
    Fds(if connected then {fd} else {}, if connected && wants != 0 then {fd} else {})
  }

  /** What a wait is for: the acknowledgement of a connect, or the answer to a request. */
  datatype Condition = OfContext(frame: nat) | OfRequest(request: nat)

  /** It has not come yet. */
  predicate Pending(s: State, c: Condition) {
    match c
    case OfContext(f) => f < |s.contexts| && !s.contexts[f].notified
    case OfRequest(i) => i < |s.requests| && !s.requests[i].notified
  }

  /**
   One round of a wait: the time left for it, what the library said about writing, what select found and returned and
   left of the time, and the call of the handler that followed.
   */
  datatype WaitTurn = WaitTurn(left: Timeval, wants: int, found: Fds, rc: int, rest: Timeval, handling: Handling)

  /**
   A round of a wait on this descriptor: select is asked to read exactly if the client is connected, and to write exactly
   if the library wants to as well; unless it fails, the handler is told exactly what it found.
   */
  ghost predicate WaitMade(s: State, fd: int, w: WaitTurn, t: State) {
    var asked := Interest(s.connected, w.wants, fd);
    var p := Log(EventsAsked(s, w.wants), Polled(asked, w.left, w.found, w.rc));
    && Selectable(w.left) && Selectable(w.rest) && Micros(w.rest) < Micros(w.left)
    && w.found.toRead <= asked.toRead && w.found.toWrite <= asked.toWrite
    && if w.rc < 0 then t == p
       else
         && (w.handling.read <==> fd in w.found.toRead) && (w.handling.write <==> fd in w.found.toWrite)
         && SocketSpec(p, w.handling, t)
  }

  /** What is left of a timeout, in milliseconds, after the first `n` rounds. */
  function LeftAfter(timeout: int, turns: seq<WaitTurn>, n: nat): Timeval
    requires n <= |turns|
  {
    if n == 0 then ToTimeval(timeout * NANOS_PER_MILLI) else turns[n - 1].rest
  }

  /** Nothing is left of the time. */
  predicate UsedUp(left: Timeval) { left.sec <= 0 && left.usec <= 0 }

  /** A whole wait: its rounds, the states between them, and the state after it. */
  datatype WaitRun = WaitRun(turns: seq<WaitTurn>, points: seq<State>, after: State)

  /** Round after round of a wait that began in `s`, each because nothing had come yet and there was time left. */
  ghost predicate WaitsMade(c: Condition, fd: int, timeout: int, s: State, w: WaitRun) {
    && |w.points| == |w.turns| + 1 && w.points[0] == s && w.points[|w.turns|] == w.after
    && (forall i | 0 <= i < |w.turns| ::
          && Pending(w.points[i], c) && w.turns[i].left == LeftAfter(timeout, w.turns, i) && !UsedUp(w.turns[i].left)
          && WaitMade(w.points[i], fd, w.turns[i], w.points[i + 1]))
    && (forall i | 0 <= i < |w.turns| - 1 :: w.turns[i].rc >= 0)
  }

  /** The wait is over because what it waited for has come, because the time is used up, or because select failed. */
  ghost predicate WaitEnded(c: Condition, fd: int, timeout: int, s: State, w: WaitRun) {
    && WaitsMade(c, fd, timeout, s, w)
    && (Pending(w.after, c) ==> SelectFailedIn(w) || UsedUp(LeftAfter(timeout, w.turns, |w.turns|)))
  }

  predicate SelectFailedIn(w: WaitRun) { w.turns != [] && w.turns[|w.turns| - 1].rc < 0 }

  /** The oldest message is out of the queue; whoever is called next records where it went. */
  ghost function Taken(s: State): State
    requires s.queue != []
  {
    Log(s.(queue := s.queue[1..]), Popped(s.queue[0]))
  }

  /** What the session handler or the bus finds on entry. */
  ghost function RoutedTo(s: State, route: Route): State {
    s.(marks := s.marks.(open := if route.ToBus? then s.marks.open + [|DispatchesOf(s.history)|] else s.marks.open),
       history := Then(s.history, Routed(route)))
  }

  /** The bus has been called. */
  ghost function BusOpened(s: State, message: Message): State { RoutedTo(s, ToBus(message)) }

  /** The innermost dispatch calls its next subscriber. */
  ghost function HandedOver(s: State, who: Subscriber): State
    requires s.marks.open != []
  {
    Log(s, Handed(s.marks.open[|s.marks.open| - 1], who))
  }

  /** The same state as seen by whoever knows other dispatches to be under way. */
  ghost function WithOpen(s: State, open: seq<nat>): State { s.(marks := s.marks.(open := open)) }

  /** The innermost dispatch returns. */
  ghost function BusClosed(s: State): State
    requires s.marks.open != []
  {
    WithOpen(s, s.marks.open[..|s.marks.open| - 1])
  }

  ghost function SubscriptionMade(s: State, subscription: Subscription): State {
    Log(s.(subscriptions := s.subscriptions + [subscription]), Enlisted(subscription))
  }

  ghost function AttemptFailed(s: State, elapsed: nat, delay: int): State
    requires TableOk(s.table)
  {
    s.(delay := Min(s.delay * RECONNECT_FACTOR, RECONNECT_MAX), marks := s.marks.(onStack := false),
       table := Started(s.table, elapsed, delay, ReconnectTimer), reconnectId := StartId(s.table), reconnecting := true,
       history := Then(Then(s.history, ReconnectFailed), DelayArmed(NextTicket(s.table), delay)))
  }

  /** `dialled` tells whether the attempt made the connection or found it made. */
  ghost function AttemptSucceeded(s: State, dialled: bool): State {
    s.(delay := RECONNECT_BASE, reconnecting := false, history := Then(s.history, ReconnectSucceeded),
       marks := s.marks.(onStack := false, ready := s.marks.ready || dialled))
  }

  /** The loop has released an expired slot; the callback, called next, records that it was. */
  ghost function TimerFired(s: State, id: int, elapsed: nat): State
    requires TableOk(s.table) && 0 <= id < TIMER_COUNT
  {
    var callback := s.table.timers[id].callback;
    s.(table := Expired(s.table, id, elapsed),
       marks := s.marks.(onStack := s.marks.onStack || callback == ReconnectTimer,
                         onMisc := s.marks.onMisc || callback == MiscTimer))
  }

  /** The loop has read the clock. */
  ghost function ClockRead(s: State, elapsed: nat): State { s.(table := Ticked(s.table, elapsed)) }

  /** What the callback of a timer finds on entry. */
  ghost function Called(s: State, ticket: nat): State { Log(s, TimerCalled(ticket)) }

  /** Somebody else starts or stops a timer on the same loop. */
  ghost function ForeignStarted(s: State, elapsed: nat, delay: int, id: nat): State
    requires TableOk(s.table)
  {
    s.(table := Started(s.table, elapsed, delay, ForeignTimer(id)), marks := s.marks.(disciplined := false))
  }

  ghost function ForeignStopped(s: State, id: int): State
    requires TableOk(s.table)
  {
    s.(table := Cancelled(s.table, id), marks := s.marks.(disciplined := false))
  }

  /** Somebody else watches or unwatches a descriptor: against the rules if it is the client's own. */
  ghost function ForeignWatched(s: State, fd: int, ws: seq<SocketWatch>): State {
    s.(watches := ws, marks := s.marks.(disciplined := s.marks.disciplined && fd != s.socket))
  }

  /** A successful connect has returned to its caller. */
  ghost function Ready(s: State, ready: bool): State { s.(marks := s.marks.(ready := ready)) }

  /** handleMisc returns. */
  ghost function MiscDone(s: State): State { s.(marks := s.marks.(onMisc := false)) }

  /** The user calls connect or disconnect: against the rules while reconnecting. */
  ghost function UserSteps(s: State): State {
    s.(marks := s.marks.(disciplined := s.marks.disciplined && !s.reconnecting))
  }

  // ----- the invariant

  /** The slot with this id holds a timer of this kind. */
  ghost predicate Holds(t: Table, id: int, c: Callback) {
    0 <= id < |t.timers| && t.timers[id].callback == c
  }

  /** At most one timer of each kind, where the client's ids say; a reconnect timer only while reconnecting. */
  ghost predicate TimersInv(s: State) {
    && TableOk(s.table)
    && (forall i | 0 <= i < TIMER_COUNT && s.table.timers[i].callback == ReconnectTimer ::
          i == s.reconnectId && s.reconnecting && !s.marks.onStack)
    && (forall i | 0 <= i < TIMER_COUNT && s.table.timers[i].callback == MiscTimer :: i == s.miscId)
    && (s.marks.onStack ==> s.reconnecting)
  }

  /**
   As long as the user keeps to the rules, no reconnect attempt is lost, no connection goes without its misc timer,
   and an attempt that waits for its acknowledgement stays connected.
   */
  ghost predicate RulesInv(s: State)
    requires TableOk(s.table)
  {
    s.marks.disciplined ==>
      && (s.reconnecting && !s.marks.onStack ==> Holds(s.table, s.reconnectId, ReconnectTimer))
      && (s.marks.ready ==> s.connected && !s.reconnecting && (s.marks.onMisc || Holds(s.table, s.miscId, MiscTimer)))
      && (forall i | 0 <= i < TIMER_COUNT :: !s.table.timers[i].callback.ForeignTimer?)
      && (s.marks.linkUp ==> s.connected)
      && (s.marks.onStack && s.userData.Context? ==> s.connected)
  }

  /** The client's own socket is watched, and events on it go to the client. */
  ghost predicate OwnSocketWatched(s: State) {
    s.socket in WatchMap(s.watches) && WatchMap(s.watches)[s.socket] == ClientHandler
  }

  /** By the rules, a live link is watched exactly when there was room for it when it was made. */
  ghost predicate WatchInv(s: State) {
    && |s.watches| == WATCH_COUNT && Distinct(s.watches)
    && (s.marks.disciplined && s.marks.linkUp ==> (OwnSocketWatched(s) <==> s.marks.room))
  }

  /** The timers and flags that concern the connection, and the slots of the loop. */
  ghost predicate LinkInv(s: State) {
    TimersInv(s) && RulesInv(s) && WatchInv(s)
  }

  ghost predicate QueueInv(cfg: Config, s: State) {
    && AcceptedOf(s.history) == PoppedOf(s.history) + s.queue
    && RoutedOf(s.history) == RoutesOf(cfg.ownTopic, PoppedOf(s.history))
    && (forall i | 0 <= i < |s.queue| :: Tagged(s.queue[i]))
  }

  /** The type tag tells the message's class. */
  predicate Tagged(e: QueuedMessage) { ClassFor(e.messageType) == Some(e.message.typeName) }

  /** The open dispatches lie inside one another, and all others have reached their whole audience. */
  ghost predicate OpenOk(open: seq<nat>, ds: seq<Dispatch>) {
    && (forall i | 0 <= i < |open| :: open[i] < |ds|)
    && (forall i, j | 0 <= i < j < |open| :: open[i] < open[j])
    && (forall k | 0 <= k < |ds| :: ds[k].handed <= |ds[k].audience|)
    && (forall k | 0 <= k < |ds| && k !in open :: ds[k].Done())
  }

  ghost predicate BusInv(s: State) {
    && s.subscriptions == SubscriptionsOf(s.history)
    && OpenOk(s.marks.open, DispatchesOf(s.history))
    && HandedInTurn(s.history)
  }

  ghost predicate WireInv(cfg: Config, s: State) {
    && SessionOf(s.history) == s.session
    && LoginsPublished(cfg, s.history)
    && PublishedReadable(cfg, s.history)
    && AcceptedReadable(cfg, s.history)
    && LoginsGranted(cfg, s.history)
  }

  ghost predicate RequestOk(cfg: Config, r: ExpectedResponse, ps: seq<bytes>) {
    && r.messageType == TypeFor(r.typeName)
    && r.notified == (ps != [])
    && r.error == LastBad(cfg, r.typeName, r.key, ps)
    && (ps != [] && Judge(cfg, r.typeName, r.key, ps[|ps| - 1]).Good? ==>
          r.message == Some(Judge(cfg, r.typeName, r.key, ps[|ps| - 1]).content))
  }

  ghost predicate RequestsInv(cfg: Config, s: State) {
    && (forall i: nat | i < |s.requests| :: RequestOk(cfg, s.requests[i], ResponsesTo(s.history, i)))
    && (forall i: nat | i >= |s.requests| :: ResponsesTo(s.history, i) == [])
    && (s.expected.Some? ==> s.expected.value < |s.requests|)
  }

  function ContextFor(ack: Option<int>): ConnectContext {
    match ack
    case None => ConnectContext(false, -1)
    case Some(code) => ConnectContext(true, code)
  }

  ghost predicate ContextsInv(s: State) {
    && (forall t: nat | t < |s.contexts| ::
          PhaseOf(s.history, t).Dialled? ==> s.contexts[t] == ContextFor(PhaseOf(s.history, t).ack))
    && (forall t: nat | t >= |s.contexts| :: PhaseOf(s.history, t) == Untouched)
    && (s.userData.Context? ==> s.userData.frame < |s.contexts| && PhaseOf(s.history, s.userData.frame).Dialled?)
  }

  /** Every reconnect delay was drawn below the bound for the failures so far. */
  ghost predicate DelaysOk(h: History) {
    match h
    case Start => true
    case Then(b, DelayArmed(_, d)) => DelaysOk(b) && 0 <= d < ReconnectBound(FailuresOf(b))
    case Then(b, _) => DelaysOk(b)
  }

  ghost predicate BackoffInv(s: State) {
    s.delay == ReconnectBound(FailuresOf(s.history)) && DelaysOk(s.history)
  }

  /** Every timer that has fired has had its callback called, once, and no other has. */
  ghost predicate CallsInv(s: State) { CallsOk(CallsOf(s), s.table) }

  ghost function CallsOf(s: State): multiset<nat> { s.marks.firedBefore + CalledOf(s.history) }

  /**
   The terms of the client's own timers: a misc timer is started for a second, a reconnect timer for the delay drawn
   for it; and one that is armed was drawn below the present bound.
   */
  ghost predicate TermsOk(h: History, t: Table, bound: int, from: nat)
    requires TableOk(t)
  {
    && from <= |t.tickets|
    && (forall k: nat | from <= k < |t.tickets| ::
          && (t.tickets[k].callback == MiscTimer ==> t.tickets[k].delay == MISC_PERIOD)
          && (t.tickets[k].callback == ReconnectTimer ==> DrawnFor(h, k) == Some(t.tickets[k].delay)))
    && (forall i | 0 <= i < TIMER_COUNT ::
          && (t.timers[i].callback == MiscTimer ==> t.tickets[t.holder[i]].delay == MISC_PERIOD)
          && (t.timers[i].callback == ReconnectTimer ==> 0 <= t.tickets[t.holder[i]].delay < bound))
  }

  ghost predicate TermsInv(s: State) {
    TableOk(s.table) && TermsOk(s.history, s.table, s.delay, s.marks.startedBefore)
  }

  ghost predicate Inv(cfg: Config, s: State) {
    && LinkInv(s) && CallsInv(s) && TermsInv(s) && BackoffInv(s)
    && QueueInv(cfg, s) && BusInv(s) && WireInv(cfg, s)
    && RequestsInv(cfg, s) && ContextsInv(s)
  }

  /** No callback of a timer, no dispatch and no wait for an acknowledgement is under way. */
  predicate AtRest(s: State) { !s.marks.onStack && !s.marks.onMisc && s.marks.open == [] && !s.userData.Context? }

  /** A client that nothing has happened to yet, on a loop with these slots. */
  ghost function NewClient(table: Table, watches: seq<SocketWatch>): State {
    State(false, false, None, None, [], RECONNECT_BASE, INVALID_TIMER, INVALID_TIMER, NoUserData, [], [],
          table, watches, [], INVALID_FD, History.Start, 0,
          Marks(false, Unused(table), false, false, false, [], false, |table.tickets|, multiset(FiredTickets(table))))
  }

  /** The same on a loop of its own. */
  ghost function InitialState(): State {
    NewClient(Table(seq(TIMER_COUNT, _ => RELEASED), [], seq(TIMER_COUNT, _ => 0), 0), seq(WATCH_COUNT, _ => UNUSED))
  }

  predicate Unused(t: Table) {
    forall i | 0 <= i < |t.timers| :: t.timers[i].callback.NoCallback?
  }

  // ----- what any stretch of execution inside a call leaves alone

  /** The first `n` connects, which belong to callers, make no step of their own; they can only be acknowledged. */
  ghost predicate FramesKept(n: nat, s: State, t: State) {
    && n <= |s.contexts| <= |t.contexts|
    && (t.userData == s.userData || (t.userData.Context? ==> t.userData.frame >= n))
    && (forall f: nat | f < n && s.userData != Context(f) :: PhaseOf(t.history, f) == PhaseOf(s.history, f))
    && (forall f: nat | f < n && s.userData == Context(f) && PhaseOf(s.history, f).Dialled? ::
          PhaseOf(t.history, f).Dialled?)
  }

  predicate SameExpectation(a: ExpectedResponse, b: ExpectedResponse) {
    a.typeName == b.typeName && a.messageType == b.messageType && a.key == b.key
  }

  ghost predicate RequestsKept(s: State, t: State) {
    && |s.requests| <= |t.requests|
    && (forall i | 0 <= i < |s.requests| :: SameExpectation(s.requests[i], t.requests[i]))
    && (t.expected == s.expected || t.expected.None?)
    && (|t.requests| == |s.requests| ==> t.expected == s.expected && NoStrays(s, t))
  }

  /** With a request waiting and no other made, every message on the client's topic went to that request. */
  ghost predicate NoStrays(s: State, t: State) {
    s.expected.Some? ==>
      && StraysOf(t.history) == StraysOf(s.history)
      && forall i: nat | Some(i) != s.expected :: ResponsesTo(t.history, i) == ResponsesTo(s.history, i)
  }

  ghost predicate LinkKept(s: State, t: State) {
    && (s.reconnecting ==> t.reconnecting)
    && t.marks.onStack == s.marks.onStack && t.marks.onMisc == s.marks.onMisc
    && (t.marks.disciplined ==> s.marks.disciplined)
    && (t.marks.disciplined && !s.marks.onStack && t.reconnecting && (s.reconnecting ==> !s.marks.linkUp) ==>
          !t.marks.linkUp)
    && FailuresOf(t.history) == FailuresOf(s.history)
  }

  /** Dispatches made before are not touched, and while one is under way nobody subscribes. */
  ghost predicate BusKept(s: State, t: State) {
    && t.marks.open == s.marks.open
    && DispatchesOf(s.history) <= DispatchesOf(t.history)
    && (s.marks.open != [] ==> t.subscriptions == s.subscriptions)
  }

  /** What holds from `s` to a later `t` when the frames up to `n` belong to callers. */
  ghost predicate Undisturbed(n: nat, s: State, t: State) {
    && FramesKept(n, s, t) && RequestsKept(s, t) && LinkKept(s, t) && BusKept(s, t)
    && LedgerGrows(s.table, t.table) && Extends(s.history, t.history)
    && t.reentries <= s.reentries
  }

  /**
   The callbacks come to find what they found before, or no connect at all; and while a connect of a caller waits and
   the client is reconnecting, by the rules they go on finding that connect.
   */
  ghost predicate CallbacksKept(n: nat, s: State, t: State) {
    && (t.userData == s.userData || !t.userData.Context?)
    && (t.marks.disciplined && s.reconnecting && s.userData.Context? && s.userData.frame < n ==> t.userData == s.userData)
  }

  ghost predicate EvolvesPast(n: nat, s: State, t: State) {
    Undisturbed(n, s, t) && CallbacksKept(n, s, t)
  }

  /** What holds across any call that is made inside another. */
  ghost predicate Evolves(s: State, t: State) { EvolvesPast(|s.contexts|, s, t) }

  /** A client that is neither connected nor reconnecting stays so until a connect is made. */
  ghost predicate StaysDown(s: State, t: State) {
    !s.connected && !s.reconnecting && |t.contexts| == |s.contexts| ==> !t.connected && !t.reconnecting
  }

  /** What holds over a whole run: tickets, events and connects are only ever added. */
  ghost predicate Later(s: State, t: State) {
    LedgerGrows(s.table, t.table) && Extends(s.history, t.history) && |s.contexts| <= |t.contexts|
  }

  // ----- what the calls promise

  /** What a payload has to be for the peer to read it: from this client on the Web platform, at this time, with status 0. */
  ghost predicate Carries(cfg: Config, session: Option<SessionInformation>, m: Message, time: int, payload: bytes) {
    && Decode(payload).Opened?
    && Decode(payload).envelope.messageType == MessageTypeFor(m)
    && Decode(payload).envelope.clientId == cfg.clientId
    && Decode(payload).envelope.platform == 4 && Decode(payload).envelope.responseStatus == 0
    && Decode(payload).envelope.timestamp == time % 4294967296
    && if MessageTypeFor(m) == LOGIN_REQUEST then Decode(payload).envelope.messageBody == m.content.wire
       else session.Some? && ReadableAs(cfg, session.value.privateKey, payload, m.content.wire)
  }

  /** The connects that a publishing call must not disturb: all of them, or those before its own. */
  function CallersOf(s: State, frame: Option<nat>): nat {
    match frame
    case None => |s.contexts|
    case Some(f) => f
  }

  /** The whole of send: its two refusals publish nothing, otherwise one readable payload is published. */
  ghost predicate SendSpec(cfg: Config, s: State, m: Message, time: int, payload: bytes, frame: Option<nat>,
                           rc: int, r: Result, t: State)
  {
    if !s.connected then r == Err(NoConnection) && t == s
    else if MessageTypeFor(m) != LOGIN_REQUEST && s.session == None then r == Err(NoSession) && t == Timed(s, time)
    else
      && Carries(cfg, s.session, m, time, payload)
      && t == PublishedTo(Timed(s, time), m, payload, frame, rc)
      && r == if rc == 0 then Ok else Err(Transport)
  }

  /** The request was published, in a payload the peer can read, before anything else happened. */
  ghost predicate RequestSent(cfg: Config, s: State, m: Message, time: int, payload: bytes, frame: Option<nat>, t: State) {
    && s.connected && Carries(cfg, s.session, m, time, payload)
    && Extends(PublishedTo(Timed(s, time), m, payload, frame, 0).history, t.history)
  }

  /**
   The whole of sendRequest once its request is out: the result is what exactly the payloads handed to it come to, with
   the content of the last one for an answer; an invalid session starts a reconnect; nothing waits any more; and if no
   other request was made meanwhile, those payloads are all that arrived on the client's own topic.
   */
  ghost predicate AnswerSpec(cfg: Config, s: State, name: TypeName, key: bytes,
                             r: Result, response: Option<Content>, t: State)
  {
    var me := |s.requests|;
    var ps := ResponsesTo(t.history, me);
    && me < |t.requests| && t.expected.None?
    && r == Outcome(cfg, name, key, ps) && RequestComesTo(cfg, name, key, ps, r)
    && (r.Ok? ==> ps != [] && response.Some? && Answers(cfg, name, key, ps[|ps| - 1], response.value))
    && (r.Ok? ==> ps != [] && response.Some? && Judge(cfg, name, key, ps[|ps| - 1]) == Good(response.value))
    && (r == Err(InvalidSession) ==> t.reconnecting)
    && (|t.requests| == me + 1 ==> OnlyAnswers(me, s.history, t.history))
  }

  /** The wait is over; an invalid session starts a reconnect. */
  ghost function Concluded(s: State, r: Result, luck: Luck): State
    requires TableOk(s.table)
  {
    var u := s.(expected := None);
    if r == Err(InvalidSession) then InvalidatedSession(u, luck) else u
  }

  /** The request was opened in `s` and waited for as long as the timeout says; nothing else happened but that. */
  ghost predicate AnswerAwaited(s: State, name: TypeName, key: bytes, timeout: int,
                                w: WaitRun, r: Result, luck: Luck, t: State)
  {
    && WaitEnded(OfRequest(|s.requests|), s.socket, timeout, RequestOpened(s, name, key), w)
    && TableOk(w.after.table) && t == Concluded(w.after, r, luck)
  }

  /** A request: whether its send was refused; the time, payload and code of its publish; its wait, and what came of it. */
  datatype RequestRun = RequestRun(refused: bool, time: int, payload: bytes, rc: int, wait: WaitRun, luck: Luck)

  /** The whole of sendRequest. */
  ghost predicate RequestMade(cfg: Config, s: State, m: Message, name: TypeName, key: bytes, frame: Option<nat>,
                              timeout: int, x: RequestRun, r: Result, response: Option<Content>, t: State)
  {
    if x.refused then !r.Ok? && SendSpec(cfg, s, m, x.time, x.payload, frame, x.rc, r, t)
    else
      && RequestSent(cfg, s, m, x.time, x.payload, frame, t)
      && AnswerSpec(cfg, s, name, key, r, response, t)
      && AnswerAwaited(PublishedTo(Timed(s, x.time), m, x.payload, frame, 0), name, key, timeout, x.wait, r, x.luck, t)
  }

  ghost predicate OnlyAnswers(me: nat, h0: History, h1: History) {
    && StraysOf(h1) == StraysOf(h0)
    && forall i: nat | i != me :: ResponsesTo(h1, i) == ResponsesTo(h0, i)
  }

  // ----- dispatching

  /** Nothing has changed but the record, and which dispatches are under way. */
  ghost predicate OnlyRecorded(s: State, t: State) {
    t == s.(history := t.history, marks := s.marks.(open := t.marks.open))
  }

  /** The news that the session has expired, on the client's own topic. */
  predicate EndsSession(ownTopic: string, e: QueuedMessage) {
    e.topic == ownTopic && e.message.typeName.CallEvents? && TellsOfExpiry(e.message)
  }

  predicate TellsOfExpiry(callEvents: Message) {
    callEvents.content.firstEvent == Some(FirstEvent(10, SessionExpired))
  }

  predicate NoneEndsSession(ownTopic: string, es: seq<QueuedMessage>) {
    forall i | 0 <= i < |es| :: !EndsSession(ownTopic, es[i])
  }

  /** Without calls by the user, and without news that ends the session, dispatching only takes messages out of the queue. */
  ghost predicate OnlyDispatched(ownTopic: string, s: State, t: State) {
    && t.reentries <= s.reentries
    && (t.reentries == s.reentries && NoneEndsSession(ownTopic, s.queue) ==>
          NoneEndsSession(ownTopic, t.queue) && OnlyRecorded(s.(queue := t.queue), t))
  }

  /** `t` is `n` deliveries into the dispatch of `message` that began in `d`. */
  ghost predicate Dispatching(d: State, message: Message, n: nat, t: State) {
    var k, ds := |DispatchesOf(d.history)|, DispatchesOf(t.history);
    && t.marks.open == d.marks.open + [k]
    && k < |ds| && ds[k] == Dispatch(message, Audience(d.subscriptions, message), n)
    && t.subscriptions == d.subscriptions
    && Evolves(d, WithOpen(t, d.marks.open))
    && Extends(Then(d.history, Routed(ToBus(message))), t.history)
  }

  /** The subscribers of a type are the next that the dispatch comes to, after `n` deliveries. */
  predicate Listed(subscriptions: seq<Subscription>, t: byte, message: Message, n: nat) {
    var list, audience := SubscribedTo(subscriptions, t), Audience(subscriptions, message);
    n + |list| <= |audience| && audience[n..n + |list|] == list
  }

  /** The dispatch that began in `d` is there, and has gone through its whole audience. */
  ghost predicate Delivered(d: State, message: Message, t: State) {
    var k, ds, audience := |DispatchesOf(d.history)|, DispatchesOf(t.history), Audience(d.subscriptions, message);
    k < |ds| && ds[k] == Dispatch(message, audience, |audience|)
  }

  // ----- what connect leaves behind

  /** connect looks at its context after the wait, and becomes the callbacks' target or lets go of the context. */
  ghost predicate AcknowledgementRead(s: State, frame: nat, r: Result, t: State) {
    && frame < |s.contexts|
    && r == (if !s.contexts[frame].notified then Err(ConnectionTimeout)
             else if s.contexts[frame].returnCode != 0 then Err(ConnectionRefused) else Ok)
    && t == if r.Ok? then Adopted(s) else ContextGone(s, frame)
  }

  /** The last thing that happened is that the broker was left. */
  predicate LeftBroker(h: History) { h.Then? && h.last.Library? && h.last.call == LeaveBroker }

  /**
   How a connect with its own frame ends: the result says how far it got, success means that its own login request
   was published and the session is the one that request was granted, and the session is this connect's exactly
   when it succeeded or was refused at the events topic.
   */
  ghost predicate ConnectSpec(cfg: Config, frame: nat, r: Result, t: State) {
    var p := PhaseOf(t.history, frame);
    && Explained(t.history, frame, r)
    && (r.Ok? ==>
          && t.session == Some(p.grant.session) && Granted(cfg, t.history, p.grant)
          && LoginOnWire(cfg, t.history, frame, p.grant.request))
    && (OpenerOf(t.history) == Some(frame) <==> r.Ok? || EventsRefused(p))
  }

  /** The failures of connect that leave the client connected: no acknowledgement came, or it refused. */
  predicate Unacknowledged(r: Result) { r == Err(ConnectionTimeout) || r == Err(ConnectionRefused) }

  /** A failed connect leaves the client connected for want of an acknowledgement only; by the rules, an attempt does so. */
  ghost predicate FailedConnect(s: State, r: Result, t: State) {
    && (t.connected ==> Unacknowledged(r))
    && (s.marks.onStack && t.marks.disciplined ==> (t.connected <==> Unacknowledged(r)))
  }

  /**
   One attempt of reconnect, from the state its timer's callback finds: a connected client ends the reconnecting
   at once and gains no session; any other dials, and reconnecting ends exactly when the whole connect succeeded.
   A failed attempt is counted and, by the rules, followed by another.
   */
  ghost predicate AttemptSpec(cfg: Config, s: State, r: Result, t: State) {
    && !t.marks.onStack && t.marks.onMisc == s.marks.onMisc && t.marks.open == s.marks.open
    && t.reconnecting == !r.Ok?
    && FailuresOf(t.history) == (if r.Ok? then 0 else FailuresOf(s.history) + 1)
    && (s.connected ==> r.Ok? && t == AttemptSucceeded(s, false))
    && (!s.connected ==> ConnectSpec(cfg, |s.contexts|, r, t))
    && (!r.Ok? ==> FailedConnect(s, r, t) && (t.marks.disciplined ==> Holds(t.table, t.reconnectId, ReconnectTimer)))
    && (r.Ok? ==> (t.session.Some? <==> !s.connected || s.session.Some?))
    && (!s.connected && r.Ok? && t.marks.disciplined ==>
          t.connected && t.marks.linkUp && t.marks.ready && Holds(t.table, t.miscId, MiscTimer))
  }

  /** A connect whose login has just been accepted. */
  ghost predicate LoggedInSpec(cfg: Config, frame: nat, t: State) {
    var p := PhaseOf(t.history, frame);
    && p.LoggedIn? && t.session == Some(p.grant.session) && Granted(cfg, t.history, p.grant)
    && LoginOnWire(cfg, t.history, frame, p.grant.request)
    && OpenerOf(t.history) == Some(frame)
  }

  /** The answers to this request let it succeed, and the last of them brought this content. */
  ghost predicate LoginAnswer(cfg: Config, h: History, request: nat, content: Content) {
    var ps := ResponsesTo(h, request);
    && ps != [] && Outcome(cfg, LoginResponse, cfg.hashedPassword, ps) == Ok
    && Judge(cfg, LoginResponse, cfg.hashedPassword, ps[|ps| - 1]) == Good(content)
  }

  ghost function GrantFor(h: History, request: nat, content: Content): Grant
    requires ResponsesTo(h, request) != []
  {
    var ps := ResponsesTo(h, request);
    Grant(content.session, request, ps[|ps| - 1])
  }
}
