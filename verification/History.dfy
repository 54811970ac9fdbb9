/**
 What has happened in a run of the client, oldest first, and what the past says about the present:
 the open session, the accepted and dispatched messages, the progress of each connect, the
 answers given to each request, the callbacks called. Everything here is a function of the events alone.
 */
module Histories {
  import opened Wrappers
  import opened Bytes
  import opened Cipher
  import opened Envelopes
  import opened Time
  import opened Proto
  import opened MessageBuses
  import opened Watches

  const EVENTS_TOPIC: string := "clients"

  /** The calls of the library and the system that the client makes beside those of the handshake; see Event. */
  datatype LibraryCall =
    | NewHandle(clientId: ClientId)
    | SetTls(cacert: Option<string>)
    | SetTlsInsecure(insecure: bool)
    | SetCredentials(username: Option<string>, password: Option<string>)
    | ConnectTo(host: string, port: int, keepAlive: int)
    | ReconnectHandle
    | WantWrite
    | LoopRead
    | LoopWrite
    | LoopMisc
    | LeaveBroker
    | ReadTime

  /** Descriptors to be read from and written to. */
  datatype Fds = Fds(toRead: set<int>, toWrite: set<int>)

  /**
   What a run is parameterised by: the block cipher, the protobuf parser, and the client's own constants, its
   login request among them.
   */
  datatype Config = Config(
    cipher: BlockFunction,
    parse: (TypeName, bytes) -> Option<Content>,
    clientId: ClientId,
    ownTopic: string,
    hashedPassword: bytes,
    loginRequest: Message)

  /** A received message waiting to be dispatched. */
  datatype QueuedMessage = QueuedMessage(topic: string, messageType: byte, message: Message)

  /** Where a popped message goes. */
  datatype Route = ToSession(event: Message) | ToBus(message: Message)

  /** An accepted login: the session, the request that asked for it, and the payload that brought it. */
  datatype Grant = Grant(session: SessionInformation, request: nat, source: bytes)

  /**
   The steps of one call of connect, with the return code of the library call where there is one. A login
   request is published with the number the request is going to have.
   */
  datatype Step =
    | Dial(rc: int)
    | Connack(code: int)
    | JoinOwn(rc: int)
    | LoginPublish(rc: int, request: nat)
    | LoginAccept(grant: Grant)
    | JoinEvents(rc: int)

  /**
   `Routed`, `Handed`, `TimerCalled`, `Notified`, `RawSeen` and `ExpiryTold` are recorded by whoever is called, on
   entry: the session handler or the bus, a subscriber, the callback of a timer, the handler of a socket, and the
   user's callbacks for raw messages and for a session about to expire. `Library` and `Polled` are calls of the library
   and of select, with what they were given and what they answered; a handler is told what it may read and write. A
   delay is drawn for the timer with that ticket, if the loop has room for one.
   */
  datatype Event =
    | Handshake(frame: nat, step: Step)
    | Published(message: Message, payload: bytes)
    | SessionReset
    | Accepted(entry: QueuedMessage, source: bytes)
    | Popped(entry: QueuedMessage)
    | Routed(route: Route)
    | Enlisted(subscription: Subscription)
    | Handed(dispatch: nat, who: Subscriber)
    | Response(request: nat, payload: bytes)
    | Stray(payload: bytes)
    | ReconnectFailed
    | ReconnectSucceeded
    | DelayArmed(timer: Option<nat>, delay: int)
    | TimerCalled(ticket: nat)
    | Notified(handler: Handler, read: bool, write: bool)
    | Library(call: LibraryCall, rc: int)
    | Polled(asked: Fds, timeout: Timeval, found: Fds, rc: int)
    | RawSeen(payload: bytes)
    | ExpiryTold(seconds: int)

  datatype History = Start | Then(before: History, last: Event)

  /** Nothing recorded is ever taken back. */
  ghost predicate Extends(h0: History, h1: History) {
    h1 == h0 || (h1.Then? && Extends(h0, h1.before))
  }

  lemma {:induction false} ExtendsTransitive(a: History, b: History, c: History)
    requires Extends(a, b) && Extends(b, c)
    ensures Extends(a, c)
  {
    if c == b {
    } else {
      ExtendsTransitive(a, b, c.before);
    }
  }

  // ----- the session

  function SessionOf(h: History): Option<SessionInformation> {
    match h
    case Start => None
    case Then(b, Handshake(_, LoginAccept(g))) => Some(g.session)
    case Then(b, SessionReset) => None
    case Then(b, _) => SessionOf(b)
  }

  /** The connect whose login opened the session that is open. */
  function OpenerOf(h: History): Option<nat> {
    match h
    case Start => None
    case Then(b, Handshake(f, LoginAccept(_))) => Some(f)
    case Then(b, SessionReset) => None
    case Then(b, _) => OpenerOf(b)
  }

  /**
   The request of this grant succeeded, the grant's payload was the last of its answers, and that payload,
   read under the hashed password, is a login response with status 0 and the granted session.
   */
  predicate Granted(cfg: Config, h: History, g: Grant) {
    var ps := ResponsesTo(h, g.request);
    && ps != [] && ps[|ps| - 1] == g.source
    && Outcome(cfg, LoginResponse, cfg.hashedPassword, ps) == Ok
    && Judge(cfg, LoginResponse, cfg.hashedPassword, g.source).Good?
    && Judge(cfg, LoginResponse, cfg.hashedPassword, g.source).content.loginStatus == 0
    && Judge(cfg, LoginResponse, cfg.hashedPassword, g.source).content.session == g.session
  }

  /** Every session ever opened was granted by the answers to the login request of the connect that opened it. */
  ghost predicate LoginsGranted(cfg: Config, h: History) {
    match h
    case Start => true
    case Then(b, Handshake(f, LoginAccept(g))) =>
      LoginsGranted(cfg, b) && PhaseOf(b, f) == LoginSent(g.request) && Granted(cfg, b, g)
    case Then(b, _) => LoginsGranted(cfg, b)
  }

  /** The last thing that happened is that the client's login request was handed to the library. */
  predicate LoginJustPublished(cfg: Config, h: History) {
    h.Then? && h.last.Published? && h.last.message == cfg.loginRequest
  }

  /** Whenever a connect counts its login as published, the login request has just been handed to the library. */
  ghost predicate LoginsPublished(cfg: Config, h: History) {
    match h
    case Start => true
    case Then(b, Handshake(_, LoginPublish(_, _))) => LoginsPublished(cfg, b) && LoginJustPublished(cfg, b)
    case Then(b, _) => LoginsPublished(cfg, b)
  }

  /** The library has taken the login request of this connect, which is request number `request`. */
  ghost predicate LoginOnWire(cfg: Config, h: History, frame: nat, request: nat) {
    match h
    case Start => false
    case Then(b, e) =>
      || (e == Handshake(frame, LoginPublish(0, request)) && LoginJustPublished(cfg, b))
      || LoginOnWire(cfg, b, frame, request)
  }

  /** A connect that has sent its login, or got further, has published the request it waits for. */
  lemma {:induction false} LoginWasPublished(cfg: Config, h: History, frame: nat, request: nat)
    requires LoginsPublished(cfg, h)
    requires match PhaseOf(h, frame)
             case LoginSent(n) => n == request
             case LoggedIn(grant) => grant.request == request
             case Complete(grant) => grant.request == request
             case _ => false
    ensures LoginOnWire(cfg, h, frame, request)
  {
    if h.last == Handshake(frame, LoginPublish(0, request)) {
    } else {
      LoginWasPublished(cfg, h.before, frame, request);
    }
  }

  /** A peer with this key reads `body` out of the payload. */
  predicate ReadableAs(cfg: Config, key: bytes, payload: bytes, body: bytes) {
    Decode(payload).Opened? && BodyUnder(cfg.cipher, key, payload) == body
  }

  /**
   Every published payload carries its message, from the Web platform and with the time that has just been read: login
   requests in the clear, everything else readable under the private key of the session open at that moment.
   */
  ghost predicate PublishedReadable(cfg: Config, h: History) {
    match h
    case Start => true
    case Then(b, Published(m, payload)) =>
      && PublishedReadable(cfg, b)
      && Decode(payload).Opened?
      && Decode(payload).envelope.messageType == MessageTypeFor(m)
      && Decode(payload).envelope.clientId == cfg.clientId
      && Decode(payload).envelope.platform == 4 && Decode(payload).envelope.responseStatus == 0
      && b.Then? && b.last.Library? && b.last.call == ReadTime
      && Decode(payload).envelope.timestamp == b.last.rc % 4294967296
      && if MessageTypeFor(m) == LOGIN_REQUEST then Decode(payload).envelope.messageBody == m.content.wire
         else SessionOf(b).Some? && ReadableAs(cfg, SessionOf(b).value.privateKey, payload, m.content.wire)
    case Then(b, _) => PublishedReadable(cfg, b)
  }

  /** The key a received message is read with. */
  function ReceiveKey(s: SessionInformation, t: byte): bytes {
    if t == CALL_EVENTS then s.publicKey else s.privateKey
  }

  /** `entry` is what `source` says under the keys of `s`. */
  predicate ReceivedUnder(cfg: Config, s: SessionInformation, entry: QueuedMessage, source: bytes) {
    && Decode(source).Opened?
    && Decode(source).envelope.responseStatus == STATUS_SUCCESS
    && Decode(source).envelope.messageType == entry.messageType
    && ClassFor(entry.messageType) == Some(entry.message.typeName)
    && cfg.parse(entry.message.typeName, BodyUnder(cfg.cipher, ReceiveKey(s, entry.messageType), source))
       == Some(entry.message.content)
  }

  /** Every message let into the queue came out of a payload under the keys of the session then open. */
  ghost predicate AcceptedReadable(cfg: Config, h: History) {
    match h
    case Start => true
    case Then(b, Accepted(e, source)) =>
      AcceptedReadable(cfg, b) && SessionOf(b).Some? && ReceivedUnder(cfg, SessionOf(b).value, e, source)
    case Then(b, _) => AcceptedReadable(cfg, b)
  }

  // ----- the message queue

  function AcceptedOf(h: History): seq<QueuedMessage> {
    match h
    case Start => []
    case Then(b, Accepted(e, _)) => AcceptedOf(b) + [e]
    case Then(b, _) => AcceptedOf(b)
  }

  function PoppedOf(h: History): seq<QueuedMessage> {
    match h
    case Start => []
    case Then(b, Popped(e)) => PoppedOf(b) + [e]
    case Then(b, _) => PoppedOf(b)
  }

  function RoutedOf(h: History): seq<Route> {
    match h
    case Start => []
    case Then(b, Routed(r)) => RoutedOf(b) + [r]
    case Then(b, _) => RoutedOf(b)
  }

  function RouteOf(ownTopic: string, e: QueuedMessage): Route {
    if e.topic == ownTopic && e.message.typeName.CallEvents? then ToSession(e.message) else ToBus(e.message)
  }

  function RoutesOf(ownTopic: string, es: seq<QueuedMessage>): (rs: seq<Route>)
    ensures |rs| == |es|
  {
    seq(|es|, i requires 0 <= i < |es| => RouteOf(ownTopic, es[i]))
  }

  // ----- the bus

  /** A message given to the bus: whom it is for, and how many of those it has been handed to. */
  datatype Dispatch = Dispatch(message: Message, audience: seq<Subscriber>, handed: nat) {
    predicate Done() { handed == |audience| }
  }

  function SubscriptionsOf(h: History): seq<Subscription> {
    match h
    case Start => []
    case Then(b, Enlisted(s)) => SubscriptionsOf(b) + [s]
    case Then(b, _) => SubscriptionsOf(b)
  }

  function HandedOne(ds: seq<Dispatch>, k: nat): (r: seq<Dispatch>)
    ensures |r| == |ds|
  {
    if k < |ds| then ds[k := ds[k].(handed := ds[k].handed + 1)] else ds
  }

  /** Every dispatch so far; its audience is that of the moment the bus was called. */
  function DispatchesOf(h: History): seq<Dispatch> {
    match h
    case Start => []
    case Then(b, Routed(ToBus(m))) => DispatchesOf(b) + [Dispatch(m, Audience(SubscriptionsOf(b), m), 0)]
    case Then(b, Handed(k, _)) => HandedOne(DispatchesOf(b), k)
    case Then(b, _) => DispatchesOf(b)
  }

  /** `who` is the next of dispatch `k`, and no later dispatch is unfinished. */
  predicate NextInTurn(ds: seq<Dispatch>, k: nat, who: Subscriber) {
    && k < |ds| && ds[k].handed < |ds[k].audience| && ds[k].audience[ds[k].handed] == who
    && forall j | k < j < |ds| :: ds[j].Done()
  }

  /** Each dispatch went through its audience in order, and the innermost one first. */
  ghost predicate HandedInTurn(h: History) {
    match h
    case Start => true
    case Then(b, Handed(k, who)) => HandedInTurn(b) && NextInTurn(DispatchesOf(b), k, who)
    case Then(b, _) => HandedInTurn(b)
  }

  // ----- timer callbacks

  /** The tickets whose callback has been called, as often as it was. */
  function CalledOf(h: History): multiset<nat> {
    match h
    case Start => multiset{}
    case Then(b, TimerCalled(k)) => CalledOf(b) + multiset{k}
    case Then(b, _) => CalledOf(b)
  }

  // ----- the progress of a connect

  /** How far a connect got. `Scrambled` would mean that its steps came out of order. */
  datatype Phase =
    | Untouched
    | Dialled(ack: Option<int>)
    | Joined
    | LoginSent(request: nat)
    | LoggedIn(grant: Grant)
    | Complete(grant: Grant)
    | Halted(at: Step)
    | Scrambled

  function Advance(p: Phase, s: Step): Phase {
    match (p, s)
    case (Untouched, Dial(rc)) => if rc == 0 then Dialled(None) else Halted(s)
    case (Dialled(_), Connack(code)) => Dialled(Some(code))
    case (Dialled(ack), JoinOwn(rc)) => if ack != Some(0) then Scrambled else if rc == 0 then Joined else Halted(s)
    case (Joined, LoginPublish(rc, request)) => if rc == 0 then LoginSent(request) else Halted(s)
    case (LoginSent(request), LoginAccept(grant)) => if grant.request == request then LoggedIn(grant) else Scrambled
    case (LoggedIn(grant), JoinEvents(rc)) => if rc == 0 then Complete(grant) else Halted(s)
    case _ => Scrambled
  }

  function PhaseOf(h: History, frame: nat): Phase {
    match h
    case Start => Untouched
    case Then(b, Handshake(f, s)) => if f == frame then Advance(PhaseOf(b, frame), s) else PhaseOf(b, frame)
    case Then(b, _) => PhaseOf(b, frame)
  }

  /** What connect may return, given how far it got. */
  predicate Explains(p: Phase, r: Result) {
    match p
    case Complete(_) => r == Ok
    case Dialled(None) => r == Err(ConnectionTimeout)
    case Dialled(Some(code)) => code != 0 && r == Err(ConnectionRefused)
    case Joined => r == Err(LoginFailed)
    case LoginSent(_) => r == Err(LoginFailed) || r == Err(LoginTimeout)
    case Halted(LoginPublish(_, _)) => r == Err(LoginFailed)
    case Halted(_) => r == Err(Transport)
    case _ => false
  }

  /** What connect may return, given everything that happened: a login times out when its request got no answer. */
  predicate Explained(h: History, frame: nat, r: Result) {
    var p := PhaseOf(h, frame);
    && Explains(p, r)
    && (p.LoginSent? ==> (r == Err(LoginTimeout) <==> ResponsesTo(h, p.request) == []))
  }

  /** The connect got as far as the events topic and was refused there. */
  predicate EventsRefused(p: Phase) { p.Halted? && p.at.JoinEvents? }

  /** A session is opened by none but the connects that got past their login. */
  lemma {:induction false} OpenersLoggedIn(h: History, frame: nat)
    requires OpenerOf(h) == Some(frame)
    ensures var p := PhaseOf(h, frame); p.LoggedIn? || p.Complete? || EventsRefused(p) || p.Scrambled?
  {
    if h.last.Handshake? && h.last.step.LoginAccept? {
    } else {
      OpenersLoggedIn(h.before, frame);
    }
  }

  predicate TouchesSession(e: Event) {
    e.SessionReset? || (e.Handshake? && e.step.LoginAccept?)
  }

  /** The last event since `h0` that opened or reset a session. */
  function LastTouch(h0: History, h: History): Option<Event>
    decreases h
  {
    if h == h0 || h.Start? then None
    else if TouchesSession(h.last) then Some(h.last)
    else LastTouch(h0, h.before)
  }

  /** A session is open that `frame` did not open: it was open in `h0` and stayed so, or another connect opened it since. */
  predicate OpenElsewhere(h0: History, h: History, frame: nat) {
    match LastTouch(h0, h)
    case None => SessionOf(h0).Some?
    case Some(e) => e.Handshake? && e.frame != frame
  }

  lemma {:induction false} OpenersKnown(h0: History, h: History, frame: nat)
    requires Extends(h0, h) && PhaseOf(h0, frame).Untouched?
    ensures SessionOf(h).Some? <==> OpenerOf(h) == Some(frame) || OpenElsewhere(h0, h, frame)
  {
    if h == h0 {
      OpenersOpen(h);
      if OpenerOf(h) == Some(frame) {
        OpenersLoggedIn(h, frame);
      }
    } else if TouchesSession(h.last) {
    } else {
      OpenersKnown(h0, h.before, frame);
    }
  }

  lemma {:induction false} OpenersOpen(h: History)
    ensures OpenerOf(h).Some? <==> SessionOf(h).Some?
  {
    match h
    case Start =>
    case Then(b, _) => OpenersOpen(b);
  }

  function StepsOf(h: History, frame: nat): seq<Step> {
    match h
    case Start => []
    case Then(b, Handshake(f, s)) => if f == frame then StepsOf(b, frame) + [s] else StepsOf(b, frame)
    case Then(b, _) => StepsOf(b, frame)
  }

  predicate AllConnacks(steps: seq<Step>) {
    forall i | 0 <= i < |steps| :: steps[i].Connack?
  }

  /** A successful dial, then acknowledgements. */
  predicate DialSteps(steps: seq<Step>) {
    |steps| >= 1 && steps[0] == Dial(0) && AllConnacks(steps[1..])
  }

  predicate JoinedSteps(steps: seq<Step>) {
    var n := |steps| - 1;
    n >= 2 && DialSteps(steps[..n]) && steps[n - 1] == Connack(0) && steps[n] == JoinOwn(0)
  }

  /** The whole handshake: dial, acknowledged with code 0, own topic joined, login sent and accepted, events joined. */
  predicate WholeHandshake(steps: seq<Step>, grant: Grant) {
    var n := |steps|;
    && n >= 6 && JoinedSteps(steps[..n - 3])
    && steps[n - 3] == LoginPublish(0, grant.request) && steps[n - 2] == LoginAccept(grant) && steps[n - 1] == JoinEvents(0)
  }

  /** The own topic was joined and then a login request published; the library took it if `rc` is 0. */
  predicate LoginSteps(steps: seq<Step>) {
    |steps| > 1 && JoinedSteps(steps[..|steps| - 1]) && steps[|steps| - 1].LoginPublish?
  }

  /** The last step is one that the library refused, other than the login. */
  predicate RefusedSteps(steps: seq<Step>) {
    steps != [] && match steps[|steps| - 1]
                   case Dial(rc) => rc != 0
                   case JoinOwn(rc) => rc != 0
                   case JoinEvents(rc) => rc != 0
                   case _ => false
  }

  /** A phase read off a list of steps. */
  function PhaseAfter(steps: seq<Step>): Phase {
    if steps == [] then Untouched else Advance(PhaseAfter(steps[..|steps| - 1]), steps[|steps| - 1])
  }

  lemma {:induction false} PhaseIsOfSteps(h: History, frame: nat)
    ensures PhaseOf(h, frame) == PhaseAfter(StepsOf(h, frame))
  {
    match h
    case Start =>
    case Then(b, e) =>
      PhaseIsOfSteps(b, frame);
      if e.Handshake? && e.frame == frame {
        var steps := StepsOf(h, frame);
        assert steps[..|steps| - 1] == StepsOf(b, frame);
      }
  }

  lemma {:induction false} NeverBackToStart(steps: seq<Step>)
    ensures PhaseAfter(steps).Untouched? <==> steps == []
  {
    if steps == [] {
    } else {
      NeverBackToStart(steps[..|steps| - 1]);
    }
  }

  lemma {:induction false} DialledMeans(steps: seq<Step>)
    ensures PhaseAfter(steps).Dialled? <==> DialSteps(steps)
    ensures DialSteps(steps) ==>
              PhaseAfter(steps) == Dialled(if |steps| == 1 then None else Some(steps[|steps| - 1].code))
  {
    if steps == [] {
    } else {
      var init, n := steps[..|steps| - 1], |steps| - 1;
      DialledMeans(init);
      NeverBackToStart(init);
      if n > 0 {
        OneMoreConnack(steps);
      }
    }
  }

  lemma {:induction false} OneMoreConnack(steps: seq<Step>)
    requires |steps| > 1
    ensures var n := |steps| - 1; DialSteps(steps) <==> DialSteps(steps[..n]) && steps[n].Connack?
  {
    var n := |steps| - 1;
    var acks := steps[1..];
    assert steps[..n][0] == steps[0] && acks[n - 1] == steps[n] && steps[..n][1..] == acks[..n - 1];
    assert AllConnacks(acks) <==> AllConnacks(acks[..n - 1]) && acks[n - 1].Connack?;
  }

  lemma {:induction false} JoinedMeans(steps: seq<Step>)
    ensures PhaseAfter(steps).Joined? <==> JoinedSteps(steps)
  {
    if steps == [] {
    } else {
      DialledMeans(steps[..|steps| - 1]);
    }
  }

  lemma {:induction false} LoginSentMeans(steps: seq<Step>)
    ensures PhaseAfter(steps).LoginSent? <==> LoginSteps(steps) && steps[|steps| - 1].rc == 0
    ensures PhaseAfter(steps).LoginSent? ==> PhaseAfter(steps).request == steps[|steps| - 1].request
  {
    if steps == [] {
    } else {
      JoinedMeans(steps[..|steps| - 1]);
    }
  }

  lemma {:induction false} LoggedInMeans(steps: seq<Step>, grant: Grant)
    ensures PhaseAfter(steps) == LoggedIn(grant) <==>
            && |steps| >= 5 && JoinedSteps(steps[..|steps| - 2])
            && steps[|steps| - 2] == LoginPublish(0, grant.request) && steps[|steps| - 1] == LoginAccept(grant)
  {
    var n := |steps|;
    if n < 2 {
    } else {
      LoginSentMeans(steps[..n - 1]);
      assert steps[..n - 1][..n - 2] == steps[..n - 2];
    }
  }

  /** A connect is complete exactly when its own steps are the whole handshake, in order and nothing else. */
  lemma {:induction false} CompleteMeansWholeHandshake(h: History, frame: nat, grant: Grant)
    ensures PhaseOf(h, frame) == Complete(grant) <==> WholeHandshake(StepsOf(h, frame), grant)
  {
    var steps := StepsOf(h, frame);
    PhaseIsOfSteps(h, frame);
    if |steps| >= 1 {
      var init := steps[..|steps| - 1];
      LoggedInMeans(init, grant);
      if |steps| >= 3 {
        assert init[..|init| - 2] == steps[..|steps| - 3];
      }
    }
  }

  /** The login's publish was refused exactly when it is the last step and its code is not 0. */
  lemma {:induction false} HaltedMeans(steps: seq<Step>)
    ensures PhaseAfter(steps).Halted? ==> steps != [] && PhaseAfter(steps).at == steps[|steps| - 1]
    ensures PhaseAfter(steps).Halted? && !steps[|steps| - 1].LoginPublish? ==> RefusedSteps(steps)
    ensures PhaseAfter(steps).Halted? && steps[|steps| - 1].LoginPublish? ==> LoginSteps(steps) && steps[|steps| - 1].rc != 0
    ensures RefusedSteps(steps) ==> PhaseAfter(steps).Halted? || PhaseAfter(steps).Scrambled?
    ensures LoginSteps(steps) && steps[|steps| - 1].rc != 0 ==> PhaseAfter(steps).Halted?
  {
    if steps == [] {
    } else {
      JoinedMeans(steps[..|steps| - 1]);
    }
  }

  /**
   Reading a result of connect back into the steps that were taken, for every result there is: what each one
   names, and that each one is returned exactly there.
   */
  lemma {:induction false} ResultNamesProgress(h: History, frame: nat, r: Result)
    requires Explained(h, frame, r)
    ensures var steps := StepsOf(h, frame);
            && (r.Ok? <==> exists grant :: WholeHandshake(steps, grant))
            && (r == Err(ConnectionTimeout) <==> steps == [Dial(0)])
            && (r == Err(ConnectionRefused) <==> |steps| > 1 && DialSteps(steps))
            && (r == Err(Transport) <==> RefusedSteps(steps))
            && (r == Err(LoginTimeout) <==>
                  LoginSteps(steps) && steps[|steps| - 1].rc == 0 && ResponsesTo(h, steps[|steps| - 1].request) == [])
            && (r == Err(LoginFailed) <==>
                  || JoinedSteps(steps)
                  || (LoginSteps(steps)
                      && (steps[|steps| - 1].rc != 0 || ResponsesTo(h, steps[|steps| - 1].request) != [])))
  {
    var steps := StepsOf(h, frame);
    PhaseIsOfSteps(h, frame);
    DialledMeans(steps);
    JoinedMeans(steps);
    LoginSentMeans(steps);
    HaltedMeans(steps);
    if r.Ok? {
      CompleteMeansWholeHandshake(h, frame, PhaseOf(h, frame).grant);
    }
    forall grant | WholeHandshake(steps, grant) ensures r.Ok? {
      CompleteMeansWholeHandshake(h, frame, grant);
    }
  }

  // ----- requests and their answers

  function ResponsesTo(h: History, request: nat): seq<bytes> {
    match h
    case Start => []
    case Then(b, Response(r, p)) => if r == request then ResponsesTo(b, request) + [p] else ResponsesTo(b, request)
    case Then(b, _) => ResponsesTo(b, request)
  }

  /** Messages on the client's own topic that no request was waiting for. */
  function StraysOf(h: History): nat {
    match h
    case Start => 0
    case Then(b, Stray(_)) => StraysOf(b) + 1
    case Then(b, _) => StraysOf(b)
  }

  /** What one payload means to a request waiting for `name` under `key`. */
  datatype Verdict = Good(content: Content) | Bad(code: ErrorCode)

  function Judge(cfg: Config, name: TypeName, key: bytes, payload: bytes): Verdict {
    var d := Decode(payload);
    if !d.Opened? then Bad(InvalidMessage)
    else if d.envelope.responseStatus == STATUS_INVALID_SESSION then Bad(InvalidSession)
    else if d.envelope.responseStatus != STATUS_SUCCESS then Bad(BadResponse)
    else if d.envelope.messageType != TypeFor(name) then Bad(UnexpectedResponse)
    else
      match cfg.parse(name, BodyUnder(cfg.cipher, key, payload))
      case None => Bad(InvalidMessage)
      case Some(content) => Good(content)
  }

  /** The verdicts by the fields of the payload: not opened; status 1; status neither 0 nor 1; another type; unreadable. */
  lemma {:induction false} JudgeMeans(cfg: Config, name: TypeName, key: bytes, payload: bytes)
    ensures var v, d := Judge(cfg, name, key, payload), Decode(payload);
            && (!d.Opened? ==> v == Bad(InvalidMessage))
            && (d.Opened? && d.envelope.responseStatus == 1 <==> v == Bad(InvalidSession))
            && (d.Opened? && d.envelope.responseStatus >= 2 <==> v == Bad(BadResponse))
            && (d.Opened? && d.envelope.responseStatus == 0 && d.envelope.messageType != TypeFor(name)
                <==> v == Bad(UnexpectedResponse))
            && (forall c :: v == Good(c) <==> Answers(cfg, name, key, payload, c))
            && (v == Bad(InvalidMessage) <==>
                  || !d.Opened?
                  || (d.envelope.responseStatus == 0 && d.envelope.messageType == TypeFor(name)
                      && cfg.parse(name, BodyUnder(cfg.cipher, key, payload)).None?))
  {
    assert STATUS_SUCCESS == 0 && STATUS_INVALID_SESSION == 1;
  }

  /** The payload opens with status 0 and the type of the class, and its body under the key parses to this content. */
  predicate Answers(cfg: Config, name: TypeName, key: bytes, payload: bytes, c: Content) {
    var d := Decode(payload);
    && d.Opened? && d.envelope.responseStatus == 0 && d.envelope.messageType == TypeFor(name)
    && cfg.parse(name, BodyUnder(cfg.cipher, key, payload)) == Some(c)
  }

  ghost predicate GoodAnswer(cfg: Config, name: TypeName, key: bytes, payload: bytes) {
    exists c :: Answers(cfg, name, key, payload, c)
  }

  /** Payload `i` is no answer, and every later one is. */
  ghost predicate LastFailure(cfg: Config, name: TypeName, key: bytes, ps: seq<bytes>, i: nat) {
    && i < |ps| && !GoodAnswer(cfg, name, key, ps[i])
    && forall j | i < j < |ps| :: GoodAnswer(cfg, name, key, ps[j])
  }

  /**
   What a request must come to: without a payload it times out; if all are answers it succeeds; otherwise the last one
   that is none decides, by its envelope, its status and its type.
   */
  ghost predicate RequestComesTo(cfg: Config, name: TypeName, key: bytes, ps: seq<bytes>, r: Result) {
    && (r == Err(ResponseTimeout) <==> ps == [])
    && (r.Ok? <==> ps != [] && forall i | 0 <= i < |ps| :: GoodAnswer(cfg, name, key, ps[i]))
    && (forall i: nat | LastFailure(cfg, name, key, ps, i) ::
          r == Err(FailureOf(name, Decode(ps[i]))))
  }

  /** What is wrong with a payload that is no answer. */
  function FailureOf(name: TypeName, d: Decoded): ErrorCode {
    if !d.Opened? then InvalidMessage
    else if d.envelope.responseStatus == 1 then InvalidSession
    else if d.envelope.responseStatus != 0 then BadResponse
    else if d.envelope.messageType != TypeFor(name) then UnexpectedResponse
    else InvalidMessage
  }

  lemma {:induction false} FailureJudged(cfg: Config, name: TypeName, key: bytes, payload: bytes)
    requires !GoodAnswer(cfg, name, key, payload)
    ensures Judge(cfg, name, key, payload) == Bad(FailureOf(name, Decode(payload)))
  {
    GoodMeansAnswer(cfg, name, key, payload);
    JudgeMeans(cfg, name, key, payload);
  }

  lemma {:induction false} GoodMeansAnswer(cfg: Config, name: TypeName, key: bytes, payload: bytes)
    ensures Judge(cfg, name, key, payload).Good? <==> GoodAnswer(cfg, name, key, payload)
  {
    JudgeMeans(cfg, name, key, payload);
    if Judge(cfg, name, key, payload).Good? {
      assert Answers(cfg, name, key, payload, Judge(cfg, name, key, payload).content);
    }
  }

  /** The error of the last bad payload; a later good one does not clear it. */
  function LastBad(cfg: Config, name: TypeName, key: bytes, ps: seq<bytes>): Option<ErrorCode> {
    if ps == [] then None
    else
      match Judge(cfg, name, key, ps[|ps| - 1])
      case Bad(code) => Some(code)
      case Good(_) => LastBad(cfg, name, key, ps[..|ps| - 1])
  }

  /** The outcome of a request whose wait brought it these payloads. */
  function Outcome(cfg: Config, name: TypeName, key: bytes, ps: seq<bytes>): Result {
    if ps == [] then Err(ResponseTimeout)
    else
      match LastBad(cfg, name, key, ps)
      case Some(code) => Err(code)
      case None => Ok
  }

  predicate GoodFrom(cfg: Config, name: TypeName, key: bytes, ps: seq<bytes>, from: nat) {
    forall i | from <= i < |ps| :: Judge(cfg, name, key, ps[i]).Good?
  }

  /** Payload `i` is bad and every later one is good. */
  predicate LastBadAt(cfg: Config, name: TypeName, key: bytes, ps: seq<bytes>, i: nat) {
    i < |ps| && Judge(cfg, name, key, ps[i]).Bad? && GoodFrom(cfg, name, key, ps, i + 1)
  }

  lemma {:induction false} LastBadFound(cfg: Config, name: TypeName, key: bytes, ps: seq<bytes>) returns (i: nat)
    ensures LastBad(cfg, name, key, ps).None? ==> GoodFrom(cfg, name, key, ps, 0)
    ensures LastBad(cfg, name, key, ps).Some? ==>
              LastBadAt(cfg, name, key, ps, i) && Judge(cfg, name, key, ps[i]) == Bad(LastBad(cfg, name, key, ps).value)
  {
    hide Judge;
    i := 0;
    if ps == [] {
    } else {
      var n := |ps| - 1;
      var init := ps[..n];
      if Judge(cfg, name, key, ps[n]).Bad? {
        i := n;
      } else {
        i := LastBadFound(cfg, name, key, init);
        assert forall j | 0 <= j < n :: init[j] == ps[j];
      }
    }
  }

  lemma {:induction false} LastBadUnique(cfg: Config, name: TypeName, key: bytes, ps: seq<bytes>, i: nat)
    requires LastBadAt(cfg, name, key, ps, i)
    ensures LastBad(cfg, name, key, ps) == Some(Judge(cfg, name, key, ps[i]).code)
  {
    var n := |ps| - 1;
    if i == n {
    } else {
      assert Judge(cfg, name, key, ps[n]).Good?;
      assert forall j | 0 <= j < n :: ps[..n][j] == ps[j];
      LastBadUnique(cfg, name, key, ps[..n], i);
    }
  }

  /** Success means at least one payload and all of them good; an error is that of the last bad payload. */
  lemma {:induction false} OutcomeMeans(cfg: Config, name: TypeName, key: bytes, ps: seq<bytes>)
    ensures Outcome(cfg, name, key, ps).Ok? <==> ps != [] && GoodFrom(cfg, name, key, ps, 0)
    ensures ps == [] ==> Outcome(cfg, name, key, ps) == Err(ResponseTimeout)
    ensures forall i: nat | LastBadAt(cfg, name, key, ps, i) ::
              Outcome(cfg, name, key, ps) == Err(Judge(cfg, name, key, ps[i]).code)
    ensures !Outcome(cfg, name, key, ps).Ok? && ps != [] ==> exists i: nat :: LastBadAt(cfg, name, key, ps, i)
  {
    var found := LastBadFound(cfg, name, key, ps);
    forall i: nat | LastBadAt(cfg, name, key, ps, i)
      ensures LastBad(cfg, name, key, ps) == Some(Judge(cfg, name, key, ps[i]).code)
    {
      LastBadUnique(cfg, name, key, ps, i);
    }
  }

  /** The outcome of a request is what it must come to. */
  lemma {:induction false} OutcomeComesTo(cfg: Config, name: TypeName, key: bytes, ps: seq<bytes>)
    ensures RequestComesTo(cfg, name, key, ps, Outcome(cfg, name, key, ps))
  {
    hide Judge, BodyUnder, Decode, GoodAnswer, FailureOf;
    OutcomeMeans(cfg, name, key, ps);
    forall i | 0 <= i < |ps| ensures Judge(cfg, name, key, ps[i]).Good? <==> GoodAnswer(cfg, name, key, ps[i]) {
      GoodMeansAnswer(cfg, name, key, ps[i]);
    }
    forall i: nat | LastFailure(cfg, name, key, ps, i) ensures LastBadAt(cfg, name, key, ps, i) {
      assert Judge(cfg, name, key, ps[i]).Bad?;
    }
    if ps != [] {
      var found := LastBadFound(cfg, name, key, ps);
      NeverATimeout(cfg, name, key, ps);
    }
    forall i: nat | LastFailure(cfg, name, key, ps, i)
      ensures Outcome(cfg, name, key, ps) == Err(FailureOf(name, Decode(ps[i])))
    {
      FailureJudged(cfg, name, key, ps[i]);
    }
  }

  /** No single payload is judged a timeout. */
  lemma {:induction false} NeverATimeout(cfg: Config, name: TypeName, key: bytes, ps: seq<bytes>)
    ensures LastBad(cfg, name, key, ps) != Some(ResponseTimeout)
  {
    if ps == [] {
    } else {
      NeverATimeout(cfg, name, key, ps[..|ps| - 1]);
    }
  }

  // ----- reconnecting

  /** Failed reconnects since the last successful one. */
  function FailuresOf(h: History): nat {
    match h
    case Start => 0
    case Then(b, ReconnectFailed) => FailuresOf(b) + 1
    case Then(b, ReconnectSucceeded) => 0
    case Then(b, _) => FailuresOf(b)
  }

  /** The delay last drawn for the timer with this ticket. */
  function DrawnFor(h: History, ticket: nat): Option<int> {
    match h
    case Start => None
    case Then(b, DelayArmed(Some(k), d)) => if k == ticket then Some(d) else DrawnFor(b, ticket)
    case Then(b, _) => DrawnFor(b, ticket)
  }
}
