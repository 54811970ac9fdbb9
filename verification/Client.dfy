/**
 MqttMobilusGtwClientImpl: the client as an object whose methods update its fields in place.
 The library, the network, the clock and the user's callbacks are adversaries: they may answer
 anything, and a user callback may call back into the client.
 */
module Clients {
  import opened Wrappers
  import opened Bytes
  import opened Cipher
  import opened Envelopes
  import opened Time
  import opened Proto
  import opened MessageBuses
  import opened Histories
  import opened Backoff
  import opened Timers
  import opened Watches
  import opened EventLoops
  import opened Machine
  import opened Invariance
  import Dsns

  const PLATFORM_WEB: byte := 4
  const ACK_NONE: int := -1
  const ERR_ERRNO: int := 14
  const KEEP_ALIVE_SECONDS: int := 60

  /** What login makes of the failure of its request. */
  function LoginResult(r: Result): Result {
    if r == Err(ResponseTimeout) then Err(LoginTimeout) else Err(LoginFailed)
  }

  /** Anything the outside may answer. */
  method Anything() returns (n: int) {
    n := *;
  }

  /** What select leaves of its timeout: the time spent is at least a microsecond. */
  method TimeLeft(timeout: Timeval) returns (left: Timeval)
    requires Selectable(timeout) && Micros(timeout) > 0
    ensures Selectable(left) && Micros(left) < Micros(timeout)
  {
    var micros: int := *;
    micros := if 0 <= micros < Micros(timeout) then micros else 0;
    left := Timeval(micros / MICROS_PER_SECOND, micros % MICROS_PER_SECOND);
  }

  /** TLS; certificates are not checked only if the DSN says so. */
  function SecureCalls(dsn: Dsns.Dsn): seq<LibraryCall> {
    [SetTls(dsn.cacert), SetTlsInsecure(dsn.verify == Some(false))]
  }

  function OpenCalls(dsn: Dsns.Dsn): seq<LibraryCall> {
    [SetCredentials(dsn.username, dsn.password),
     ConnectTo(dsn.host, match dsn.port case Some(port) => port case None => 0, 60)]
  }

  /** How connectMqtt sets a new handle up and connects it. */
  function SetUpCalls(dsn: Dsns.Dsn): seq<LibraryCall> {
    (if dsn.secure then SecureCalls(dsn) else []) + OpenCalls(dsn)
  }

  /** The first calls of the plan, each but the last answered by 0, and the last by `rc`; all of them if `rc` is 0. */
  predicate InTurn(plan: seq<LibraryCall>, calls: seq<(LibraryCall, int)>, rc: int) {
    && 0 < |calls| <= |plan| && (rc == 0 ==> |calls| == |plan|)
    && (forall i | 0 <= i < |calls| :: calls[i].0 == plan[i] && (i + 1 < |calls| ==> calls[i].1 == 0))
    && calls[|calls| - 1].1 == rc
  }

  lemma OnlyTheFirst(first: seq<LibraryCall>, second: seq<LibraryCall>, calls: seq<(LibraryCall, int)>, rc: int)
    requires InTurn(first, calls, rc) && rc != 0
    ensures InTurn(first + second, calls, rc)
  {
  }

  lemma OneAfterTheOther(first: seq<LibraryCall>, second: seq<LibraryCall>,
                         calls: seq<(LibraryCall, int)>, more: seq<(LibraryCall, int)>, rc: int)
    requires (first == [] && calls == []) || InTurn(first, calls, 0)
    requires InTurn(second, more, rc)
    ensures InTurn(first + second, calls + more, rc)
  {
  }

  /** An existing handle is only reconnected; otherwise one is made, which may fail, and set up. */
  predicate DialCalls(clientId: ClientId, dsn: Dsns.Dsn, existed: bool, calls: seq<(LibraryCall, int)>, rc: int) {
    if existed then calls == [(ReconnectHandle, rc)]
    else
      && calls != [] && calls[0].0 == NewHandle(clientId)
      && if calls[0].1 == 0 then |calls| == 1 && rc == 14 else InTurn(SetUpCalls(dsn), calls[1..], rc)
  }

  /**
   What a dial of a new handle asks of the library, by the DSN: each call but the last succeeded; the handle first; TLS,
   with certificates unchecked only for verify=false; then the credentials; a successful dial ends by connecting.
   */
  lemma {:induction false} WhatIsDialled(clientId: ClientId, dsn: Dsns.Dsn, calls: seq<(LibraryCall, int)>, rc: int)
    requires DialCalls(clientId, dsn, false, calls, rc)
    ensures calls != [] && calls[0].0 == NewHandle(clientId) && (calls[0].1 == 0 ==> |calls| == 1 && rc == 14)
    ensures forall i | 0 < i < |calls| - 1 :: calls[i].1 == 0
    ensures |calls| > 1 ==> calls[|calls| - 1].1 == rc
    ensures dsn.secure && |calls| > 1 ==> calls[1].0 == SetTls(dsn.cacert)
    ensures dsn.secure && |calls| > 2 ==> calls[2].0 == SetTlsInsecure(dsn.verify == Some(false))
    ensures var at := if dsn.secure then 3 else 1;
            && (|calls| > at ==> calls[at].0 == SetCredentials(dsn.username, dsn.password))
            && (|calls| > at + 1 ==> |calls| == at + 2 && calls[at + 1].0.ConnectTo? && calls[at + 1].0.host == dsn.host
                                     && calls[at + 1].0.keepAlive == 60
                                     && (dsn.port.Some? ==> calls[at + 1].0.port == dsn.port.value))
            && (rc == 0 ==> |calls| == at + 2)
  {
    if calls[0].1 != 0 {
      var plan, more := SetUpCalls(dsn), calls[1..];
      assert forall i | 0 <= i < |more| :: calls[i + 1] == more[i] && more[i].0 == plan[i];
    }
  }

  /** A dial: the library's calls and their code, the socket, the wait, how it ended, and the state it left. */
  datatype DialRun = DialRun(calls: seq<(LibraryCall, int)>, rc: int, fd: int, wait: WaitRun, result: Result, after: State)

  /** The dial of a connect in `s`, with a wait for its acknowledgement of as long as the timeout says. */
  ghost predicate DialMade(clientId: ClientId, dsn: Dsns.Dsn, existed: bool, timeout: int, s: State, x: DialRun) {
    var d := DialledOut(Recorded(s, x.calls), x.rc, x.fd);
    && DialCalls(clientId, dsn, existed, x.calls, x.rc)
    && if x.rc != 0 then x.result == Err(Transport) && x.after == d
       else
         && WaitEnded(OfContext(|s.contexts|), x.fd, timeout, d, x.wait)
         && AcknowledgementRead(x.wait.after, |s.contexts|, x.result, x.after)
  }

  /**
   A handshake goes no further than a dial that failed; after an accepted one it goes on from there, does not send its
   login only if the client is not connected any more, and leaves the broker if it fails.
   */
  ghost predicate ShakenHands(x: DialRun, frame: nat, r: Result, t: State) {
    if !x.result.Ok? then r == x.result && t == x.after
    else
      && Extends(x.after.history, t.history)
      && (PhaseOf(t.history, frame).Joined? ==> !x.after.connected)
      && (!r.Ok? ==> !t.connected && LeftBroker(t.history))
  }

  class Client {
    const cfg: Config
    const keepAlive: Option<Message>
    const mDsn: Dsns.Dsn
    const mConnectTimeout: int
    const mResponseTimeout: int
    const mLoop: SelectEventLoop
    const mReconnectDelay: ExponentialBackoff
    const mMessageBus: MessageBus

    // the library handle: whether it exists, and which callbacks have been set on it
    var mMosqExists: bool
    var mConnectCallback: bool
    var mMessageCallback: bool
    var mUserData: UserData
    var mSocket: int

    var mMessageQueue: seq<QueuedMessage>
    var mSessionInfo: Option<SessionInformation>
    var mExpectedResponse: Option<nat>
    var mConnected: bool
    var mReconnecting: bool
    var mReconnectTimerId: int
    var mMiscTimerId: int

    // the frames of sendRequest and connect that callbacks point into
    var mRequests: seq<ExpectedResponse>
    var mContexts: seq<ConnectContext>

    /** How many more calls the user's callbacks will make into the client. */
    var mReentries: nat
    /** How many dispatches of the bus are under way; while there are any, nobody subscribes. */
    var mDispatching: nat

    ghost var history: History
    ghost var marks: Marks

    ghost function Snap(): State
      reads this, mLoop, mReconnectDelay, mMessageBus
    {
      State(mConnected, mReconnecting, mSessionInfo, mExpectedResponse, mMessageQueue, mReconnectDelay.mDelay,
            mReconnectTimerId, mMiscTimerId, mUserData, mRequests, mContexts,
            mLoop.table, mLoop.watches, mMessageBus.subscriptions, mSocket, history, mReentries, marks)
    }

    /** The consistency of the parts: the loop, the backoff, the bus. */
    ghost predicate Consistent()
      reads this, mLoop, mLoop.mTimers, mLoop.mSocketWatches, mReconnectDelay, mMessageBus
    {
      && mLoop.Valid() && mMessageBus.Valid()
      && mReconnectDelay.Valid()
      && mReconnectDelay.mBaseDelay == RECONNECT_BASE && mReconnectDelay.mMaxDelay == RECONNECT_MAX
      && mReconnectDelay.mFactor == RECONNECT_FACTOR
      && mDispatching == |marks.open|
      && cfg.loginRequest.typeName.LoginRequest?
      && (mUserData.Self? ==> mMessageCallback)
    }

    ghost predicate Valid()
      reads this, mLoop, mLoop.mTimers, mLoop.mSocketWatches, mReconnectDelay, mMessageBus
    {
      Consistent() && Inv(cfg, Snap())
    }

    /** A new client on a loop that may already serve others. */
    constructor (cfg: Config, keepAlive: Option<Message>, dsn: Dsns.Dsn,
                 connectTimeout: int, responseTimeout: int, loop: SelectEventLoop)
      requires loop.Valid() && cfg.loginRequest.typeName.LoginRequest?
      requires forall i | 0 <= i < TIMER_COUNT ::
                 loop.table.timers[i].callback.NoCallback? || loop.table.timers[i].callback.ForeignTimer?
      ensures Valid() && mLoop == loop && this.cfg == cfg
      ensures Snap() == NewClient(loop.table, loop.watches)
      ensures fresh(mReconnectDelay) && fresh(mMessageBus)
    {
      this.cfg, this.keepAlive, mDsn := cfg, keepAlive, dsn;
      mConnectTimeout, mResponseTimeout, mLoop := connectTimeout, responseTimeout, loop;
      mReconnectDelay := new ExponentialBackoff(RECONNECT_BASE, RECONNECT_MAX, RECONNECT_FACTOR);
      mMessageBus := new MessageBus();
      mMosqExists, mConnectCallback, mMessageCallback := false, false, false;
      mUserData, mSocket := NoUserData, INVALID_FD;
      mMessageQueue, mSessionInfo, mExpectedResponse := [], None, None;
      mConnected, mReconnecting := false, false;
      mReconnectTimerId, mMiscTimerId := INVALID_TIMER, INVALID_TIMER;
      mRequests, mContexts := [], [];
      mReentries, mDispatching := 0, 0;
      history := History.Start;
      marks := NewClient(loop.table, loop.watches).marks;
      new;
      NewClientInv(cfg, loop.table, loop.watches);
    }

    // ----- the library and the system

    /** A call of the library, or of the system's clock for the date; it may answer anything. */
    method CallLibrary(call: LibraryCall) returns (rc: int)
      modifies this`history
      ensures Snap() == Log(old(Snap()), Library(call, rc))
    {
      rc := Anything();
      history := Then(history, Library(call, rc));
    }

    /** select: only what was asked for can be found. */
    method Select(asked: Fds, timeout: Timeval) returns (rc: int, found: Fds)
      modifies this`history
      ensures Snap() == Log(old(Snap()), Polled(asked, timeout, found, rc))
      ensures found.toRead <= asked.toRead && found.toWrite <= asked.toWrite
    {
      rc := Anything();
      var toRead: set<int>, toWrite: set<int> := *, *;
      found := Fds(toRead * asked.toRead, toWrite * asked.toWrite);
      history := Then(history, Polled(asked, timeout, found, rc));
    }

    // ----- the event handlers that start a reconnect

    /** mReconnectDelay.delay() with whatever rand() returns. */
    method DrawDelay() returns (d: int)
      requires Consistent()
      ensures 0 <= d < mReconnectDelay.mDelay
    {
      var random := Anything();
      d := mReconnectDelay.Delay(if random < 0 then 0 else random);
    }

    /** Draws a delay and starts the reconnect timer for it. */
    method ArmReconnect() returns (ghost elapsed: nat, ghost delay: int)
      requires Consistent()
      modifies this`mReconnectTimerId, this`mReconnecting, this`history, mLoop`mClock, mLoop`table, mLoop.mTimers
      ensures Consistent() && 0 <= delay < mReconnectDelay.mDelay
      ensures Snap() == ReconnectArmed(old(Snap()), elapsed, delay)
    {
      var d := DrawDelay();
      ghost var ticket := NextTicket(mLoop.table);
      mReconnectTimerId, elapsed := mLoop.StartTimer(d, ReconnectTimer);
      mReconnecting := true;
      delay := d;
      history := Then(history, DelayArmed(ticket, d));
    }

    method ResetSession()
      requires Consistent()
      modifies this`mSessionInfo, this`history
      ensures Consistent() && Snap() == SessionCut(old(Snap()))
    {
      mSessionInfo := None;
      history := Then(history, SessionReset);
    }

    /** The body of handleLostConnection. */
    method GiveUpConnection() returns (ghost luck: Luck)
      requires Consistent() && !mReconnecting
      modifies this`mReconnectTimerId, this`mReconnecting, this`mConnected, this`mSessionInfo, this`history, this`marks
      modifies mLoop`mClock, mLoop`table, mLoop`watches, mLoop.mTimers, mLoop.mSocketWatches
      ensures Consistent() && 0 <= luck.delay < mReconnectDelay.mDelay
      ensures Snap() == LostConnection(old(Snap()), luck)
    {
      hide Started, Unwatch, NextTicket;
      mLoop.UnwatchSocket(mSocket);
      ghost var elapsed, delay := ArmReconnect();
      mConnected := false;
      marks := marks.(ready := false);
      ResetSession();
      luck := Luck(false, 0, elapsed, delay);
    }

    method HandleLostConnection() returns (ghost luck: Luck)
      requires Valid() && !marks.linkUp
      modifies this, mLoop, mLoop.mTimers, mLoop.mSocketWatches
      ensures Valid() && Evolves(old(Snap()), Snap()) && mReentries == old(mReentries)
      ensures 0 <= luck.delay < old(mReconnectDelay.mDelay)
      ensures Snap() == LostConnection(old(Snap()), luck)
    {
      luck := Luck(false, 0, 0, 0);
      ghost var s := Snap();
      if mReconnecting {
        DelayPositive();
        EvolvesRefl(s);
        return;
      }
      luck := GiveUpConnection();
      LostConnectionInv(cfg, s, luck);
    }

    lemma {:induction false} DelayPositive()
      requires Consistent()
      ensures mReconnectDelay.mDelay > 0
    {
      BoundPositive(RECONNECT_BASE, RECONNECT_FACTOR, RECONNECT_MAX, mReconnectDelay.failures);
    }

    /** The part of disconnect that talks to the loop and the library. */
    method CloseConnection() returns (rc: int, ghost closed: bool)
      requires Consistent()
      modifies this`mConnected, this`mSocket, this`marks, this`history
      modifies mLoop`mClock, mLoop`table, mLoop`watches, mLoop.mTimers, mLoop.mSocketWatches
      ensures Consistent()
      ensures Snap() == Closed(old(Snap()), rc, closed)
    {
      mLoop.UnwatchSocket(mSocket);
      mLoop.StopTimer(mReconnectTimerId);
      mLoop.StopTimer(mMiscTimerId);
      rc, closed := LeaveBroker();
    }

    /** mosquitto_disconnect, after which the client counts as not connected. */
    method LeaveBroker() returns (rc: int, ghost closed: bool)
      modifies this`mConnected, this`mSocket, this`marks, this`history
      ensures Snap() == Abandoned(old(Snap()), rc, closed)
    {
      rc := CallLibrary(LibraryCall.LeaveBroker);
      var fd := Anything();
      closed := fd < 0;
      mSocket := if fd < 0 then INVALID_FD else mSocket;
      marks := marks.(linkUp := false, ready := false);
      mConnected := false;
    }

    /** Fails exactly when the library was called and returned an error. */
    method Disconnect() returns (r: Result, ghost rc: int, ghost closed: bool)
      requires Valid() && (marks.disciplined ==> !mReconnecting)
      modifies this, mLoop, mLoop.mTimers, mLoop.mSocketWatches
      ensures Valid() && Evolves(old(Snap()), Snap()) && mReentries == old(mReentries)
      ensures Snap() == Disconnected(old(Snap()), rc, closed)
      ensures r == if old(mConnected) && rc != 0 then Err(Transport) else Ok
    {
      hide Inv, EvolvesPast, Closed, SessionCut;
      rc, closed := 0, false;
      ghost var s := Snap();
      ResetSession();
      r := Ok;
      if mConnected {
        var code;
        code, closed := CloseConnection();
        rc := code;
        r := if code != 0 then Err(Transport) else Ok;
      }
      DisconnectedInv(cfg, s, rc, closed);
    }

    method HandleInvalidSession() returns (ghost luck: Luck)
      requires Valid()
      modifies this, mLoop, mLoop.mTimers, mLoop.mSocketWatches
      ensures Valid() && Evolves(old(Snap()), Snap()) && mReentries == old(mReentries)
      ensures 0 <= luck.delay < old(mReconnectDelay.mDelay)
      ensures Snap() == InvalidatedSession(old(Snap()), luck)
    {
      luck := Luck(false, 0, 0, 0);
      ghost var s := Snap();
      if mReconnecting {
        DelayPositive();
        EvolvesRefl(s);
        return;
      }
      var r;
      ghost var rc: int, closed: bool;
      r, rc, closed := Disconnect();
      ghost var elapsed, delay := ArmReconnect();
      luck := Luck(closed, rc, elapsed, delay);
      InvalidatedSessionInv(cfg, s, luck);
    }

    /** The misc timer keeps the library's keep-alive going: it is started for a second. */
    method RestartMisc() returns (ghost elapsed: nat)
      requires Consistent()
      modifies this`mMiscTimerId, mLoop`mClock, mLoop`table, mLoop.mTimers
      ensures Consistent() && Snap() == MiscScheduled(old(Snap()), elapsed)
    {
      mLoop.StopTimer(mMiscTimerId);
      mMiscTimerId, elapsed := mLoop.StartTimer(MISC_PERIOD, MiscTimer);
    }

    method ScheduleMisc() returns (ghost elapsed: nat)
      requires Valid()
      requires marks.disciplined && mReconnecting ==> !Holds(mLoop.table, mMiscTimerId, ReconnectTimer)
      modifies this, mLoop, mLoop.mTimers
      ensures Valid() && Evolves(old(Snap()), Snap()) && mReentries == old(mReentries)
      ensures Snap() == MiscScheduled(old(Snap()), elapsed)
      ensures marks.disciplined ==> Holds(mLoop.table, mMiscTimerId, MiscTimer)
    {
      ghost var s := Snap();
      elapsed := RestartMisc();
      MiscScheduledInv(cfg, s, elapsed);
    }

    // ----- publishing

    /** The serialized envelope for a message, encrypted under the open session unless it is a login request. */
    method PayloadFor(message: Message, time: int) returns (payload: bytes)
      requires MessageTypeFor(message) != LOGIN_REQUEST ==> mSessionInfo.Some?
      ensures Carries(cfg, mSessionInfo, message, time, payload)
    {
      var envelope := Envelope(MessageTypeFor(message), time % TWO_TO_32, cfg.clientId, PLATFORM_WEB, STATUS_SUCCESS,
                               message.content.wire);
      ghost var plain := envelope;
      if LOGIN_REQUEST != envelope.messageType {
        var iv := Timestamp2Iv(envelope.timestamp);
        var body := Encrypt(cfg.cipher, envelope.messageBody, mSessionInfo.value.privateKey, iv);
        envelope := envelope.(messageBody := body);
        PeerReadsBody(cfg.cipher, mSessionInfo.value.privateKey, plain);
      } else {
        DecodeEncoded(plain);
      }
      var buffer := Serialize(envelope);
      payload := buffer[..];
    }

    /** The rest of send, once its checks have passed; the library may refuse the publish. */
    method Publish(message: Message, time: int, ghost frame: Option<nat>)
      returns (r: Result, ghost payload: bytes, ghost rc: int)
      requires MessageTypeFor(message) != LOGIN_REQUEST ==> mSessionInfo.Some?
      modifies this`history
      ensures Carries(cfg, mSessionInfo, message, time, payload)
      ensures Snap() == PublishedTo(old(Snap()), message, payload, frame, rc)
      ensures r == if rc == 0 then Ok else Err(Transport)
    {
      ghost var s := Snap();
      var bytes := PayloadFor(message, time);
      var code := Anything();
      payload, rc := bytes, code;
      history := PublishedTo(s, message, payload, frame, rc).history;
      r := if code == 0 then Ok else Err(Transport);
    }

    /** `frame` names the connect on whose behalf a login is sent; the time is read before the session is asked for. */
    method Send(message: Message, ghost frame: Option<nat>)
      returns (r: Result, ghost time: int, ghost payload: bytes, ghost rc: int)
      modifies this`history
      ensures SendSpec(cfg, old(Snap()), message, time, payload, frame, rc, r, Snap())
      ensures r == Err(NoConnection) <==> !old(mConnected)
      ensures r == Err(NoSession) <==> old(mConnected) && !message.typeName.LoginRequest? && old(mSessionInfo) == None
    {
      payload, time, rc := [], 0, 0;
      if !mConnected {
        r := Err(NoConnection);
      } else {
        var now := CallLibrary(ReadTime);
        time := now;
        if MessageTypeFor(message) != LOGIN_REQUEST && mSessionInfo == None {
          r := Err(NoSession);
        } else {
          r, payload, rc := Publish(message, now, frame);
        }
      }
    }

    // ----- the user's code

    /** A callback of the user: it may call into the client, and use the loop, any number of times. */
    method UserCode()
      requires Valid()
      modifies this, mLoop, mLoop.mTimers, mLoop.mSocketWatches, mMessageBus
      ensures Valid() && Evolves(old(Snap()), Snap()) && mReentries <= old(mReentries)
      ensures mReentries == old(mReentries) ==> Snap() == old(Snap())
      ensures StaysDown(old(Snap()), Snap())
      decreases mReentries, 1, 0
    {
      hide Inv;
      ghost var s := Snap();
      var more := Anything();
      if more <= 0 || mReentries == 0 {
        EvolvesRefl(s);
        return;
      }
      UserStep();
      ghost var t := Snap();
      UserCode();
      EvolvesTransitive(s, t, Snap());
    }

    /** One call by the user, which uses up one of those that are left. */
    method UserStep()
      requires Valid() && mReentries > 0
      modifies this, mLoop, mLoop.mTimers, mLoop.mSocketWatches, mMessageBus
      ensures Valid() && Evolves(old(Snap()), Snap()) && mReentries < old(mReentries)
      ensures StaysDown(old(Snap()), Snap())
      decreases mReentries, 0
    {
      hide Inv;
      ghost var s := Snap();
      CallSpent(cfg, s);
      mReentries := mReentries - 1;
      ghost var t := Snap();
      UserCall();
      EvolvesTransitive(s, t, Snap());
    }

    method UserCall()
      requires Valid()
      modifies this, mLoop, mLoop.mTimers, mLoop.mSocketWatches, mMessageBus
      ensures Valid() && Evolves(old(Snap()), Snap()) && mReentries <= old(mReentries)
      ensures StaysDown(old(Snap()), Snap())
      decreases mReentries, 23
    {
      hide Inv;
      var choice := Anything();
      if choice == 0 {
        var r := UserConnect();
      } else if choice == 1 {
        var r, rc, closed := UserDisconnect();
      } else if choice == 2 {
        UserSends();
      } else if choice == 3 {
        UserSubscribes();
      } else {
        UserUsesLoop(choice);
      }
    }

    /** The user does something with the loop that the client is on. */
    method UserUsesLoop(choice: int)
      requires Valid()
      modifies this`marks, mLoop, mLoop.mTimers, mLoop.mSocketWatches
      ensures Valid() && Evolves(old(Snap()), Snap())
    {
      hide Inv;
      if choice == 4 {
        UserStartsTimer();
      } else if choice == 5 {
        UserStopsTimer();
      } else if choice == 6 {
        UserWatches();
      } else if choice == 7 {
        UserUnwatches();
      } else {
        EvolvesRefl(Snap());
        mLoop.Stop();
      }
    }

    /** The user calls connect or disconnect. */
    method NoteUserStep()
      requires Valid()
      modifies this`marks
      ensures Valid() && Evolves(old(Snap()), Snap()) && Snap() == UserSteps(old(Snap()))
    {
      hide Inv, EvolvesPast;
      ghost var s := Snap();
      UserStepsInv(cfg, s);
      marks := UserSteps(s).marks;
    }

    /** connect, called by the user: against the rules while reconnecting. */
    method ConnectForUser() returns (r: Result)
      requires Valid()
      modifies this, mLoop, mLoop.mTimers, mLoop.mSocketWatches, mMessageBus
      ensures Valid() && Evolves(old(Snap()), Snap()) && mReentries <= old(mReentries)
      ensures !old(mConnected) ==> |old(mContexts)| < |mContexts|
      ensures !old(mConnected) && r.Ok? && marks.disciplined ==>
                mConnected && !mReconnecting && Holds(mLoop.table, mMiscTimerId, MiscTimer)
      decreases mReentries, 21
    {
      hide Inv, EvolvesPast, ConnectSpec, FailedConnect, MiscScheduled, Holds, OpenElsewhere, EventsRefused;
      ghost var s := Snap();
      NoteUserStep();
      ghost var t := Snap();
      ghost var x: DialRun, mid: State, elapsed: nat;
      r, x, mid, elapsed := Connect();
      EvolvesTransitive(s, t, Snap());
      NoAttemptUnderWay(cfg, s, Snap());
    }

    method UserConnect() returns (r: Result)
      requires Valid()
      modifies this, mLoop, mLoop.mTimers, mLoop.mSocketWatches, mMessageBus
      ensures Valid() && Evolves(old(Snap()), Snap()) && mReentries <= old(mReentries)
      ensures r.Ok? && !old(mConnected) ==> marks.ready
      ensures StaysDown(old(Snap()), Snap())
      decreases mReentries, 22
    {
      hide Inv, EvolvesPast, Holds;
      ghost var s := Snap();
      var dialled := !mConnected;
      r := ConnectForUser();
      if r.Ok? && dialled {
        ghost var u := Snap();
        MarkReady();
        EvolvesTransitive(s, u, Snap());
      }
    }

    /** From here on the connection is in use, and its misc timer is to be kept going. */
    method MarkReady()
      requires Valid()
      requires marks.disciplined ==> mConnected && !mReconnecting && Holds(mLoop.table, mMiscTimerId, MiscTimer)
      modifies this`marks
      ensures Valid() && Evolves(old(Snap()), Snap()) && Snap() == Ready(old(Snap()), true)
    {
      ReadyInv(cfg, Snap(), true);
      marks := marks.(ready := true);
    }

    method UserDisconnect() returns (r: Result, ghost rc: int, ghost closed: bool)
      requires Valid()
      modifies this, mLoop, mLoop.mTimers, mLoop.mSocketWatches
      ensures Valid() && Evolves(old(Snap()), Snap()) && mReentries == old(mReentries)
      ensures Snap() == Disconnected(UserSteps(old(Snap())), rc, closed)
      ensures r == if old(mConnected) && rc != 0 then Err(Transport) else Ok
    {
      hide Inv;
      ghost var s := Snap();
      NoteUserStep();
      ghost var t := Snap();
      r, rc, closed := Disconnect();
      EvolvesTransitive(s, t, Snap());
    }

    /** send, or one of the sendRequest overloads, with any message. */
    method UserSends()
      requires Valid()
      modifies this, mLoop, mLoop.mTimers, mLoop.mSocketWatches, mMessageBus
      ensures Valid() && Evolves(old(Snap()), Snap()) && mReentries <= old(mReentries)
      ensures !old(mConnected) ==> Snap() == old(Snap())
      decreases mReentries, 21
    {
      hide Inv;
      ghost var s := Snap();
      var message: Message := *;
      var name: TypeName := *;
      var wantsAnswer := Anything();
      if wantsAnswer > 0 {
        var r, response, x := SendSessionRequest(message, name);
      } else {
        var r, time, payload, rc := Send(message, None);
        SendInv(cfg, s, message, time, payload, None, rc, r, Snap());
      }
    }

    /** messageBus().subscribe or subscribeAll; a subscription during a dispatch is not part of this model. */
    method UserSubscribes()
      requires Valid()
      modifies this`history, mMessageBus
      ensures Valid() && Evolves(old(Snap()), Snap())
    {
      hide Inv, EvolvesPast;
      ghost var s := Snap();
      if mDispatching > 0 {
        EvolvesRefl(s);
        return;
      }
      var who: Subscriber := *;
      var name: TypeName := *;
      var all := Anything();
      ghost var subscription := Subscription(if all > 0 then UNKNOWN else TypeFor(name), who);
      SubscriptionMadeInv(cfg, s, subscription);
      if all > 0 {
        mMessageBus.SubscribeAll(who);
      } else {
        mMessageBus.SubscribeTo(name, who);
      }
      history := Then(history, Enlisted(subscription));
    }

    method ForeignStart(delay: int) returns (ghost elapsed: nat)
      requires Consistent()
      modifies this`marks, mLoop`mClock, mLoop`table, mLoop.mTimers
      ensures Consistent() && Snap() == ForeignStarted(old(Snap()), elapsed, delay, 0)
    {
      var id;
      id, elapsed := mLoop.StartTimer(delay, ForeignTimer(0));
      marks := marks.(disciplined := false);
    }

    /** Somebody else starts a timer on the same loop. */
    method UserStartsTimer()
      requires Valid()
      modifies this`marks, mLoop`mClock, mLoop`table, mLoop.mTimers
      ensures Valid() && Evolves(old(Snap()), Snap())
    {
      ghost var s := Snap();
      var delay := Anything();
      var elapsed := ForeignStart(delay);
      ForeignStartedInv(cfg, s, elapsed, delay, 0);
    }

    /** Somebody else stops a timer on the same loop, by whatever id. */
    method UserStopsTimer()
      requires Valid()
      modifies this`marks, mLoop`mClock, mLoop`table, mLoop.mTimers
      ensures Valid() && Evolves(old(Snap()), Snap())
    {
      ghost var s := Snap();
      var id := Anything();
      mLoop.StopTimer(id);
      marks := marks.(disciplined := false);
      ForeignStoppedInv(cfg, s, id);
    }

    /** Somebody else watches a descriptor, even one of the client's. */
    method UserWatches()
      requires Valid()
      modifies this`marks, mLoop`watches, mLoop.mSocketWatches
      ensures Valid() && Evolves(old(Snap()), Snap())
    {
      ghost var s := Snap();
      var fd := Anything();
      mLoop.WatchSocket(fd, ForeignHandler(0));
      ForeignWatchedInv(cfg, s, fd, 0, mLoop.watches);
      marks := ForeignWatched(s, fd, mLoop.watches).marks;
    }

    /** Somebody else stops watching a descriptor. */
    method UserUnwatches()
      requires Valid()
      modifies this`marks, mLoop`watches, mLoop.mSocketWatches
      ensures Valid() && Evolves(old(Snap()), Snap())
    {
      ghost var s := Snap();
      var fd := Anything();
      mLoop.UnwatchSocket(fd);
      ForeignWatchedInv(cfg, s, fd, 0, mLoop.watches);
      marks := ForeignWatched(s, fd, mLoop.watches).marks;
    }

    // ----- receiving

    /** Envelope::deserialize on a received payload; its length comes as an int. */
    method Receive(payload: Wire) returns (d: Decoded)
      ensures d == Decode(payload)
    {
      var buffer := new byte[|payload|](i requires 0 <= i < |payload| => payload[i]);
      d := Deserialize(buffer, |payload|);
      assert buffer[..] == payload;
    }

    /** Decrypts and parses the body of an envelope, as a message of class `name`. */
    method Parse(name: TypeName, key: bytes, payload: Wire, envelope: Envelope) returns (content: Option<Content>)
      requires Decode(payload) == Opened(envelope)
      ensures content == cfg.parse(name, BodyUnder(cfg.cipher, key, payload))
    {
      var iv := Timestamp2Iv(envelope.timestamp);
      var body := Decrypt(cfg.cipher, envelope.messageBody, key, iv);
      content := cfg.parse(name, body);
    }

    /** The connect callback: it finds its context only while a connect is waiting. */
    method OnConnectCallback(code: int)
      requires mUserData.Context? ==> mUserData.frame < |mContexts|
      modifies this`mContexts, this`history
      ensures Snap() == if mConnectCallback && mUserData.Context? then Acknowledged(old(Snap()), mUserData.frame, code)
                        else old(Snap())
      ensures mConnectCallback && mUserData.Context? ==>
                && mContexts == old(mContexts)[mUserData.frame := ConnectContext(true, code)]
                && history == Then(old(history), Handshake(mUserData.frame, Connack(code)))
      ensures PoppedOf(history) == PoppedOf(old(history))
    {
      if mConnectCallback && mUserData.Context? {
        mContexts := mContexts[mUserData.frame := ConnectContext(true, code)];
        history := Then(history, Handshake(mUserData.frame, Connack(code)));
      }
    }

    /** The end of onGeneralMessage: the key by message type, the class by type code, then the queue. */
    method File(topic: string, payload: Wire, envelope: Envelope)
      requires mSessionInfo.Some? && Decode(payload) == Opened(envelope)
      modifies this`mMessageQueue, this`history
      ensures Snap() == Filed(cfg, old(Snap()), topic, payload)
    {
      var session := mSessionInfo.value;
      var key := if CALL_EVENTS == envelope.messageType then session.publicKey else session.privateKey;
      var name := ClassFor(envelope.messageType);
      if name.Some? {
        var content := Parse(name.value, key, payload, envelope);
        if content.Some? {
          var entry := QueuedMessage(topic, envelope.messageType, Message(name.value, content.value));
          mMessageQueue := mMessageQueue + [entry];
          history := Then(history, Accepted(entry, payload));
        }
      }
    }

    /** mRawMessageCallback is called with an envelope: it is on record, and then the user may do anything. */
    method CallRawMessage(payload: Wire)
      requires Valid()
      modifies this, mLoop, mLoop.mTimers, mLoop.mSocketWatches, mMessageBus
      ensures Valid() && Evolves(Log(old(Snap()), RawSeen(payload)), Snap()) && mReentries <= old(mReentries)
      ensures Evolves(old(Snap()), Snap())
      ensures mReentries == old(mReentries) ==> PoppedOf(history) == PoppedOf(old(history))
      decreases mReentries, 1, 1
    {
      hide Inv, EvolvesPast;
      ghost var s := Snap();
      NotedInv(cfg, s, RawSeen(payload));
      history := Then(history, RawSeen(payload));
      ghost var t := Snap();
      assert t == Log(s, RawSeen(payload));
      UserCode();
      EvolvesTransitive(s, t, Snap());
    }

    /** `mid` is the state in which the raw-message callback left the client. */
    method OnGeneralMessage(topic: string, payload: Wire) returns (ghost mid: State, ghost luck: Luck)
      requires Valid()
      modifies this, mLoop, mLoop.mTimers, mLoop.mSocketWatches, mMessageBus
      ensures Valid() && Evolves(old(Snap()), Snap()) && mReentries <= old(mReentries)
      ensures Inv(cfg, mid) && GeneralSpec(cfg, old(Snap()), mid, topic, payload, luck, Snap())
      ensures mReentries == old(mReentries) ==> PoppedOf(history) == PoppedOf(old(history))
      decreases mReentries, 2
    {
      hide Inv, EvolvesPast;
      mid, luck := Snap(), Luck(false, 0, 0, 0);
      TableIsOk(cfg, mid);
      var d := Receive(payload);
      EvolvesRefl(mid);
      if d.Opened? {
        CallRawMessage(payload);
        mid := Snap();
        TableIsOk(cfg, mid);
        luck := ConsiderMessage(topic, payload, d.envelope);
        EvolvesTransitive(old(Snap()), mid, Snap());
      }
    }

    /** The checks of onGeneralMessage after the raw-message callback. */
    method ConsiderMessage(topic: string, payload: Wire, envelope: Envelope) returns (ghost luck: Luck)
      requires Valid() && Decode(payload) == Opened(envelope)
      modifies this, mLoop, mLoop.mTimers, mLoop.mSocketWatches
      ensures Valid() && Evolves(old(Snap()), Snap()) && mReentries == old(mReentries)
      ensures ConsideredSpec(cfg, old(Snap()), topic, payload, luck, Snap())
      ensures PoppedOf(history) == PoppedOf(old(history))
    {
      hide Inv, EvolvesPast;
      ghost var s := Snap();
      luck := Luck(false, 0, 0, 0);
      if envelope.responseStatus == STATUS_INVALID_SESSION {
        luck := HandleInvalidSession();
        InvalidatedHistory(s, luck);
      } else if envelope.responseStatus == STATUS_SUCCESS && mSessionInfo.Some? {
        File(topic, payload, envelope);
        FiledInv(cfg, s, topic, payload);
      } else {
        EvolvesRefl(s);
      }
    }

    /** What onExpectedResponse writes into the waiting request; every branch notifies. */
    method Answer(i: nat, payload: Wire, d: Decoded)
      requires i < |mRequests| && d == Decode(payload) && mRequests[i].messageType == TypeFor(mRequests[i].typeName)
      modifies this`mRequests, this`history
      ensures Snap() == Answered(cfg, old(Snap()), i, payload)
      ensures PoppedOf(history) == PoppedOf(old(history))
    {
      var request := mRequests[i];
      if !d.Opened? {
        request := request.(error := Some(InvalidMessage));
      } else if d.envelope.responseStatus == STATUS_INVALID_SESSION {
        request := request.(error := Some(InvalidSession));
      } else if d.envelope.responseStatus != STATUS_SUCCESS {
        request := request.(error := Some(BadResponse));
      } else if d.envelope.messageType != request.messageType {
        request := request.(error := Some(UnexpectedResponse));
      } else {
        var content := Parse(request.typeName, request.key, payload, d.envelope);
        if content.None? {
          request := request.(error := Some(InvalidMessage));
        } else {
          request := request.(message := Some(content.value));
        }
      }
      mRequests := mRequests[i := request.(notified := true)];
      history := Then(history, Response(i, payload));
    }

    method OnExpectedResponse(i: nat, payload: Wire) returns (ghost mid: State)
      requires Valid() && mExpectedResponse == Some(i)
      modifies this, mLoop, mLoop.mTimers, mLoop.mSocketWatches, mMessageBus
      ensures Valid() && Evolves(old(Snap()), Snap()) && mReentries <= old(mReentries)
      ensures Heard(old(Snap()), payload, mid) && i < |mid.requests| && Snap() == Answered(cfg, mid, i, payload)
      ensures mReentries == old(mReentries) ==> PoppedOf(history) == PoppedOf(old(history))
      decreases mReentries, 2
    {
      hide Inv, EvolvesPast, Answered, Judge, Decode, BodyUnder;
      ghost var s := Snap();
      var d := Receive(payload);
      if d.Opened? {
        CallRawMessage(payload);
      } else {
        EvolvesRefl(s);
      }
      mid := Snap();
      StillWaiting(cfg, s, i, mid);
      Answer(i, payload, d);
      AnsweredInv(cfg, mid, i, payload);
      EvolvesTransitive(s, mid, Snap());
    }

    /**
     Messages on the client's own topic go to the waiting request, if there is one, and otherwise take the way of
     those on the events topic; other topics are ignored.
     */
    method OnMessage(topic: string, payload: Wire) returns (ghost mid: State, ghost luck: Luck)
      requires Valid()
      modifies this, mLoop, mLoop.mTimers, mLoop.mSocketWatches, mMessageBus
      ensures Valid() && Evolves(old(Snap()), Snap()) && mReentries <= old(mReentries)
      ensures MessageSpec(cfg, old(Snap()), mid, topic, payload, luck, Snap())
      ensures mReentries == old(mReentries) ==> PoppedOf(history) == PoppedOf(old(history))
      decreases mReentries, 4
    {
      hide Inv, EvolvesPast;
      ghost var s := Snap();
      mid, luck := s, Luck(false, 0, 0, 0);
      if topic == EVENTS_TOPIC {
        mid, luck := OnGeneralMessage(topic, payload);
        TableIsOk(cfg, mid);
      } else if topic == cfg.ownTopic {
        mid, luck := OnPrivateMessage(topic, payload);
      } else {
        EvolvesRefl(s);
      }
    }

    method OnPrivateMessage(topic: string, payload: Wire) returns (ghost mid: State, ghost luck: Luck)
      requires Valid()
      modifies this, mLoop, mLoop.mTimers, mLoop.mSocketWatches, mMessageBus
      ensures Valid() && Evolves(old(Snap()), Snap()) && mReentries <= old(mReentries)
      ensures PrivateSpec(cfg, old(Snap()), mid, topic, payload, luck, Snap())
      ensures mReentries == old(mReentries) ==> PoppedOf(history) == PoppedOf(old(history))
      decreases mReentries, 3
    {
      hide Inv, EvolvesPast;
      ghost var s := Snap();
      luck := Luck(false, 0, 0, 0);
      if mExpectedResponse.Some? {
        mid := OnExpectedResponse(mExpectedResponse.value, payload);
      } else {
        history := Then(history, Stray(payload));
        StrayInv(cfg, s, payload);
        ghost var t := Snap();
        mid, luck := OnGeneralMessage(topic, payload);
        TableIsOk(cfg, mid);
        EvolvesTransitive(s, t, Snap());
      }
    }

    /** An acknowledgement; it is lost if no connect callback has been set or no connect is waiting. */
    method OnConnack(code: int, ghost x: Reception)
      requires Valid() && (mUserData.Context? ==> mUserData.frame < |mContexts|)
      requires x.packet == Acknowledgement(code) && x.heard == mConnectCallback
      modifies this`mContexts, this`history
      ensures Valid() && Evolves(old(Snap()), Snap())
      ensures PoppedOf(history) == PoppedOf(old(history)) && ReceivedAs(cfg, old(Snap()), x, Snap())
    {
      hide Inv, EvolvesPast, Acknowledged;
      ghost var s := Snap();
      EvolvesRefl(s);
      OnConnectCallback(code);
      if mConnectCallback && mUserData.Context? {
        AcknowledgedInv(cfg, s, code);
      }
    }

    /** A message; it is lost unless the client is the callbacks' target. */
    method OnArrival(topic: string, payload: Wire, ghost before: Reception) returns (ghost x: Reception)
      requires Valid() && before.packet == Arrival(topic, payload)
      modifies this, mLoop, mLoop.mTimers, mLoop.mSocketWatches, mMessageBus
      ensures Valid() && Evolves(old(Snap()), Snap()) && mReentries <= old(mReentries)
      ensures mReentries == old(mReentries) ==> PoppedOf(history) == PoppedOf(old(history))
      ensures x.packet == before.packet && x.heard == before.heard && ReceivedAs(cfg, old(Snap()), x, Snap())
      decreases mReentries, 5, 0
    {
      hide Inv, EvolvesPast, MessageSpec;
      EvolvesRefl(Snap());
      x := before;
      if mMessageCallback && mUserData.Self? {
        ghost var mid, luck := OnMessage(topic, payload);
        x := Reception(before.packet, before.heard, mid, luck);
      }
    }

    /** One packet read by the library: an acknowledgement or a message, handed to whichever callback is set. */
    method OnPacket(packet: Packet) returns (ghost x: Reception)
      requires Valid()
      modifies this, mLoop, mLoop.mTimers, mLoop.mSocketWatches, mMessageBus
      ensures Valid() && Evolves(old(Snap()), Snap()) && mReentries <= old(mReentries)
      ensures mReentries == old(mReentries) ==> PoppedOf(history) == PoppedOf(old(history))
      ensures x.packet == packet && x.heard == old(mConnectCallback) && ReceivedAs(cfg, old(Snap()), x, Snap())
      decreases mReentries, 5, 1
    {
      hide Inv, EvolvesPast, ReceivedAs;
      x := Reception(packet, mConnectCallback, Snap(), Luck(false, 0, 0, 0));
      match packet {
        case Acknowledgement(code) =>
          ContextIsKnown(cfg, Snap());
          OnConnack(code, x);
        case Arrival(topic, payload) =>
          x := OnArrival(topic, payload, x);
      }
    }

    /** A batch of packets, one after the other. */
    method OnPackets(packets: seq<Packet>) returns (ghost xs: seq<Reception>, ghost points: seq<State>)
      requires Valid()
      modifies this, mLoop, mLoop.mTimers, mLoop.mSocketWatches, mMessageBus
      ensures Valid() && Evolves(old(Snap()), Snap()) && mReentries <= old(mReentries)
      ensures mReentries == old(mReentries) ==> PoppedOf(history) == PoppedOf(old(history))
      ensures BatchReceived(cfg, packets, xs, points) && points[0] == old(Snap()) && points[|packets|] == Snap()
      decreases mReentries, 6, |packets|
    {
      hide Inv, EvolvesPast, ReceivedAs;
      ghost var s := Snap();
      if packets == [] {
        EvolvesRefl(s);
        xs, points := [], [s];
      } else {
        ghost var x := OnPacket(packets[0]);
        ghost var t := Snap();
        xs, points := OnPackets(packets[1..]);
        EvolvesTransitive(s, t, Snap());
        BatchBegins(cfg, s, packets, x, xs, points);
        xs, points := [x] + xs, [s] + points;
      }
    }

    /** An error from the library means that the connection is gone; its socket may be closed already. */
    method NoteDrop() returns (ghost closed: bool)
      modifies this`marks, this`mSocket
      ensures Snap() == Dropped(old(Snap()), closed)
    {
      var fd := Anything();
      closed := fd < 0;
      marks := marks.(linkUp := false);
      mSocket := if fd < 0 then INVALID_FD else mSocket;
    }

    /** mosquitto_loop_read: whatever packets it reads, a batch, are received; then an error means the connection is gone. */
    method LoopRead()
      returns (rc: int, ghost packets: seq<Packet>, ghost xs: seq<Reception>, ghost points: seq<State>, ghost closed: bool)
      requires Valid()
      modifies this, mLoop, mLoop.mTimers, mLoop.mSocketWatches, mMessageBus
      ensures Valid() && Evolves(old(Snap()), Snap()) && mReentries <= old(mReentries)
      ensures rc != 0 ==> !marks.linkUp
      ensures mReentries == old(mReentries) ==> PoppedOf(history) == PoppedOf(old(history))
      ensures Extends(Then(old(history), Library(LibraryCall.LoopRead, rc)), history)
      ensures BatchReceived(cfg, packets, xs, points) && points[0] == Log(old(Snap()), Library(LibraryCall.LoopRead, rc))
      ensures Snap() == if rc != 0 then Dropped(points[|packets|], closed) else points[|packets|]
      decreases mReentries, 7
    {
      hide Inv, EvolvesPast, BatchReceived;
      ghost var s := Snap();
      closed := false;
      rc := CallLibrary(LibraryCall.LoopRead);
      NotedInv(cfg, s, Library(LibraryCall.LoopRead, rc));
      ghost var n := Snap();
      var batch: seq<Packet> := *;
      packets := batch;
      xs, points := OnPackets(batch);
      ghost var t := Snap();
      EvolvesTransitive(s, n, t);
      EvolvesExtends(n, t);
      if rc != 0 {
        closed := NoteDrop();
        DroppedInv(cfg, t, closed);
        EvolvesTransitive(s, t, Snap());
      }
    }

    // ----- dispatching

    /** Pops the oldest message and decides where it goes, by its topic and type tag. */
    method TakeNext() returns (route: Route)
      requires mMessageQueue != [] && Tagged(mMessageQueue[0])
      modifies this`mMessageQueue, this`history
      ensures route == RouteOf(cfg.ownTopic, old(mMessageQueue[0]))
      ensures Snap() == Taken(old(Snap()))
    {
      var queued := mMessageQueue[0];
      mMessageQueue := mMessageQueue[1..];
      history := Then(history, Popped(queued));
      if queued.topic == cfg.ownTopic && CALL_EVENTS == queued.messageType {
        route := ToSession(queued.message);
      } else {
        route := ToBus(queued.message);
      }
    }

    /** Called with a message that has been popped for it; not being called would leave the invariant broken. */
    method HandleClientCallEvents(callEvents: Message) returns (ghost luck: Luck)
      requires Consistent() && Inv(cfg, RoutedTo(Snap(), ToSession(callEvents)))
      modifies this, mLoop, mLoop.mTimers, mLoop.mSocketWatches, mMessageBus
      ensures Valid() && Evolves(old(Snap()), Snap()) && mReentries <= old(mReentries)
      ensures Extends(RoutedTo(old(Snap()), ToSession(callEvents)).history, history)
      ensures mReentries == old(mReentries) ==> mMessageQueue == old(mMessageQueue)
      ensures mReentries == old(mReentries) && !TellsOfExpiry(callEvents) ==> OnlyRecorded(old(Snap()), Snap())
      ensures TellsOfExpiry(callEvents) ==>
                TableOk(old(mLoop.table)) && Snap() == InvalidatedSession(RoutedTo(old(Snap()), ToSession(callEvents)), luck)
      ensures var event := callEvents.content.firstEvent;
              && (TellsOfExpiry(callEvents) ==> mReconnecting)
              && (event.Some? && event.value.number == 10 && event.value.value.ExpiresIn? ==>
                    KeepAliveSent()
                    && Extends(Then(RoutedTo(old(Snap()), ToSession(callEvents)).history,
                                    ExpiryTold(event.value.value.seconds)), history))
              && (event.None? || event.value.number != 10 || event.value.value.Unreadable? ==>
                    Snap() == RoutedTo(old(Snap()), ToSession(callEvents)))
      decreases mReentries, 4
    {
      hide Inv, EvolvesPast, InvalidatedSession;
      ghost var s := Snap();
      history := Then(history, Routed(ToSession(callEvents)));
      RoutedEvolves(s, callEvents);
      ghost var t := Snap();
      assert t == RoutedTo(s, ToSession(callEvents));
      luck := ConsiderCallEvents(callEvents);
      EvolvesTransitive(s, t, Snap());
      EvolvesExtends(t, Snap());
    }

    /** What handleClientCallEvents does about the first event. */
    method ConsiderCallEvents(callEvents: Message) returns (ghost luck: Luck)
      requires Valid()
      modifies this, mLoop, mLoop.mTimers, mLoop.mSocketWatches, mMessageBus
      ensures Valid() && Evolves(old(Snap()), Snap()) && mReentries <= old(mReentries)
      ensures mReentries == old(mReentries) ==> mMessageQueue == old(mMessageQueue)
      ensures mReentries == old(mReentries) && !TellsOfExpiry(callEvents) ==> OnlyRecorded(old(Snap()), Snap())
      ensures TellsOfExpiry(callEvents) ==> TableOk(old(mLoop.table)) && Snap() == InvalidatedSession(old(Snap()), luck)
      ensures var event := callEvents.content.firstEvent;
              && (TellsOfExpiry(callEvents) ==> mReconnecting)
              && (event.Some? && event.value.number == 10 && event.value.value.ExpiresIn? ==>
                    KeepAliveSent() && Extends(Then(old(history), ExpiryTold(event.value.value.seconds)), history))
              && (event.None? || event.value.number != 10 || event.value.value.Unreadable? ==> Snap() == old(Snap()))
      decreases mReentries, 3
    {
      hide Inv, EvolvesPast, InvalidatedSession;
      ghost var s := Snap();
      EvolvesRefl(s);
      TableIsOk(cfg, s);
      luck := Luck(false, 0, 0, 0);
      if callEvents.content.firstEvent != None && callEvents.content.firstEvent.value.number == EVENT_SESSION {
        var event := callEvents.content.firstEvent.value;
        if event.value.SessionExpired? {
          luck := HandleInvalidSession();
          InvalidatedHistory(s, luck);
        } else if event.value.ExpiresIn? {
          SessionExpiring(event.value.seconds);
        }
      }
    }

    /** If there is a keep-alive message and a session to send it in, sending it was the last thing that happened. */
    ghost predicate KeepAliveSent()
      reads this
    {
      keepAlive.Some? && mConnected && mSessionInfo.Some? ==>
        history.Then? && history.last.Published? && history.last.message == keepAlive.value
    }

    /** mSessionExpiringCallback is called: it is on record, and then the user may do anything. */
    method CallSessionExpiring(seconds: int)
      requires Valid()
      modifies this, mLoop, mLoop.mTimers, mLoop.mSocketWatches, mMessageBus
      ensures Valid() && Evolves(old(Snap()), Snap()) && mReentries <= old(mReentries)
      ensures mReentries == old(mReentries) ==> OnlyRecorded(old(Snap()), Snap())
      ensures Extends(Then(old(history), ExpiryTold(seconds)), history)
      decreases mReentries, 1, 1
    {
      hide Inv, EvolvesPast;
      ghost var s := Snap();
      NotedInv(cfg, s, ExpiryTold(seconds));
      history := Then(history, ExpiryTold(seconds));
      ghost var t := Snap();
      UserCode();
      EvolvesTransitive(s, t, Snap());
      EvolvesExtends(t, Snap());
    }

    /** mSessionExpiringCallback, then the keep-alive message if there is one. */
    method SessionExpiring(seconds: int)
      requires Valid()
      modifies this, mLoop, mLoop.mTimers, mLoop.mSocketWatches, mMessageBus
      ensures Valid() && Evolves(old(Snap()), Snap()) && mReentries <= old(mReentries)
      ensures mReentries == old(mReentries) ==> OnlyRecorded(old(Snap()), Snap())
      ensures KeepAliveSent() && Extends(Then(old(history), ExpiryTold(seconds)), history)
      decreases mReentries, 2
    {
      hide Inv, EvolvesPast;
      ghost var s := Snap();
      CallSessionExpiring(seconds);
      if keepAlive.Some? {
        ghost var t := Snap();
        var r, time, payload, rc := Send(keepAlive.value, None);
        SendInv(cfg, t, keepAlive.value, time, payload, None, rc, r, Snap());
        EvolvesTransitive(s, t, Snap());
        SentExtends(cfg, t, keepAlive.value, time, payload, None, rc, r, Snap());
        ExtendsTransitive(Then(s.history, ExpiryTold(seconds)), t.history, history);
      }
    }

    /** A subscriber is called: it is on record, and then may do anything, another dispatch included. */
    method HandTo(who: Subscriber, message: Message, ghost d: State, ghost n: nat)
      requires Valid() && Dispatching(d, message, n, Snap())
      requires n < |Audience(d.subscriptions, message)| && Audience(d.subscriptions, message)[n] == who
      modifies this, mLoop, mLoop.mTimers, mLoop.mSocketWatches, mMessageBus
      ensures Valid() && Dispatching(d, message, n + 1, Snap()) && mReentries <= old(mReentries)
      ensures mReentries == old(mReentries) ==> OnlyRecorded(old(Snap()), Snap())
      decreases mReentries, 2
    {
      hide Inv, EvolvesPast;
      ghost var t := Snap();
      HandedOverInv(cfg, t, who);
      HandedAlong(d, message, n, t, who);
      history := Then(history, Handed(marks.open[|marks.open| - 1], who));
      ghost var u := Snap();
      assert u == HandedOver(t, who);
      UserCode();
      DispatchingPast(d, message, n + 1, u, Snap());
    }

    /** MessageBus::dispatchFor, for the list of one type: `d` is where the dispatch began, `n` deliveries ago. */
    method DispatchFor(messageType: byte, message: Message, ghost d: State, ghost n: nat)
      requires Valid() && Dispatching(d, message, n, Snap())
      requires Listed(d.subscriptions, messageType, message, n)
      modifies this, mLoop, mLoop.mTimers, mLoop.mSocketWatches, mMessageBus
      ensures Valid() && Dispatching(d, message, n + |SubscribedTo(d.subscriptions, messageType)|, Snap())
      ensures mReentries <= old(mReentries)
      ensures mReentries == old(mReentries) ==> OnlyRecorded(old(Snap()), Snap())
      decreases mReentries, 3
    {
      hide Inv, EvolvesPast;
      var subscribers := mMessageBus.ListFor(messageType);
      for i := 0 to |subscribers|
        invariant Valid() && Dispatching(d, message, n + i, Snap()) && mReentries <= old(mReentries)
        invariant mReentries == old(mReentries) ==> OnlyRecorded(old(Snap()), Snap())
      {
        HandTo(subscribers[i], message, d, n + i);
      }
    }

    /** The bus has been called with a message that has been popped for it. */
    method BeginDispatch(message: Message)
      requires Consistent() && Inv(cfg, BusOpened(Snap(), message))
      modifies this`mDispatching, this`marks, this`history
      ensures Valid() && Dispatching(old(Snap()), message, 0, Snap()) && Snap() == BusOpened(old(Snap()), message)
    {
      hide Inv, EvolvesPast;
      ghost var d := Snap();
      DispatchBegins(cfg, d, message);
      marks := marks.(open := marks.open + [|DispatchesOf(history)|]);
      mDispatching := mDispatching + 1;
      history := Then(history, Routed(ToBus(message)));
    }

    method EndDispatch(message: Message, ghost d: State)
      requires Valid() && Dispatching(d, message, |Audience(d.subscriptions, message)|, Snap())
      modifies this`mDispatching, this`marks
      ensures Valid() && Evolves(d, Snap()) && Snap() == BusClosed(old(Snap()))
      ensures Extends(BusOpened(d, message).history, history)
    {
      hide Inv, EvolvesPast;
      ghost var t := Snap();
      DispatchEnds(d, message, t);
      BusClosedInv(cfg, t);
      marks := marks.(open := marks.open[..|marks.open| - 1]);
      mDispatching := mDispatching - 1;
    }

    /** MessageBus::dispatch: when it returns, everyone it concerns has been handed the message, in order. */
    method Dispatch(message: Message)
      requires Consistent() && Inv(cfg, BusOpened(Snap(), message))
      modifies this, mLoop, mLoop.mTimers, mLoop.mSocketWatches, mMessageBus
      ensures Valid() && Evolves(old(Snap()), Snap()) && mReentries <= old(mReentries)
      ensures Extends(BusOpened(old(Snap()), message).history, history)
      ensures Delivered(old(Snap()), message, Snap())
      ensures mReentries == old(mReentries) ==> OnlyRecorded(old(Snap()), Snap())
      decreases mReentries, 4
    {
      hide Inv, EvolvesPast, Dispatching, Listed, Delivered;
      ghost var d := Snap();
      ghost var typed := SubscribedTo(d.subscriptions, MessageTypeFor(message));
      ListedBoth(d.subscriptions, message);
      BeginDispatch(message);
      DispatchFor(MessageTypeFor(message), message, d, 0); // direct
      DispatchFor(UNKNOWN, message, d, |typed|); // all
      DeliveredInFull(d, message, Snap());
      EndDispatch(message, d);
    }

    method DispatchQueuedMessages()
      requires Valid()
      modifies this, mLoop, mLoop.mTimers, mLoop.mSocketWatches, mMessageBus
      ensures Valid() && Evolves(old(Snap()), Snap()) && mReentries <= old(mReentries)
      ensures mMessageQueue == [] && PoppedOf(history) == AcceptedOf(history)
      ensures RoutedOf(history) == RoutesOf(cfg.ownTopic, AcceptedOf(history))
      ensures OnlyDispatched(cfg.ownTopic, old(Snap()), Snap())
      decreases mReentries, 6
    {
      hide Inv, EvolvesPast, OnlyDispatched;
      ghost var s := Snap();
      EvolvesRefl(s);
      DispatchedNone(cfg.ownTopic, s);
      while mMessageQueue != []
        invariant Valid() && Evolves(s, Snap()) && OnlyDispatched(cfg.ownTopic, s, Snap())
        decreases mReentries, |mMessageQueue|
      {
        ghost var t := Snap();
        DispatchOne();
        EvolvesTransitive(s, t, Snap());
        DispatchedOn(cfg.ownTopic, s, t, Snap());
      }
      NothingQueued(cfg, Snap());
    }

    /** One round of the loop: the message goes to the session handler or to the bus, never to both and never to neither. */
    method DispatchOne()
      requires Valid() && mMessageQueue != []
      modifies this, mLoop, mLoop.mTimers, mLoop.mSocketWatches, mMessageBus
      ensures Valid() && Evolves(old(Snap()), Snap()) && mReentries <= old(mReentries)
      ensures mReentries == old(mReentries) ==> mMessageQueue == old(mMessageQueue)[1..]
      ensures mReentries == old(mReentries) && !EndsSession(cfg.ownTopic, old(mMessageQueue[0])) ==>
                OnlyRecorded(old(Snap()).(queue := mMessageQueue), Snap())
      ensures Extends(RoutedTo(Taken(old(Snap())), RouteOf(cfg.ownTopic, old(mMessageQueue[0]))).history, history)
      decreases mReentries, 5
    {
      hide Inv, EvolvesPast;
      ghost var s := Snap();
      TakenInv(cfg, s);
      TakenEvolves(s);
      var route := TakeNext();
      ghost var t := Snap();
      match route {
        case ToSession(event) => var luck := HandleClientCallEvents(event);
        case ToBus(message) => Dispatch(message);
      }
      EvolvesTransitive(s, t, Snap());
    }

    // ----- the loop's calls

    /** What to wait for: nothing without a connection; otherwise reading, and writing if the library wants to. */
    method SocketEvents() returns (read: bool, write: bool, ghost wants: int)
      modifies this`history
      ensures Snap() == EventsAsked(old(Snap()), wants)
      ensures read == mConnected && write == (mConnected && wants != 0)
    {
      read, write, wants := false, false, 0;
      if mConnected {
        var rc := CallLibrary(WantWrite);
        read, write, wants := true, rc != 0, rc;
      }
    }

    method HandleSocketEvents(read: bool, write: bool) returns (ghost h: Handling)
      requires Valid()
      modifies this, mLoop, mLoop.mTimers, mLoop.mSocketWatches, mMessageBus
      ensures Valid() && Evolves(old(Snap()), Snap()) && mReentries <= old(mReentries)
      ensures Extends(Then(old(history), Notified(ClientHandler, read, write)), history)
      ensures h.read == read && h.write == write && Inv(cfg, h.mid) && SocketSpec(old(Snap()), h, Snap())
      decreases mReentries, 9
    {
      hide Inv, EvolvesPast, LostConnection, Wrote;
      ghost var s := Snap();
      NotedInv(cfg, s, Notified(ClientHandler, read, write));
      history := Then(history, Notified(ClientHandler, read, write));
      ghost var n := Snap();
      h := Handling(read, write, n, 0, 0, Luck(false, 0, 0, 0));
      if mConnected {
        h := HandleReady(read, write);
        EvolvesTransitive(s, n, Snap());
        EvolvesExtends(n, Snap());
      }
    }

    /** Both halves of handleSocketEvents; a failed read skips the second. */
    method HandleReady(read: bool, write: bool) returns (ghost h: Handling)
      requires Valid()
      modifies this, mLoop, mLoop.mTimers, mLoop.mSocketWatches, mMessageBus
      ensures Valid() && Evolves(old(Snap()), Snap()) && mReentries <= old(mReentries)
      ensures h.read == read && h.write == write && Inv(cfg, h.mid) && TableOk(h.mid.table)
      ensures if read then
                && Extends(Then(old(history), Library(LibraryCall.LoopRead, h.readRc)), h.mid.history)
                && (if h.readRc == 0 then h.mid.queue == [] else ReadFailed(old(Snap()), h.mid))
              else h.mid == old(Snap()) && h.readRc == 0
      ensures Snap() == if h.readRc == 0 && write then Wrote(h.mid, h.writeRc, h.luck) else h.mid
      decreases mReentries, 9, 0
    {
      hide Inv, EvolvesPast, LostConnection, Wrote;
      ghost var s := Snap();
      var rc := 0;
      if read {
        ghost var received: State, how: Luck, packets: seq<Packet>, xs: seq<Reception>, points: seq<State>;
        rc, received, how, packets, xs, points := HandleRead();
      } else {
        EvolvesRefl(s);
      }
      ghost var mid := Snap();
      TableIsOk(cfg, mid);
      h := Handling(read, write, mid, rc, 0, Luck(false, 0, 0, 0));
      if rc == 0 && write {
        ghost var code, luck := HandleWrite();
        h := h.(writeRc := code, luck := luck);
        EvolvesTransitive(s, mid, Snap());
      }
    }

    /**
     The read half: the library's packets are received one after the other, which leaves the client in `mid`. A failed
     read is then a lost connection and nothing else: without calls by the user nothing has been dispatched. A good one
     dispatches everything.
     */
    method HandleRead()
      returns (rc: int, ghost mid: State, ghost luck: Luck,
               ghost packets: seq<Packet>, ghost xs: seq<Reception>, ghost points: seq<State>)
      requires Valid()
      modifies this, mLoop, mLoop.mTimers, mLoop.mSocketWatches, mMessageBus
      ensures Valid() && Evolves(old(Snap()), Snap()) && mReentries <= old(mReentries)
      ensures Inv(cfg, mid) && Evolves(old(Snap()), mid)
      ensures BatchReceived(cfg, packets, xs, points) && points[0] == Log(old(Snap()), Library(LibraryCall.LoopRead, rc))
      ensures rc == 0 ==> mid == points[|packets|]
      ensures Extends(Then(old(history), Library(LibraryCall.LoopRead, rc)), history)
      ensures if rc == 0 then mMessageQueue == [] && OnlyDispatched(cfg.ownTopic, mid, Snap())
              else TableOk(mid.table) && Snap() == LostConnection(mid, luck) && ReadFailed(old(Snap()), Snap())
      decreases mReentries, 8
    {
      hide Inv, EvolvesPast, BatchReceived, LostConnection, OnlyDispatched;
      ghost var s := Snap();
      luck := Luck(false, 0, 0, 0);
      ghost var closed: bool;
      rc, packets, xs, points, closed := LoopRead();
      mid := Snap();
      TableIsOk(cfg, mid);
      if rc != 0 {
        luck := HandleLostConnection();
        LostPopsNothing(mid, luck);
      } else {
        DispatchQueuedMessages();
      }
      EvolvesTransitive(s, mid, Snap());
      EvolvesExtends(mid, Snap());
      ExtendsTransitive(Then(s.history, Library(LibraryCall.LoopRead, rc)), mid.history, history);
    }

    /** The write half. */
    method HandleWrite() returns (ghost rc: int, ghost luck: Luck)
      requires Valid()
      modifies this, mLoop, mLoop.mTimers, mLoop.mSocketWatches
      ensures Valid() && Evolves(old(Snap()), Snap()) && mReentries == old(mReentries)
      ensures TableOk(old(mLoop.table)) && Snap() == Wrote(old(Snap()), rc, luck)
    {
      hide Inv, EvolvesPast, LostConnection;
      luck := Luck(false, 0, 0, 0);
      ghost var s := Snap();
      TableIsOk(cfg, s);
      var code := CallLibrary(LibraryCall.LoopWrite);
      rc := code;
      NotedInv(cfg, s, Library(LibraryCall.LoopWrite, rc));
      ghost var w := Snap();
      if code != 0 {
        luck := FailLink();
        EvolvesTransitive(s, w, Snap());
      }
    }

    /** A library call reported that the connection is gone. */
    method FailLink() returns (ghost luck: Luck)
      requires Valid()
      modifies this, mLoop, mLoop.mTimers, mLoop.mSocketWatches
      ensures Valid() && Evolves(old(Snap()), Snap()) && mReentries == old(mReentries)
      ensures Snap() == LostConnection(Dropped(old(Snap()), luck.closed), luck)
    {
      ghost var s := Snap();
      ghost var closed := NoteDrop();
      ghost var t := Snap();
      DroppedInv(cfg, s, closed);
      luck := HandleLostConnection();
      luck := luck.(closed := closed);
      EvolvesTransitive(s, t, Snap());
    }

    /** The callback of a timer begins: the loop has released the timer's slot, and this is the call it made. */
    method RecordCall(ghost ticket: nat)
      requires Consistent() && Inv(cfg, Called(Snap(), ticket))
      modifies this`history
      ensures Valid() && Snap() == Called(old(Snap()), ticket) && Later(old(Snap()), Snap())
    {
      CalledLater(Snap(), ticket);
      history := Then(history, TimerCalled(ticket));
    }

    /** handleMisc returns. */
    method LeaveMisc()
      requires Valid()
      requires marks.disciplined && marks.ready ==> Holds(mLoop.table, mMiscTimerId, MiscTimer)
      modifies this`marks
      ensures Valid() && Snap() == MiscDone(old(Snap())) && Later(old(Snap()), Snap())
    {
      MiscDoneInv(cfg, Snap());
      marks := marks.(onMisc := false);
    }

    /** handleMisc, called by the misc timer: its own slot is free again, whatever its id still says. */
    method HandleMisc(ghost ticket: nat) returns (rc: int, ghost luck: Luck)
      requires Consistent() && Inv(cfg, Called(Snap(), ticket))
      requires marks.disciplined && mReconnecting ==> !Holds(mLoop.table, mMiscTimerId, ReconnectTimer)
      modifies this, mLoop, mLoop.mTimers, mLoop.mSocketWatches
      ensures Valid() && mReentries == old(mReentries) && mUserData == old(mUserData)
      ensures !marks.onMisc && marks.onStack == old(marks).onStack && marks.open == old(marks).open
      ensures StaysDown(old(Snap()), Snap())
      ensures Snap() == MiscDone(MiscHandled(Called(old(Snap()), ticket), rc, luck))
      ensures Extends(Called(old(Snap()), ticket).history, history) && Later(old(Snap()), Snap())
    {
      hide Inv, MiscHandled, MiscDone;
      ghost var s := Snap();
      RecordCall(ticket);
      ghost var t := Snap();
      rc, luck := LoopMisc();
      ghost var u := Snap();
      LeaveMisc();
      MiscLeaves(t, rc, luck);
      LaterTransitive(t, u, Snap());
      LaterTransitive(s, t, Snap());
    }

    /** The body of handleMisc. */
    method LoopMisc() returns (rc: int, ghost luck: Luck)
      requires Valid()
      requires marks.disciplined && mReconnecting ==> !Holds(mLoop.table, mMiscTimerId, ReconnectTimer)
      modifies this, mLoop, mLoop.mTimers, mLoop.mSocketWatches
      ensures Valid() && Evolves(old(Snap()), Snap()) && mReentries == old(mReentries)
      ensures Snap() == MiscHandled(old(Snap()), rc, luck)
      ensures marks.disciplined && marks.ready ==> Holds(mLoop.table, mMiscTimerId, MiscTimer)
    {
      if marks.disciplined && marks.ready {
        ReadyMeans(cfg, Snap());
      }
      hide Inv, EvolvesPast;
      luck := Luck(false, 0, 0, 0);
      ghost var s := Snap();
      rc := 0;
      if !mConnected {
        EvolvesRefl(s);
      } else {
        rc := CallLibrary(LibraryCall.LoopMisc);
        NotedInv(cfg, s, Library(LibraryCall.LoopMisc, rc));
        ghost var m := Snap();
        if rc != 0 {
          luck := FailLink();
        } else {
          ghost var elapsed := ScheduleMisc();
          luck := Luck(false, 0, elapsed, 0);
        }
        EvolvesTransitive(s, m, Snap());
      }
    }

    /** The callback of somebody else's timer. */
    method ForeignCallback(ghost ticket: nat)
      requires Consistent() && Inv(cfg, Called(Snap(), ticket))
      modifies this, mLoop, mLoop.mTimers, mLoop.mSocketWatches, mMessageBus
      ensures Valid() && (AtRest(old(Snap())) ==> AtRest(Snap())) && mReentries <= old(mReentries)
      ensures StaysDown(old(Snap()), Snap())
      ensures Extends(Called(old(Snap()), ticket).history, history) && Later(old(Snap()), Snap())
    {
      ghost var s := Snap();
      RecordCall(ticket);
      ghost var t := Snap();
      UserCode();
      LaterTransitive(s, t, Snap());
    }

    /** The handler of somebody else's socket. */
    method ForeignEvents(id: nat, read: bool, write: bool)
      requires Valid()
      modifies this, mLoop, mLoop.mTimers, mLoop.mSocketWatches, mMessageBus
      ensures Valid() && Evolves(old(Snap()), Snap()) && mReentries <= old(mReentries)
      ensures Extends(Then(old(history), Notified(ForeignHandler(id), read, write)), history)
      ensures StaysDown(old(Snap()), Snap())
    {
      hide Inv, EvolvesPast;
      ghost var s := Snap();
      NotedInv(cfg, s, Notified(ForeignHandler(id), read, write));
      history := Then(history, Notified(ForeignHandler(id), read, write));
      ghost var t := Snap();
      UserCode();
      EvolvesTransitive(s, t, Snap());
      EvolvesExtends(t, Snap());
    }

    // ----- waiting

    predicate Waiting(c: Condition)
      reads this
    {
      match c
      case OfContext(f) => f < |mContexts| && !mContexts[f].notified
      case OfRequest(i) => i < |mRequests| && !mRequests[i].notified
    }

    /**
     SelectCondition::wait on this descriptor, for a condition that has not been waited for before. It goes round, each
     round asking select and running the client's own socket handler, until the condition is notified or the time is
     used up, unless select fails.
     */
    method Wait(c: Condition, fd: int, timeout: int) returns (ghost w: WaitRun)
      requires Valid() && Waiting(c)
      modifies this, mLoop, mLoop.mTimers, mLoop.mSocketWatches, mMessageBus
      ensures Valid() && Evolves(old(Snap()), Snap()) && mReentries <= old(mReentries)
      ensures WaitEnded(c, fd, timeout, old(Snap()), w) && w.after == Snap()
      decreases mReentries, 10
    {
      hide Inv, EvolvesPast, WaitMade;
      ghost var s := Snap();
      EvolvesRefl(s);
      TimevalBounds(timeout * NANOS_PER_MILLI);
      var left := ToTimeval(timeout * NANOS_PER_MILLI);
      w := WaitRun([], [s], s);
      while Waiting(c) && (left.sec > 0 || left.usec > 0)
        invariant Valid() && Evolves(s, Snap()) && mReentries <= old(mReentries)
        invariant Selectable(left) || UsedUp(left)
        invariant WaitsMade(c, fd, timeout, s, w) && w.after == Snap()
        invariant !SelectFailedIn(w) && left == LeftAfter(timeout, w.turns, |w.turns|)
        decreases Micros(left)
      {
        ghost var t := Snap();
        var rest, broken;
        ghost var turn: WaitTurn;
        rest, broken, turn := WaitOnce(fd, left);
        EvolvesTransitive(s, t, Snap());
        WaitsStep(c, fd, timeout, s, w, turn, Snap());
        w := WaitOn(w, turn, Snap());
        left := rest;
        if broken {
          break;
        }
      }
    }

    /**
     One round of a wait: reading is asked for exactly when the client is connected, and writing when the library wants
     to as well; the client's own handler is told what select found.
     */
    method WaitOnce(fd: int, left: Timeval) returns (rest: Timeval, broken: bool, ghost w: WaitTurn)
      requires Valid() && Selectable(left) && Micros(left) > 0
      modifies this, mLoop, mLoop.mTimers, mLoop.mSocketWatches, mMessageBus
      ensures Valid() && Evolves(old(Snap()), Snap()) && mReentries <= old(mReentries)
      ensures Selectable(rest) && Micros(rest) < Micros(left)
      ensures WaitMade(old(Snap()), fd, w, Snap()) && broken == (w.rc < 0) && w.left == left && w.rest == rest
      decreases mReentries, 10, 0
    {
      hide Inv, EvolvesPast, SocketSpec;
      ghost var s := Snap();
      var read, write;
      ghost var wants: int;
      read, write, wants := SocketEvents();
      var rc, found := Select(Fds(if read then {fd} else {}, if write then {fd} else {}), left);
      ghost var p := Snap();
      PolledInv(cfg, s, wants, Interest(s.connected, wants, fd), left, found, rc);
      rest := TimeLeft(left);
      broken := rc < 0;
      w := WaitTurn(left, wants, found, rc, rest, Handling(false, false, p, 0, 0, Luck(false, 0, 0, 0)));
      if !broken {
        ghost var h := HandleSocketEvents(fd in found.toRead, fd in found.toWrite);
        EvolvesTransitive(s, p, Snap());
        w := w.(handling := h);
      }
    }

    // ----- requests

    /** The stack frame of a request: from here on, private messages go to it. */
    method OpenRequest(name: TypeName, key: bytes)
      requires Valid()
      modifies this`mRequests, this`mExpectedResponse
      ensures Valid() && Snap() == RequestOpened(old(Snap()), name, key)
      ensures mExpectedResponse == Some(|old(mRequests)|)
      ensures mRequests == old(mRequests) + [ExpectedResponse(name, TypeFor(name), key, None, None, false)]
    {
      RequestOpenedInv(cfg, Snap(), name, key);
      mRequests := mRequests + [ExpectedResponse(name, TypeFor(name), key, None, None, false)];
      mExpectedResponse := Some(|mRequests| - 1);
    }

    /** Opens a request, waits, and closes it again. */
    method AwaitAnswer(name: TypeName, key: bytes) returns (ghost me: nat, ghost w: WaitRun)
      requires Valid()
      modifies this, mLoop, mLoop.mTimers, mLoop.mSocketWatches, mMessageBus
      ensures Valid() && Evolves(old(Snap()), Snap()) && mReentries <= old(mReentries)
      ensures me == |old(mRequests)| < |mRequests| && mExpectedResponse == None
      ensures mRequests[me].typeName == name && mRequests[me].key == key
      ensures WaitEnded(OfRequest(me), old(mSocket), mResponseTimeout, RequestOpened(old(Snap()), name, key), w)
      ensures Snap() == w.after.(expected := None)
      ensures |mRequests| == me + 1 ==> OnlyAnswers(me, old(history), history)
      decreases mReentries, 11
    {
      hide Inv, EvolvesPast, WaitEnded;
      ghost var s := Snap();
      me := |mRequests|;
      OpenRequest(name, key);
      w := Wait(OfRequest(|mRequests| - 1), mSocket, mResponseTimeout);
      mExpectedResponse := None;
      RequestClosedInv(cfg, |s.contexts|, s, name, key, w.after);
      WaitedFor(s, name, key, w.after);
    }

    /** Reads the request's record; an invalid session starts a reconnect. */
    method Conclude(me: nat) returns (r: Result, response: Option<Content>, ghost luck: Luck)
      requires Valid() && me < |mRequests| && mExpectedResponse == None
      modifies this, mLoop, mLoop.mTimers, mLoop.mSocketWatches
      ensures Valid() && Evolves(old(Snap()), Snap()) && mReentries == old(mReentries)
      ensures var q, ps := old(mRequests)[me], ResponsesTo(history, me);
              && r == Outcome(cfg, q.typeName, q.key, ps)
              && (r.Ok? ==>
                    ps != [] && response.Some? && Judge(cfg, q.typeName, q.key, ps[|ps| - 1]) == Good(response.value))
      ensures mRequests == old(mRequests) && mExpectedResponse == None
      ensures r == Err(InvalidSession) ==> mReconnecting
      ensures TableOk(old(mLoop.table)) && Snap() == Concluded(old(Snap()), r, luck)
      ensures forall i: nat :: ResponsesTo(history, i) == ResponsesTo(old(history), i)
      ensures StraysOf(history) == StraysOf(old(history))
    {
      ghost var s := Snap();
      EvolvesRefl(s);
      luck := Luck(false, 0, 0, 0);
      var q := mRequests[me];
      RecordIsOutcome(cfg, q, ResponsesTo(history, me));
      response := None;
      if !q.notified {
        r := Err(ResponseTimeout);
      } else if q.error.Some? {
        if q.error.value == InvalidSession {
          luck := HandleInvalidSession();
          InvalidatedHistory(s, luck);
        }
        r := Err(q.error.value);
      } else {
        r, response := Ok, q.message;
      }
    }

    /**
     sendRequest: a refused send is returned as it is; otherwise the request has been published, and the answer
     decides. `frame` names the connect whose login request it is.
     */
    method SendRequest(request: Message, name: TypeName, key: bytes, ghost frame: Option<nat>)
      returns (r: Result, response: Option<Content>, ghost x: RequestRun)
      requires Valid()
      requires frame.Some? ==> !mUserData.Context? && frame.value < |mContexts| && request == cfg.loginRequest
      modifies this, mLoop, mLoop.mTimers, mLoop.mSocketWatches, mMessageBus
      ensures Valid() && EvolvesPast(CallersOf(old(Snap()), frame), old(Snap()), Snap()) && mReentries <= old(mReentries)
      ensures RequestMade(cfg, old(Snap()), request, name, key, frame, mResponseTimeout, x, r, response, Snap())
      ensures !x.refused && frame.Some? ==>
                && PhaseOf(history, frame.value)
                   == Advance(PhaseOf(old(history), frame.value), LoginPublish(0, |old(mRequests)|))
                && !mUserData.Context?
      decreases mReentries, 13
    {
      hide Inv, EvolvesPast, RequestMade, AnswerSpec, AnswerAwaited, SendSpec;
      ghost var s := Snap();
      response := None;
      ghost var time: int, payload: bytes, rc: int;
      r, time, payload, rc := Send(request, frame);
      ghost var t := Snap();
      SendInv(cfg, s, request, time, payload, frame, rc, r, t);
      x := RequestRun(!r.Ok?, time, payload, rc, WaitRun([], [t], t), Luck(false, 0, 0, 0));
      if r.Ok? {
        ghost var w: WaitRun, luck: Luck;
        r, response, w, luck := AnswerTo(name, key);
        x := x.(wait := w, luck := luck);
        RequestComposed(cfg, s, request, frame, t, name, key, mResponseTimeout, x, r, response, Snap());
      } else {
        RequestRefused(cfg, s, request, frame, t, name, key, mResponseTimeout, x, r, response);
      }
    }

    method AnswerTo(name: TypeName, key: bytes)
      returns (r: Result, response: Option<Content>, ghost w: WaitRun, ghost luck: Luck)
      requires Valid()
      modifies this, mLoop, mLoop.mTimers, mLoop.mSocketWatches, mMessageBus
      ensures Valid() && Evolves(old(Snap()), Snap()) && mReentries <= old(mReentries)
      ensures AnswerSpec(cfg, old(Snap()), name, key, r, response, Snap())
      ensures AnswerAwaited(old(Snap()), name, key, mResponseTimeout, w, r, luck, Snap())
      decreases mReentries, 12
    {
      hide Inv, EvolvesPast, Judge, Outcome, RequestComesTo, Answers, WaitEnded, InvalidatedSession;
      ghost var s := Snap();
      var me := |mRequests|;
      ghost var slot: nat;
      slot, w := AwaitAnswer(name, key);
      ghost var t := Snap();
      r, response, luck := Conclude(me);
      EvolvesTransitive(s, t, Snap());
      AnswerJudged(cfg, name, key, ResponsesTo(history, me), r, response);
    }

    /** sendSessionRequest: the request goes out under the session found at the call, and so does the key of its answer. */
    method SendSessionRequest(request: Message, name: TypeName)
      returns (r: Result, response: Option<Content>, ghost x: RequestRun)
      requires Valid()
      modifies this, mLoop, mLoop.mTimers, mLoop.mSocketWatches, mMessageBus
      ensures Valid() && Evolves(old(Snap()), Snap()) && mReentries <= old(mReentries)
      ensures old(mSessionInfo) == None ==> r == Err(NoSession) && Snap() == old(Snap())
      ensures old(mSessionInfo).Some? ==>
                RequestMade(cfg, old(Snap()), request, name, old(mSessionInfo).value.privateKey, None, mResponseTimeout,
                            x, r, response, Snap())
      ensures !old(mConnected) ==> Snap() == old(Snap())
      decreases mReentries, 14
    {
      hide Inv;
      ghost var s := Snap();
      x := RequestRun(true, 0, [], 0, WaitRun([], [s], s), Luck(false, 0, 0, 0));
      if mSessionInfo == None {
        r, response := Err(NoSession), None;
        EvolvesRefl(s);
      } else {
        r, response, x := SendRequest(request, name, mSessionInfo.value.privateKey, None);
      }
    }

    // ----- connecting

    /** connectMqtt: the handle is made and set up once; afterwards the library reconnects it. */
    method ConnectMqtt() returns (rc: int, ghost calls: seq<(LibraryCall, int)>)
      modifies this`mMosqExists, this`mConnectCallback, this`history
      ensures DialCalls(cfg.clientId, mDsn, old(mMosqExists), calls, rc)
      ensures Snap() == Recorded(old(Snap()), calls)
      ensures mMosqExists == (old(mMosqExists) || calls[0].1 != 0)
      ensures mConnectCallback == (old(mConnectCallback) || calls[|calls| - 1].0.ConnectTo?)
    {
      ghost var s := Snap();
      if mMosqExists {
        rc := CallLibrary(ReconnectHandle);
        calls := RecordMore(s, [], ReconnectHandle, rc);
      } else {
        rc, calls := MakeHandle();
      }
    }

    /** mosquitto_new, which may fail, and then setting the handle up. */
    method MakeHandle() returns (rc: int, ghost calls: seq<(LibraryCall, int)>)
      requires !mMosqExists
      modifies this`mMosqExists, this`mConnectCallback, this`history
      ensures DialCalls(cfg.clientId, mDsn, false, calls, rc)
      ensures Snap() == Recorded(old(Snap()), calls)
      ensures mMosqExists == (calls[0].1 != 0)
      ensures mConnectCallback == (old(mConnectCallback) || calls[|calls| - 1].0.ConnectTo?)
    {
      hide InTurn, Recorded;
      ghost var s := Snap();
      var handle := CallLibrary(NewHandle(cfg.clientId));
      calls := RecordMore(s, [], NewHandle(cfg.clientId), handle);
      RecordedNothing(s);
      if handle == 0 {
        return ERR_ERRNO, calls;
      }
      mMosqExists := true;
      ghost var more: seq<(LibraryCall, int)>;
      rc, more := SetUpHandle();
      RecordedTogether(s, calls, more);
      NotEmptyInTurn(SetUpCalls(mDsn), more, rc);
      assert (calls + more)[1..] == more && (calls + more)[|calls + more| - 1] == more[|more| - 1];
      calls := calls + more;
    }

    /** A new handle: TLS if the DSN asks for it, the credentials, the callback, and the connection. */
    method SetUpHandle() returns (rc: int, ghost calls: seq<(LibraryCall, int)>)
      modifies this`mConnectCallback, this`history
      ensures InTurn(SetUpCalls(mDsn), calls, rc) && Snap() == Recorded(old(Snap()), calls)
      ensures mConnectCallback == (old(mConnectCallback) || calls[|calls| - 1].0.ConnectTo?)
    {
      ghost var s := Snap();
      rc, calls := 0, [];
      if mDsn.secure {
        rc, calls := SecureHandle();
        if rc != 0 {
          OnlyTheFirst(SecureCalls(mDsn), OpenCalls(mDsn), calls, rc);
          return;
        }
      }
      ghost var more: seq<(LibraryCall, int)>;
      rc, more := OpenHandle();
      RecordedTogether(s, calls, more);
      OneAfterTheOther(if mDsn.secure then SecureCalls(mDsn) else [], OpenCalls(mDsn), calls, more, rc);
      calls := calls + more;
    }

    /** mosquitto_tls_set, and mosquitto_tls_insecure_set. */
    method SecureHandle() returns (rc: int, ghost calls: seq<(LibraryCall, int)>)
      modifies this`history
      ensures InTurn(SecureCalls(mDsn), calls, rc) && Snap() == Recorded(old(Snap()), calls)
    {
      ghost var s := Snap();
      rc := CallLibrary(SetTls(mDsn.cacert));
      calls := RecordMore(s, [], SetTls(mDsn.cacert), rc);
      if rc != 0 {
        return;
      }
      var insecure := match mDsn.verify case Some(verify) => !verify case None => false;
      rc := CallLibrary(SetTlsInsecure(insecure));
      calls := RecordMore(s, calls, SetTlsInsecure(insecure), rc);
    }

    /** mosquitto_username_pw_set, the connect callback, and mosquitto_connect. */
    method OpenHandle() returns (rc: int, ghost calls: seq<(LibraryCall, int)>)
      modifies this`mConnectCallback, this`history
      ensures InTurn(OpenCalls(mDsn), calls, rc) && Snap() == Recorded(old(Snap()), calls)
      ensures mConnectCallback == (old(mConnectCallback) || calls[|calls| - 1].0.ConnectTo?)
    {
      ghost var s := Snap();
      rc := CallLibrary(SetCredentials(mDsn.username, mDsn.password));
      calls := RecordMore(s, [], SetCredentials(mDsn.username, mDsn.password), rc);
      if rc != 0 {
        return;
      }
      mConnectCallback := true;
      var port := match mDsn.port case Some(port) => port case None => 0;
      rc := CallLibrary(ConnectTo(mDsn.host, port, KEEP_ALIVE_SECONDS));
      calls := RecordMore(s, calls, ConnectTo(mDsn.host, port, KEEP_ALIVE_SECONDS), rc);
    }

    lemma RecordedNothing(s: State)
      ensures Recorded(s, []) == s
    {
    }

    lemma NotEmptyInTurn(plan: seq<LibraryCall>, calls: seq<(LibraryCall, int)>, rc: int)
      requires InTurn(plan, calls, rc)
      ensures calls != []
    {
    }

    lemma RecordMore(s: State, calls: seq<(LibraryCall, int)>, call: LibraryCall, rc: int)
      returns (more: seq<(LibraryCall, int)>)
      ensures more == calls + [(call, rc)] && Recorded(s, more) == Log(Recorded(s, calls), Library(call, rc))
    {
      more := calls + [(call, rc)];
      assert more[..|calls|] == calls;
    }

    /** The frame of a connect that has just been tried. */
    method OpenContext(rc: int)
      modifies this`mContexts, this`history
      ensures Snap() == ContextOpened(old(Snap()), rc)
    {
      history := Then(history, Handshake(|mContexts|, Dial(rc)));
      mContexts := mContexts + [ConnectContext(false, ACK_NONE)];
    }

    /** The library has a socket: watch it, and let the connect callback find its frame. */
    method TakeLink(frame: nat) returns (ghost fd: int)
      requires Consistent()
      modifies this`mConnected, this`mSocket, this`mUserData, this`marks, mLoop`watches, mLoop.mSocketWatches
      ensures Consistent() && Snap() == LinkOpened(old(Snap()), frame, fd)
    {
      fd := TakeSocket();
      WatchOwnSocket();
      mUserData := Context(frame);
    }

    method TakeSocket() returns (ghost fd: int)
      modifies this`mConnected, this`mSocket, this`marks
      ensures Snap() == old(Snap()).(connected := true, socket := fd,
                                     marks := old(marks).(linkUp := true, room := RoomToWatch(mLoop.watches, fd)))
    {
      mConnected := true;
      mSocket := Anything();
      fd := mSocket;
      marks := marks.(linkUp := true, room := RoomToWatch(mLoop.watches, fd));
    }

    method WatchOwnSocket()
      requires Consistent()
      modifies mLoop`watches, mLoop.mSocketWatches
      ensures Consistent() && Snap() == old(Snap()).(watches := Watch(old(mLoop.watches), mSocket, ClientHandler))
    {
      mLoop.WatchSocket(mSocket, ClientHandler);
    }

    /** The start of connect, up to the wait for the acknowledgement. */
    method DialBroker() returns (rc: int, ghost calls: seq<(LibraryCall, int)>, ghost fd: int)
      requires Consistent()
      modifies this, mLoop`watches, mLoop.mSocketWatches
      ensures Consistent() && mReentries == old(mReentries)
      ensures DialCalls(cfg.clientId, mDsn, old(mMosqExists), calls, rc)
      ensures Snap() == DialledOut(Recorded(old(Snap()), calls), rc, fd)
    {
      hide DialCalls;
      fd := 0;
      rc, calls := ConnectMqtt();
      OpenContext(rc);
      if rc == 0 {
        fd := TakeLink(|mContexts| - 1);
      }
    }

    /** mosquitto_subscribe, on behalf of a connect. */
    method Subscribe(ghost frame: nat, own: bool) returns (rc: int)
      requires Valid() && mUserData != Context(frame) && frame < |mContexts|
      modifies this`history, this`marks
      ensures Valid() && EvolvesPast(frame, old(Snap()), Snap())
      ensures Snap() == Subscribed(old(Snap()), frame, JoinStep(own, rc))
    {
      hide Inv, EvolvesPast, JoinStep;
      rc := Anything();
      ghost var step := JoinStep(own, rc);
      ghost var s := Snap();
      SubscribedInv(cfg, s, frame, step);
      marks := Subscribed(s, frame, step).marks;
      history := Then(history, Handshake(frame, step));
    }

    /** mosquitto_disconnect when the handshake fails: the socket stays watched. */
    method GiveUp() returns (ghost rc: int)
      requires Valid() && !mUserData.Context?
      modifies this`mConnected, this`mSocket, this`marks, this`history
      ensures Valid() && Evolves(old(Snap()), Snap()) && !mConnected && mSessionInfo == old(mSessionInfo)
      ensures history == Then(old(history), Library(LibraryCall.LeaveBroker, rc))
    {
      ghost var s := Snap();
      var code, closed := LeaveBroker();
      rc := code;
      AbandonedInv(cfg, s, rc, closed);
    }

    /** mSessionInfo takes the keys of the response. */
    method OpenSession(session: SessionInformation, ghost frame: nat, ghost grant: Grant)
      requires Valid() && mUserData != Context(frame) && frame < |mContexts|
      requires PhaseOf(history, frame) == LoginSent(grant.request)
      requires Granted(cfg, history, grant) && grant.session == session
      modifies this`mSessionInfo, this`history
      ensures Valid() && EvolvesPast(frame, old(Snap()), Snap())
      ensures Snap() == SessionOpened(old(Snap()), frame, grant)
    {
      hide Inv, EvolvesPast;
      SessionOpenedInv(cfg, Snap(), frame, grant);
      mSessionInfo := Some(session);
      history := Then(history, Handshake(frame, LoginAccept(grant)));
    }

    /**
     The request of login, the one numbered `request`: it times out exactly when it was answered by nothing, any
     other failure is explained by how far it got, and success brings the content of its last answer.
     */
    method RequestLogin(ghost frame: nat) returns (r: Result, response: Option<Content>, ghost request: nat)
      requires Valid() && !mUserData.Context? && frame < |mContexts|
      requires PhaseOf(history, frame).Joined?
      modifies this, mLoop, mLoop.mTimers, mLoop.mSocketWatches, mMessageBus
      ensures Valid() && EvolvesPast(frame, old(Snap()), Snap()) && mReentries <= old(mReentries)
      ensures request == |old(mRequests)|
      ensures frame < |mContexts|
      ensures !mUserData.Context?
      ensures if r.Ok? then PhaseOf(history, frame) == LoginSent(request)
                            && response.Some? && LoginAnswer(cfg, history, request, response.value)
                            && LoginOnWire(cfg, history, frame, request)
              else Explained(history, frame, LoginResult(r))
      ensures PhaseOf(history, frame).Joined? <==> !old(mConnected)
      decreases mReentries, 14
    {
      ghost var s := Snap();
      request := |mRequests|;
      ghost var x: RequestRun;
      r, response, x := SendRequest(cfg.loginRequest, LoginResponse, cfg.hashedPassword, Some(frame));
      LoginSentPhase(s, frame, r, response, x, Snap());
      if r.Ok? {
        OnWireWhenSent(cfg, Snap(), frame, request);
      }
    }

    /** How far a login got when its request came back with `r`. */
    lemma {:induction false} LoginSentPhase(s: State, frame: nat, r: Result, response: Option<Content>,
                                            x: RequestRun, t: State)
      requires PhaseOf(s.history, frame).Joined? && cfg.loginRequest.typeName.LoginRequest?
      requires RequestMade(cfg, s, cfg.loginRequest, LoginResponse, cfg.hashedPassword, Some(frame), mResponseTimeout,
                           x, r, response, t)
      requires !x.refused ==>
                 PhaseOf(t.history, frame) == Advance(PhaseOf(s.history, frame), LoginPublish(0, |s.requests|))
      ensures PhaseOf(t.history, frame).Joined? <==> !s.connected
      ensures r.Ok? ==> PhaseOf(t.history, frame) == LoginSent(|s.requests|)
                        && response.Some? && LoginAnswer(cfg, t.history, |s.requests|, response.value)
      ensures !r.Ok? ==> Explained(t.history, frame, LoginResult(r))
    {
      hide AnswerAwaited, Carries;
      if x.refused {
        SentFacts(s, cfg.loginRequest, x.time, x.payload, Some(frame), x.rc);
      } else {
        TimesOutUnanswered(cfg, LoginResponse, cfg.hashedPassword, ResponsesTo(t.history, |s.requests|));
      }
    }

    /** On success the session is the one that the answers to this call's own request granted. */
    method Login(ghost frame: nat) returns (r: Result)
      requires Valid() && !mUserData.Context? && frame < |mContexts|
      requires PhaseOf(history, frame).Joined?
      modifies this, mLoop, mLoop.mTimers, mLoop.mSocketWatches, mMessageBus
      ensures Valid() && EvolvesPast(frame, old(Snap()), Snap()) && mReentries <= old(mReentries)
      ensures frame < |mContexts|
      ensures if r.Ok? then LoggedInSpec(cfg, frame, Snap())
                            && PhaseOf(history, frame).grant.request == |old(mRequests)|
              else ConnectSpec(cfg, frame, r, Snap()) && !Unacknowledged(r)
      ensures !mUserData.Context? && (PhaseOf(history, frame).Joined? <==> !old(mConnected))
      decreases mReentries, 15
    {
      hide Inv, EvolvesPast;
      ghost var s := Snap();
      ghost var request: nat;
      var result, response;
      result, response, request := RequestLogin(frame);
      ghost var t := Snap();
      if !result.Ok? {
        r := if result.code == ResponseTimeout then Err(LoginTimeout) else Err(LoginFailed);
        EndsEarly(cfg, frame, r, t);
      } else {
        r := AcceptLogin(response.value, frame, request);
        PastTransitive(frame, s, t, Snap());
      }
    }

    /** The end of login: only status 0 opens a session, the one in the last answer. */
    method AcceptLogin(content: Content, ghost frame: nat, ghost request: nat) returns (r: Result)
      requires Valid() && !mUserData.Context? && frame < |mContexts|
      requires PhaseOf(history, frame) == LoginSent(request) && LoginAnswer(cfg, history, request, content)
      requires LoginOnWire(cfg, history, frame, request)
      modifies this`mSessionInfo, this`history
      ensures Valid() && EvolvesPast(frame, old(Snap()), Snap())
      ensures if content.loginStatus == 0
              then r == Ok && Snap() == SessionOpened(old(Snap()), frame, GrantFor(old(history), request, content))
                   && LoggedInSpec(cfg, frame, Snap()) && PhaseOf(history, frame).grant.request == request
              else r == Err(LoginFailed) && Snap() == old(Snap()) && ConnectSpec(cfg, frame, r, Snap())
    {
      hide Inv, EvolvesPast;
      ghost var s := Snap();
      if content.loginStatus != 0 {
        r := Err(LoginFailed);
        PastRefl(frame, s);
        EndsEarly(cfg, frame, r, s);
      } else {
        LoginAccepted(cfg, frame, s, request, content);
        OpenSession(content.session, frame, GrantFor(history, request, content));
        r := Ok;
      }
    }

    /**
     Waits for the acknowledgement; without an accepted one the context dies with the call, and an attempt of
     reconnect, by the rules, goes on being connected.
     */
    method AwaitConnack(frame: nat) returns (r: Result, ghost w: WaitRun)
      requires Valid() && frame < |mContexts| && mUserData == Context(frame)
      requires PhaseOf(history, frame) == Dialled(None)
      modifies this, mLoop, mLoop.mTimers, mLoop.mSocketWatches, mMessageBus
      ensures Valid() && EvolvesPast(frame, old(Snap()), Snap()) && mReentries <= old(mReentries)
      ensures frame < |mContexts| && !mUserData.Context?
      ensures if r.Ok? then mUserData == Self && mMessageCallback && PhaseOf(history, frame) == Dialled(Some(0))
              else ConnectSpec(cfg, frame, r, Snap()) && Unacknowledged(r)
      ensures old(marks).onStack && marks.disciplined ==> mConnected
      ensures WaitEnded(OfContext(frame), old(mSocket), mConnectTimeout, old(Snap()), w)
      ensures AcknowledgementRead(w.after, frame, r, Snap())
      decreases mReentries, 11
    {
      hide Inv, EvolvesPast, ConnectSpec, Unacknowledged, WaitEnded, AcknowledgementRead;
      ContextRead(cfg, Snap(), frame);
      ghost var s := Snap();
      w := Wait(OfContext(frame), mSocket, mConnectTimeout);
      AfterAcknowledgement(cfg, s, frame, w.after);
      PastNarrow(frame, |s.contexts|, s, w.after);
      r := ReadConnack(frame);
      PastTransitive(frame, s, w.after, Snap());
    }

    /** Looks at the context and, if the broker accepted, makes the client itself the callbacks' target. */
    method ReadConnack(frame: nat) returns (r: Result)
      requires Valid() && frame < |mContexts| && PhaseOf(history, frame).Dialled?
      requires mUserData.Context? ==> mUserData == Context(frame)
      modifies this`mUserData, this`mMessageCallback
      ensures Valid() && EvolvesPast(frame, old(Snap()), Snap()) && history == old(history) && !mUserData.Context?
      ensures mConnected == old(mConnected) && AcknowledgementRead(old(Snap()), frame, r, Snap())
      ensures if r.Ok? then mUserData == Self && mMessageCallback && PhaseOf(history, frame) == Dialled(Some(0))
              else ConnectSpec(cfg, frame, r, Snap()) && Unacknowledged(r)
    {
      hide Inv, EvolvesPast;
      var context := mContexts[frame];
      r := if !context.notified then Err(ConnectionTimeout)
           else if context.returnCode != 0 then Err(ConnectionRefused) else Ok;
      ContextRead(cfg, Snap(), frame);
      if r.Ok? {
        AdoptCallbacks(frame);
      } else {
        DropContext(frame);
        EndsEarly(cfg, frame, r, Snap());
      }
    }

    method DropContext(frame: nat)
      requires Valid() && frame < |mContexts| && (mUserData.Context? ==> mUserData == Context(frame))
      modifies this`mUserData
      ensures Valid() && EvolvesPast(frame, old(Snap()), Snap()) && !mUserData.Context?
      ensures Snap() == ContextGone(old(Snap()), frame)
    {
      ContextGoneInv(cfg, Snap(), frame);
      mUserData := if mUserData == Context(frame) then Dangling else mUserData;
    }

    /** mosquitto_user_data_set and mosquitto_message_callback_set. */
    method AdoptCallbacks(ghost frame: nat)
      requires Valid() && frame < |mContexts| && (mUserData.Context? ==> mUserData == Context(frame))
      modifies this`mUserData, this`mMessageCallback
      ensures Valid() && EvolvesPast(frame, old(Snap()), Snap()) && mUserData == Self && mMessageCallback
      ensures Snap() == Adopted(old(Snap()))
    {
      hide Inv, EvolvesPast;
      AdoptedInv(cfg, Snap(), frame);
      mUserData := Self;
      mMessageCallback := true;
    }

    /** A handshake step that the library refuses ends the connect; nothing else happens in it. */
    method Join(ghost frame: nat, own: bool) returns (ok: bool, ghost rc: int, ghost left: int)
      requires Valid() && !mUserData.Context? && frame < |mContexts|
      modifies this`history, this`marks, this`mConnected, this`mSocket, this`marks
      ensures Valid() && EvolvesPast(frame, old(Snap()), Snap())
      ensures var h := Then(old(history), Handshake(frame, JoinStep(own, rc)));
              history == if ok then h else Then(h, Library(LibraryCall.LeaveBroker, left))
      ensures ok == (rc == 0) && mConnected == (ok && old(mConnected)) && (ok && marks.disciplined ==> marks.linkUp)
    {
      ghost var s := Snap();
      var code := Subscribe(frame, own);
      ok, rc, left := code == 0, code, 0;
      if code != 0 {
        ghost var t := Snap();
        left := GiveUp();
        PastNarrow(frame, |t.contexts|, t, Snap());
        PastTransitive(frame, s, t, Snap());
      }
    }

    /** login, and leaving the broker when it fails. */
    method LoginOrLeave(ghost frame: nat) returns (r: Result)
      requires Valid() && !mUserData.Context? && frame < |mContexts|
      requires PhaseOf(history, frame).Joined?
      modifies this, mLoop, mLoop.mTimers, mLoop.mSocketWatches, mMessageBus
      ensures Valid() && EvolvesPast(frame, old(Snap()), Snap()) && mReentries <= old(mReentries)
      ensures frame < |mContexts|
      ensures if r.Ok? then !mUserData.Context? && LoggedInSpec(cfg, frame, Snap())
              else ConnectSpec(cfg, frame, r, Snap()) && !mConnected && !Unacknowledged(r) && LeftBroker(history)
      ensures PhaseOf(history, frame).Joined? <==> !old(mConnected)
      decreases mReentries, 16
    {
      ghost var s := Snap();
      r := Login(frame);
      if !r.Ok? {
        ghost var t := Snap();
        ghost var left := GiveUp();
        PastNarrow(frame, |t.contexts|, t, Snap());
        PastTransitive(frame, s, t, Snap());
        ConnectSpecKept(cfg, frame, r, t, Snap(), Library(LibraryCall.LeaveBroker, left));
      }
    }

    /** Login, then the events topic. */
    method EnterSession(ghost frame: nat) returns (r: Result)
      requires Valid() && !mUserData.Context? && frame < |mContexts|
      requires PhaseOf(history, frame).Joined?
      modifies this, mLoop, mLoop.mTimers, mLoop.mSocketWatches, mMessageBus
      ensures Valid() && EvolvesPast(frame, old(Snap()), Snap()) && mReentries <= old(mReentries)
      ensures ConnectSpec(cfg, frame, r, Snap()) && (PhaseOf(history, frame).Joined? <==> !old(mConnected))
      ensures if r.Ok? then marks.disciplined ==> marks.linkUp
              else !mConnected && !Unacknowledged(r) && LeftBroker(history)
      decreases mReentries, 17
    {
      hide Inv, EvolvesPast;
      ghost var s := Snap();
      r := LoginOrLeave(frame);
      if r.Ok? {
        ghost var l := Snap();
        var joined, rc, left := Join(frame, false);
        EventsTopicJoined(cfg, frame, rc, left, l, Snap());
        PastTransitive(frame, s, l, Snap());
        r := if joined then Ok else Err(Transport);
      }
    }

    /** The rest of connect, from an accepted acknowledgement on. */
    method OpenGateway(ghost frame: nat) returns (r: Result)
      requires Valid() && !mUserData.Context? && frame < |mContexts|
      requires PhaseOf(history, frame) == Dialled(Some(0))
      modifies this, mLoop, mLoop.mTimers, mLoop.mSocketWatches, mMessageBus
      ensures Valid() && EvolvesPast(frame, old(Snap()), Snap()) && mReentries <= old(mReentries)
      ensures ConnectSpec(cfg, frame, r, Snap()) && (PhaseOf(history, frame).Joined? ==> !old(mConnected))
      ensures if r.Ok? then marks.disciplined ==> marks.linkUp
              else !mConnected && !Unacknowledged(r) && LeftBroker(history)
      decreases mReentries, 18
    {
      hide Inv, EvolvesPast, ConnectSpec;
      ghost var s := Snap();
      var joined, rc, left := Join(frame, true);
      ghost var j := Snap();
      OwnTopicJoined(cfg, frame, rc, left, s, j);
      if joined {
        r := EnterSession(frame);
        PastTransitive(frame, s, j, Snap());
      } else {
        r := Err(Transport);
      }
    }

    /** The dial, and the wait for its acknowledgement. */
    method DialAndWait() returns (r: Result, ghost x: DialRun)
      requires Valid() && !mConnected
      requires marks.disciplined && mReconnecting ==> marks.onStack && !mUserData.Context?
      modifies this, mLoop, mLoop.mTimers, mLoop.mSocketWatches, mMessageBus
      ensures Valid() && Evolves(old(Snap()), Snap()) && mReentries <= old(mReentries)
      ensures |old(mContexts)| < |mContexts|
      ensures if r.Ok? then mUserData == Self && PhaseOf(history, |old(mContexts)|) == Dialled(Some(0))
              else ConnectSpec(cfg, |old(mContexts)|, r, Snap()) && FailedConnect(old(Snap()), r, Snap())
      ensures DialMade(cfg.clientId, mDsn, old(mMosqExists), mConnectTimeout, old(Snap()), x)
      ensures x.result == r && x.after == Snap()
      decreases mReentries, 18, 1
    {
      hide Inv, EvolvesPast, Undisturbed, DialledOut, DialCalls, WaitEnded, AcknowledgementRead;
      ghost var s := Snap();
      var frame := |mContexts|;
      var rc;
      ghost var calls: seq<(LibraryCall, int)>, fd: int;
      rc, calls, fd := DialBroker();
      ghost var c := Recorded(s, calls);
      RecordedInv(cfg, s, calls);
      DialledOutInv(cfg, c, rc, fd);
      ghost var d := Snap();
      ghost var w := WaitRun([], [d], d);
      DialledOnStack(c, rc, fd);
      if rc != 0 {
        r := Err(Transport);
        EndsEarly(cfg, frame, r, d);
      } else {
        r, w := AwaitConnack(frame);
        DialReturned(c, d, Snap());
      }
      x := DialRun(calls, rc, fd, w, r, Snap());
      EvolvesTransitive(s, c, Snap());
    }

    /** connect before its last step, which schedules the misc timer. */
    method ShakeHands() returns (r: Result, ghost x: DialRun)
      requires Valid() && !mConnected
      requires marks.disciplined && mReconnecting ==> marks.onStack && !mUserData.Context?
      modifies this, mLoop, mLoop.mTimers, mLoop.mSocketWatches, mMessageBus
      ensures Valid() && Evolves(old(Snap()), Snap()) && mReentries <= old(mReentries)
      ensures |old(mContexts)| < |mContexts| && ConnectSpec(cfg, |old(mContexts)|, r, Snap())
      ensures !r.Ok? ==> FailedConnect(old(Snap()), r, Snap())
      ensures r.Ok? && marks.disciplined ==> marks.linkUp && (mReconnecting ==> marks.onStack)
      ensures DialMade(cfg.clientId, mDsn, old(mMosqExists), mConnectTimeout, old(Snap()), x)
      ensures ShakenHands(x, |old(mContexts)|, r, Snap())
      decreases mReentries, 19
    {
      hide DialMade;
      ghost var s := Snap();
      r, x := DialAndWait();
      if r.Ok? {
        ghost var a := Snap();
        r := OpenGateway(|s.contexts|);
        PastTransitive(|s.contexts|, s, a, Snap());
      }
    }

    /** The end of a connect that succeeded: `mid` is the state its handshake left. */
    method FinishConnect(ghost s: State, ghost frame: nat) returns (ghost elapsed: nat)
      requires Valid() && Evolves(s, Snap()) && ConnectSpec(cfg, frame, Ok, Snap())
      requires marks.disciplined ==> marks.linkUp && (mReconnecting ==> marks.onStack)
      modifies this, mLoop, mLoop.mTimers
      ensures Valid() && Evolves(s, Snap()) && mReentries == old(mReentries)
      ensures ConnectSpec(cfg, frame, Ok, Snap()) && Snap() == MiscScheduled(old(Snap()), elapsed)
      ensures marks.disciplined ==>
                && mConnected && marks.linkUp && Holds(mLoop.table, mMiscTimerId, MiscTimer)
                && (mReconnecting ==> marks.onStack)
    {
      ghost var t := Snap();
      elapsed := ScheduleMisc();
      EvolvesTransitive(s, t, Snap());
    }

    /**
     connect. A call that finds the client connected changes nothing. Any other gets a frame of its own, and its
     result says how far its own steps got; on success the session is the one that its own login request was
     granted. A failure leaves the client connected only when no acknowledgement came or it refused. As long as the
     user keeps to the rules, success also means a live connection with its misc timer armed. `mid` is the state in
     which the handshake left the client.
     */
    method Connect() returns (r: Result, ghost x: DialRun, ghost mid: State, ghost elapsed: nat)
      requires Valid() && (marks.disciplined && mReconnecting ==> marks.onStack && !mUserData.Context?)
      modifies this, mLoop, mLoop.mTimers, mLoop.mSocketWatches, mMessageBus
      ensures Valid() && Evolves(old(Snap()), Snap()) && mReentries <= old(mReentries)
      ensures if old(mConnected) then r.Ok? && Snap() == old(Snap())
              else |old(mContexts)| < |mContexts| && ConnectSpec(cfg, |old(mContexts)|, r, Snap())
      ensures !old(mConnected) ==>
                && DialMade(cfg.clientId, mDsn, old(mMosqExists), mConnectTimeout, old(Snap()), x)
                && ShakenHands(x, |old(mContexts)|, r, mid) && (!r.Ok? ==> Snap() == mid)
      ensures !old(mConnected) && r.Ok? ==> Inv(cfg, mid) && Snap() == MiscScheduled(mid, elapsed)
      ensures !r.Ok? ==> FailedConnect(old(Snap()), r, Snap())
      ensures r.Ok? ==> (mSessionInfo.Some? <==> !old(mConnected) || old(mSessionInfo).Some?)
      ensures !r.Ok? ==> (mSessionInfo.Some? <==>
                || EventsRefused(PhaseOf(history, |old(mContexts)|))
                || OpenElsewhere(old(history), history, |old(mContexts)|))
      ensures !old(mConnected) && r.Ok? && marks.disciplined ==>
                && mConnected && marks.linkUp && Holds(mLoop.table, mMiscTimerId, MiscTimer)
                && (mReconnecting ==> marks.onStack)
      decreases mReentries, 20
    {
      hide DialMade, ShakenHands;
      ghost var s := Snap();
      mid, elapsed := s, 0;
      x := DialRun([], 0, 0, WaitRun([], [s], s), Ok, s);
      if mConnected {
        EvolvesRefl(s);
        r := Ok;
        return;
      }
      r, x := ShakeHands();
      mid := Snap();
      if r.Ok? {
        elapsed := FinishConnect(s, |s.contexts|);
      } else {
        SessionAfterFailure(cfg, |s.contexts|, r, s, mid);
      }
    }

    // ----- reconnecting

    /** A failed attempt: a longer delay, and the timer armed again. */
    method RetryLater() returns (ghost elapsed: nat, ghost delay: int)
      requires Consistent()
      modifies this`mReconnectTimerId, this`mReconnecting, this`history, this`marks
      modifies mLoop`mClock, mLoop`table, mLoop.mTimers, mReconnectDelay
      ensures Consistent() && 0 <= delay < mReconnectDelay.mDelay
      ensures Snap() == AttemptFailed(old(Snap()), elapsed, delay)
    {
      mReconnectDelay.Next();
      history := Then(history, ReconnectFailed);
      elapsed, delay := ArmReconnect();
      marks := marks.(onStack := false);
    }

    /** `dialled` tells whether the connect that succeeded made the connection. */
    method EndReconnecting(dialled: bool)
      requires Consistent()
      modifies this`mReconnecting, this`history, this`marks, mReconnectDelay
      ensures Consistent() && Snap() == AttemptSucceeded(old(Snap()), dialled)
    {
      mReconnectDelay.Reset();
      mReconnecting := false;
      marks := marks.(onStack := false, ready := marks.ready || dialled);
      history := Then(history, ReconnectSucceeded);
    }

    method FailAttempt() returns (ghost luck: Luck)
      requires Valid() && marks.onStack && !mUserData.Context?
      modifies this, mLoop, mLoop.mTimers, mReconnectDelay
      ensures Valid() && mReentries == old(mReentries) && Later(old(Snap()), Snap())
      ensures 0 <= luck.delay < mReconnectDelay.mDelay
      ensures Snap() == AttemptFailed(old(Snap()), luck.elapsed, luck.delay)
      ensures marks.disciplined ==> Holds(mLoop.table, mReconnectTimerId, ReconnectTimer)
    {
      ghost var s := Snap();
      ghost var elapsed, delay := RetryLater();
      AttemptFailedInv(cfg, s, elapsed, delay);
      AttemptFailedLater(s, elapsed, delay);
      luck := Luck(false, 0, elapsed, delay);
    }

    method EndAttempt(dialled: bool)
      requires Valid() && marks.onStack
      requires marks.disciplined && dialled ==> mConnected && Holds(mLoop.table, mMiscTimerId, MiscTimer)
      modifies this, mReconnectDelay
      ensures Valid() && mReentries == old(mReentries) && Later(old(Snap()), Snap())
      ensures Snap() == AttemptSucceeded(old(Snap()), dialled)
    {
      AttemptSucceededInv(cfg, Snap(), dialled);
      EndReconnecting(dialled);
    }

    /** One attempt: connect, which leaves the client in `mid`, and on failure a new timer with a longer delay. */
    method AttemptReconnect() returns (r: Result, ghost mid: State, ghost luck: Luck)
      requires Valid() && marks.onStack && !mUserData.Context?
      modifies this, mLoop, mLoop.mTimers, mLoop.mSocketWatches, mMessageBus, mReconnectDelay
      ensures Valid() && Later(old(Snap()), Snap()) && mReentries <= old(mReentries) && !mUserData.Context?
      ensures AttemptSpec(cfg, old(Snap()), r, Snap())
      ensures Inv(cfg, mid) && (if r.Ok? then Snap() == AttemptSucceeded(mid, !old(mConnected))
                                else 0 <= luck.delay < mReconnectDelay.mDelay
                                     && Snap() == AttemptFailed(mid, luck.elapsed, luck.delay))
      decreases mReentries, 21
    {
      ghost var s := Snap();
      var dialled := !mConnected;
      luck := Luck(false, 0, 0, 0);
      ghost var x: DialRun, t: State, elapsed: nat;
      r, x, t, elapsed := Connect();
      mid := Snap();
      if r.Ok? {
        EndAttempt(dialled);
      } else {
        luck := FailAttempt();
      }
      AttemptEnds(cfg, s, mid, r, Snap(), luck);
      LaterTransitive(s, mid, Snap());
    }

    /**
     reconnect, called by its timer. A failed attempt lengthens the delay and arms the timer again; a
     successful one resets the delay and ends the reconnecting.
     */
    method Reconnect(ghost ticket: nat) returns (r: Result, ghost mid: State, ghost luck: Luck)
      requires Consistent() && Inv(cfg, Called(Snap(), ticket)) && (mReconnecting <==> marks.onStack) && !mUserData.Context?
      modifies this, mLoop, mLoop.mTimers, mLoop.mSocketWatches, mMessageBus, mReconnectDelay
      ensures Valid() && mReentries <= old(mReentries) && !mUserData.Context?
      ensures !marks.onStack && marks.onMisc == old(marks).onMisc && marks.open == old(marks).open
      ensures Extends(Called(old(Snap()), ticket).history, history) && Later(old(Snap()), Snap())
      ensures if old(mReconnecting) then AttemptSpec(cfg, Called(old(Snap()), ticket), r, Snap())
              else Snap() == Called(old(Snap()), ticket)
      ensures old(mReconnecting) && !r.Ok? ==>
                && Inv(cfg, mid) && 0 <= luck.delay < mReconnectDelay.mDelay
                && Snap() == AttemptFailed(mid, luck.elapsed, luck.delay)
      ensures mReconnecting && marks.disciplined ==> Holds(mLoop.table, mReconnectTimerId, ReconnectTimer)
      decreases mReentries, 22
    {
      hide Inv;
      ghost var s := Snap();
      r, luck := Ok, Luck(false, 0, 0, 0);
      RecordCall(ticket);
      mid := Snap();
      ghost var t := Snap();
      if mReconnecting {
        r, mid, luck := AttemptReconnect();
        LaterTransitive(s, t, Snap());
      }
    }
  }
}
