/**
 Where the code falls short of what one would expect of it: for each case a run of steps that starts from a new
 client and gets there. The exact conditions are in the contracts of connect and reconnect and in Theorems.dfy.
 */
module Shortfalls {
  import opened Wrappers
  import opened Bytes
  import opened Envelopes
  import opened Proto
  import opened MessageBuses
  import opened Histories
  import opened Deliveries
  import opened Backoff
  import opened Time
  import opened Timers
  import opened Watches
  import opened Machine
  import opened Invariance
  import opened Theorems
  import opened Clients
  import Dsns

  // ----- what waiting and reading record

  const A_SECOND: Timeval := Timeval(1, 0)

  /** A wait, or the loop, has found something to read on the client's socket, and room to write if it asked for that. */
  ghost function SocketReady(s: State, write: bool): State {
    var fds := Fds({s.socket}, if write then {s.socket} else {});
    Log(Log(s, Library(WantWrite, if write then 1 else 0)), Polled(fds, A_SECOND, fds, 1))
  }

  /** It calls the client's handler, which reads; the packets come next. */
  ghost function Reading(s: State, write: bool, rc: int): State {
    Log(Log(s, Notified(ClientHandler, true, write)), Library(LibraryCall.LoopRead, rc))
  }

  ghost function Woken(s: State): State { Reading(SocketReady(s, false), false, 0) }

  predicate IsNote(e: Event) { e.Notified? || e.Library? || e.Polled? || e.RawSeen? }

  /** What is noted on the record leaves everything else as it was. */
  ghost predicate OnlyNoted(s: State, t: State) {
    && t == s.(history := t.history) && SessionUndisturbed(s.history, t.history)
    && (forall f :: PhaseOf(t.history, f) == PhaseOf(s.history, f))
    && (forall i :: ResponsesTo(t.history, i) == ResponsesTo(s.history, i))
    && DispatchesOf(t.history) == DispatchesOf(s.history)
    && (forall who :: SeenBy(t.history, who) == SeenBy(s.history, who))
  }

  lemma {:induction false} Note(cfg: Config, s: State, e: Event)
    requires Inv(cfg, s) && IsNote(e)
    ensures Inv(cfg, Log(s, e)) && Evolves(s, Log(s, e)) && OnlyNoted(s, Log(s, e))
  {
    NotedInv(cfg, s, e);
    hide Inv, EvolvesPast;
    Unrelated(s.history, e);
    PlainEvents(s.history, e);
    assert SessionUndisturbed(s.history, s.history);
  }

  lemma {:induction false} UndisturbedFurther(a: History, b: History, c: History)
    requires SessionUndisturbed(a, b) && SessionUndisturbed(b, c)
    ensures SessionUndisturbed(a, c)
  {
    if c == b {
    } else {
      UndisturbedFurther(a, b, c.before);
    }
  }

  lemma {:induction false} NotedFurther(a: State, b: State, c: State)
    requires OnlyNoted(a, b) && OnlyNoted(b, c) && Evolves(a, b) && Evolves(b, c)
    ensures OnlyNoted(a, c) && Evolves(a, c)
  {
    UndisturbedFurther(a.history, b.history, c.history);
    hide EvolvesPast;
    EvolvesTransitive(a, b, c);
  }

  lemma {:induction false} NoteTwice(cfg: Config, s: State, e: Event, f: Event)
    requires Inv(cfg, s) && IsNote(e) && IsNote(f)
    ensures var t := Log(Log(s, e), f); Inv(cfg, t) && Evolves(s, t) && OnlyNoted(s, t)
  {
    hide Inv, EvolvesPast, OnlyNoted;
    Note(cfg, s, e);
    Note(cfg, Log(s, e), f);
    NotedFurther(s, Log(s, e), Log(Log(s, e), f));
  }

  lemma {:induction false} SocketReadyInv(cfg: Config, s: State, write: bool)
    requires Inv(cfg, s)
    ensures var t := SocketReady(s, write); Inv(cfg, t) && Evolves(s, t) && OnlyNoted(s, t)
  {
    hide Inv, EvolvesPast, OnlyNoted;
    var fds := Fds({s.socket}, if write then {s.socket} else {});
    NoteTwice(cfg, s, Library(WantWrite, if write then 1 else 0), Polled(fds, A_SECOND, fds, 1));
  }

  lemma {:induction false} ReadingInv(cfg: Config, s: State, write: bool, rc: int)
    requires Inv(cfg, s)
    ensures var t := Reading(s, write, rc); Inv(cfg, t) && Evolves(s, t) && OnlyNoted(s, t)
  {
    hide Inv, EvolvesPast, OnlyNoted;
    NoteTwice(cfg, s, Notified(ClientHandler, true, write), Library(LibraryCall.LoopRead, rc));
  }

  lemma {:induction false} WokenInv(cfg: Config, s: State, rc: int)
    requires Inv(cfg, s)
    ensures var t := Reading(SocketReady(s, false), false, rc); Inv(cfg, t) && Evolves(s, t) && OnlyNoted(s, t)
  {
    hide Inv, EvolvesPast, OnlyNoted, SocketReady, Reading;
    SocketReadyInv(cfg, s, false);
    ReadingInv(cfg, SocketReady(s, false), false, rc);
    NotedFurther(s, SocketReady(s, false), Reading(SocketReady(s, false), false, rc));
  }

  lemma {:induction false} RecordedNoted(cfg: Config, s: State, calls: seq<(LibraryCall, int)>)
    requires Inv(cfg, s)
    ensures var t := Recorded(s, calls); Inv(cfg, t) && Evolves(s, t) && OnlyNoted(s, t)
  {
    hide Inv, EvolvesPast, OnlyNoted;
    if calls == [] {
      EvolvesRefl(s);
      NothingNoted(s);
    } else {
      var n := |calls| - 1;
      RecordedNoted(cfg, s, calls[..n]);
      Note(cfg, Recorded(s, calls[..n]), Library(calls[n].0, calls[n].1));
      NotedFurther(s, Recorded(s, calls[..n]), Recorded(s, calls));
    }
  }

  lemma NothingNoted(s: State)
    ensures OnlyNoted(s, s)
  {
  }

  /** Events that are not about the bus leave what it did as it was. */
  lemma PlainEvents(h: History, e: Event)
    requires !e.Routed? && !e.Handed? && !e.Enlisted?
    ensures DispatchesOf(Then(h, e)) == DispatchesOf(h)
    ensures forall who :: SeenBy(Then(h, e), who) == SeenBy(h, who)
  {
  }

  // ----- dialling

  /** The calls of a first dial, all of them successful. */
  function FirstDial(clientId: ClientId, dsn: Dsns.Dsn): seq<(LibraryCall, int)> {
    [(NewHandle(clientId), 1)] + seq(|SetUpCalls(dsn)|, i requires 0 <= i < |SetUpCalls(dsn)| => (SetUpCalls(dsn)[i], 0))
  }

  /** The calls of any later one. */
  const DIAL_AGAIN: seq<(LibraryCall, int)> := [(ReconnectHandle, 0)]

  lemma {:induction false} DialsAsCoded(clientId: ClientId, dsn: Dsns.Dsn)
    ensures DialCalls(clientId, dsn, false, FirstDial(clientId, dsn), 0) && DialCalls(clientId, dsn, true, DIAL_AGAIN, 0)
  {
    var calls := FirstDial(clientId, dsn);
    assert calls[1..] == seq(|SetUpCalls(dsn)|, i requires 0 <= i < |SetUpCalls(dsn)| => (SetUpCalls(dsn)[i], 0));
    assert Clients.InTurn(SetUpCalls(dsn), calls[1..], 0);
  }

  /** The library has dialled, and the socket it has is watched. */
  ghost function DialledBy(s: State, calls: seq<(LibraryCall, int)>, fd: int): State {
    DialledOut(Recorded(s, calls), 0, fd)
  }

  lemma {:induction false} DialledByInv(cfg: Config, s: State, calls: seq<(LibraryCall, int)>, fd: int)
    requires Inv(cfg, s) && (s.marks.disciplined && s.reconnecting ==> s.marks.onStack)
    ensures var f, d := |s.contexts|, DialledBy(s, calls, fd);
            && Inv(cfg, d) && Undisturbed(f, s, d) && PhaseOf(d.history, f) == Dialled(None)
            && d.userData == Context(f) && |d.contexts| == f + 1
  {
    var c := Recorded(s, calls);
    RecordedNoted(cfg, s, calls);
    hide Inv, Undisturbed, DialledOut;
    DialledOutInv(cfg, c, 0, fd);
    UndisturbedTransitive(|s.contexts|, s, c, DialledOut(c, 0, fd));
  }

  // ----- reconnecting ends without a session

  /** Another dial, a wait and the acknowledgement it brought, if any; then connect gives up its context. */
  ghost function DialInVain(s: State, fd: int, code: Option<int>): State {
    var d := Woken(DialledBy(s, DIAL_AGAIN, fd));
    ContextGone(if code.None? then d else Acknowledged(d, |s.contexts|, code.value), |s.contexts|)
  }

  function VainResult(code: Option<int>): Result {
    Err(if code.None? then ConnectionTimeout else ConnectionRefused)
  }

  lemma {:induction false} WokenDial(cfg: Config, s: State, fd: int)
    requires Inv(cfg, s) && s.marks.onStack
    ensures var f, d, w := |s.contexts|, DialledBy(s, DIAL_AGAIN, fd), Woken(DialledBy(s, DIAL_AGAIN, fd));
            && Inv(cfg, w) && Undisturbed(f, s, d) && EvolvesPast(f, d, w)
            && PhaseOf(w.history, f) == Dialled(None) && w.userData == Context(f) && |w.contexts| == f + 1
  {
    hide Inv, EvolvesPast, Undisturbed, DialledBy, SocketReady, Reading;
    var d := DialledBy(s, DIAL_AGAIN, fd);
    DialledByInv(cfg, s, DIAL_AGAIN, fd);
    WokenInv(cfg, d, 0);
    PastNarrow(|s.contexts|, |d.contexts|, d, Woken(d));
  }

  lemma {:induction false} DialInVainInv(cfg: Config, s: State, fd: int, code: Option<int>)
    requires Inv(cfg, s) && s.marks.onStack && !s.userData.Context? && code != Some(0)
    ensures Inv(cfg, DialInVain(s, fd, code)) && Evolves(s, DialInVain(s, fd, code))
    ensures ConnectSpec(cfg, |s.contexts|, VainResult(code), DialInVain(s, fd, code))
  {
    hide Inv, EvolvesPast, Undisturbed, DialledBy, SocketReady, Reading;
    var f, d, g := |s.contexts|, DialledBy(s, DIAL_AGAIN, fd), DialInVain(s, fd, code);
    var w := Woken(d);
    WokenDial(cfg, s, fd);
    if code.None? {
      ContextGoneInv(cfg, w, f);
      PastTransitive(f, d, w, g);
    } else {
      var a := Acknowledged(w, f, code.value);
      AcknowledgedInv(cfg, w, code.value);
      PastNarrow(f, |w.contexts|, w, a);
      ContextGoneInv(cfg, a, f);
      PastTransitive(f, d, w, a);
      PastTransitive(f, d, a, g);
    }
    EndsEarly(cfg, f, VainResult(code), g);
    DialReturned(s, d, g);
  }

  /** What the attempt in vain leaves as it was, and what the count of its failure adds. */
  lemma {:induction false} VainFacts(s: State, fd: int, code: Option<int>)
    requires TableOk(s.table)
    ensures var g := DialInVain(s, fd, code);
            && g.connected && g.session == s.session && g.marks.onStack == s.marks.onStack && g.table == s.table
            && g.marks.disciplined == s.marks.disciplined
    ensures var t := AttemptFailed(DialInVain(s, fd, code), 0, 0);
            && t.connected && t.session == s.session && t.reconnecting && !t.marks.onStack
            && t.marks.onMisc == s.marks.onMisc && t.marks.open == s.marks.open && t.marks.disciplined == s.marks.disciplined
            && t.userData == DialInVain(s, fd, code).userData
            && (Holds(t.table, t.reconnectId, ReconnectTimer) ==> t.table.timers[t.reconnectId].expiresAt <= t.table.clock)
  {
    Starting(s.table, 0, 0, ReconnectTimer);
    assert forall i | 0 <= i < TIMER_COUNT && s.table.timers[i].IsActive() :: s.table.timers[i].callback != NoCallback;
  }

  lemma {:induction false} VainAttempt(cfg: Config, s: State, fd: int, code: Option<int>)
    requires Inv(cfg, s) && s.marks.onStack && !s.userData.Context? && !s.connected && code != Some(0) && TableOk(s.table)
    ensures var g, failed := DialInVain(s, fd, code), AttemptFailed(DialInVain(s, fd, code), 0, 0);
            && Inv(cfg, failed) && AttemptSpec(cfg, s, VainResult(code), failed) && !g.userData.Context?
            && (s.marks.disciplined ==> Holds(failed.table, failed.reconnectId, ReconnectTimer))
  {
    hide Inv, ConnectSpec, EvolvesPast, TableOk, Started, DialInVain, AttemptFailed, AttemptSpec;
    var g := DialInVain(s, fd, code);
    DialInVainInv(cfg, s, fd, code);
    VainFacts(s, fd, code);
    TableIsOk(cfg, g);
    BoundPositive(RECONNECT_BASE, RECONNECT_FACTOR, RECONNECT_MAX, FailuresOf(g.history) + 1);
    FailedDelay(cfg, g);
    CallbacksFound(s, g);
    AttemptFailedInv(cfg, g, 0, 0);
    AttemptEnds(cfg, s, g, VainResult(code), AttemptFailed(g, 0, 0), Luck(false, 0, 0, 0));
  }

  lemma CallbacksFound(s: State, t: State)
    requires Evolves(s, t) && !s.userData.Context?
    ensures !t.userData.Context?
  {
  }

  lemma {:induction false} FailedDelay(cfg: Config, s: State)
    requires Inv(cfg, s)
    ensures Min(s.delay * RECONNECT_FACTOR, RECONNECT_MAX) == ReconnectBound(FailuresOf(s.history) + 1)
  {
    CappedStep(RECONNECT_BASE, RECONNECT_FACTOR, RECONNECT_MAX, FailuresOf(s.history));
  }

  /**
   A reconnect attempt whose dial is not acknowledged, or is refused, fails but leaves the client connected; so by the
   contract of reconnect the next attempt succeeds without dialling, and reconnecting ends without a session.
   */
  lemma {:induction false} UnansweredDialEndsReconnecting(cfg: Config, s: State, fd: int, code: Option<int>)
    requires Inv(cfg, s) && s.marks.onStack && !s.marks.onMisc && s.marks.open == [] && !s.userData.Context?
    requires !s.connected && s.session == None && code != Some(0)
    ensures TableOk(s.table)
    ensures var failed := AttemptFailed(DialInVain(s, fd, code), 0, 0);
            && Inv(cfg, failed) && AtRest(failed) && failed.connected && failed.session == None && failed.reconnecting
            && failed.marks.disciplined == s.marks.disciplined
            && AttemptSpec(cfg, s, VainResult(code), failed)
            && (s.marks.disciplined ==> Holds(failed.table, failed.reconnectId, ReconnectTimer))
            && (Holds(failed.table, failed.reconnectId, ReconnectTimer) ==> EndsWithoutSession(cfg, failed))
  {
    TableIsOk(cfg, s);
    VainFacts(s, fd, code);
    VainAttempt(cfg, s, fd, code);
    hide Inv, AttemptSpec, TableOk, DialInVain, AttemptFailed, EndsWithoutSession;
    var failed := AttemptFailed(DialInVain(s, fd, code), 0, 0);
    if Holds(failed.table, failed.reconnectId, ReconnectTimer) {
      NextAttempt(cfg, failed);
    }
  }

  /** The reconnect timer has fired and called reconnect. */
  ghost function AttemptBegun(s: State): State
    requires TableOk(s.table) && 0 <= s.reconnectId < TIMER_COUNT
  {
    Called(TimerFired(s, s.reconnectId, 0), s.table.holder[s.reconnectId])
  }

  /** The timer fires; connect returns at once; the attempt counts as successful. */
  ghost predicate EndsWithoutSession(cfg: Config, s: State)
    requires TableOk(s.table) && 0 <= s.reconnectId < TIMER_COUNT
  {
    var e := AttemptSucceeded(AttemptBegun(s), false);
    Inv(cfg, e) && AttemptSpec(cfg, AttemptBegun(s), Ok, e) && e.connected && !e.reconnecting && e.session == None
  }

  lemma ActiveIf(t: Table, id: int)
    ensures Holds(t, id, ReconnectTimer) ==> 0 <= id < |t.timers| && t.timers[id].IsActive()
    ensures TableOk(t) ==> |t.timers| == TIMER_COUNT
  {
  }

  lemma {:induction false} NextAttempt(cfg: Config, s: State)
    requires Inv(cfg, s) && AtRest(s) && s.connected && s.session == None
    requires Holds(s.table, s.reconnectId, ReconnectTimer) && s.table.timers[s.reconnectId].expiresAt <= s.table.clock
    ensures TableOk(s.table) && EndsWithoutSession(cfg, s)
  {
    TableIsOk(cfg, s);
    ActiveIf(s.table, s.reconnectId);
    hide Inv, ConnectSpec, TableOk;
    TimerFiredInv(cfg, s, s.reconnectId, 0);
    AttemptSucceededInv(cfg, AttemptBegun(s), false);
  }

  /** A connect of a new client: it has dialled, and its wait for the acknowledgement reads that the connection is gone. */
  ghost function Severed(cfg: Config, dsn: Dsns.Dsn, fd: int): State {
    Reading(SocketReady(DialledBy(InitialState(), FirstDial(cfg.clientId, dsn), fd), false), false, 7)
  }

  /** The connection is lost, and connect returns. */
  ghost function LostWhileDialling(cfg: Config, dsn: Dsns.Dsn, fd: int): State {
    EmptySlots();
    ContextGone(LostConnection(Dropped(Severed(cfg, dsn, fd), false), Luck(false, 0, 0, 0)), 0)
  }

  lemma {:induction false} EmptySlots()
    ensures TableOk(InitialState().table) && StartId(InitialState().table) == 0
    ensures Distinct(InitialState().watches) && |InitialState().watches| == WATCH_COUNT
  {
  }

  lemma {:induction false} InitialInv(cfg: Config)
    ensures Inv(cfg, InitialState()) && AtRest(InitialState())
  {
    var i := InitialState();
    EmptySlots();
    NewClientInv(cfg, i.table, i.watches);
  }

  lemma {:induction false} SeveredInv(cfg: Config, dsn: Dsns.Dsn, fd: int)
    ensures var w := Severed(cfg, dsn, fd);
            && Inv(cfg, w) && w.userData == Context(0) && |w.contexts| == 1 && PhaseOf(w.history, 0) == Dialled(None)
            && w.table == InitialState().table && !w.reconnecting && w.delay == RECONNECT_BASE
  {
    InitialInv(cfg);
    var calls := FirstDial(cfg.clientId, dsn);
    DialledByInv(cfg, InitialState(), calls, fd);
    hide Inv, EvolvesPast, Undisturbed, SocketReady, Reading;
    WokenInv(cfg, DialledBy(InitialState(), calls, fd), 7);
  }

  lemma {:induction false} LostWhileDiallingInv(cfg: Config, dsn: Dsns.Dsn, fd: int)
    ensures Inv(cfg, LostWhileDialling(cfg, dsn, fd))
    ensures ConnectSpec(cfg, 0, Err(ConnectionTimeout), LostWhileDialling(cfg, dsn, fd))
  {
    EmptySlots();
    SeveredInv(cfg, dsn, fd);
    hide Inv, EvolvesPast, Undisturbed, Severed;
    var w, luck := Severed(cfg, dsn, fd), Luck(false, 0, 0, 0);
    DroppedInv(cfg, w, false);
    LostConnectionInv(cfg, Dropped(w, false), luck);
    var l := LostConnection(Dropped(w, false), luck);
    ContextGoneInv(cfg, l, 0);
    var e := DelayArmed(NextTicket(w.table), 0);
    Unrelated(w.history, e);
    Unrelated(Then(w.history, e), SessionReset);
    EndsEarly(cfg, 0, Err(ConnectionTimeout), ContextGone(l, 0));
  }

  lemma {:induction false} LostWhileDiallingSlot(cfg: Config, dsn: Dsns.Dsn, fd: int)
    ensures var s := LostWhileDialling(cfg, dsn, fd);
            && TableOk(s.table) && s.reconnectId == 0 && s.table.timers[0] == Timer(0, ReconnectTimer) && s.table.clock == 0
            && !s.connected && s.reconnecting && s.session == None && AtRest(s) && s.marks.disciplined
  {
    EmptySlots();
    Starting(InitialState().table, 0, 0, ReconnectTimer);
  }

  /** By the rules, a new client gets to where an unanswered dial ends the reconnecting without a session. */
  lemma {:induction false} UnansweredDialIsReachable(cfg: Config, dsn: Dsns.Dsn, fd: int)
    ensures TableOk(LostWhileDialling(cfg, dsn, fd).table) && 0 <= LostWhileDialling(cfg, dsn, fd).reconnectId < TIMER_COUNT
    ensures var s := AttemptBegun(LostWhileDialling(cfg, dsn, fd));
            && Inv(cfg, s) && s.marks.disciplined && s.marks.onStack && !s.marks.onMisc && s.marks.open == []
            && !s.userData.Context? && !s.connected && s.session == None
  {
    var l := LostWhileDialling(cfg, dsn, fd);
    LostWhileDiallingInv(cfg, dsn, fd);
    LostWhileDiallingSlot(cfg, dsn, fd);
    hide Inv, LostWhileDialling;
    TimerFiredInv(cfg, l, 0, 0);
  }

  // ----- a disconnect that ends the attempts but not the reconnecting

  lemma {:induction false} SoundTables(cfg: Config, dsn: Dsns.Dsn, fd: int)
    ensures TableOk(LostWhileDialling(cfg, dsn, fd).table) && 0 <= LostWhileDialling(cfg, dsn, fd).reconnectId < TIMER_COUNT
    ensures TableOk(DialInVain(AttemptBegun(LostWhileDialling(cfg, dsn, fd)), fd, None).table)
  {
    UnansweredDialIsReachable(cfg, dsn, fd);
    hide Inv, LostWhileDialling, AttemptBegun, DialInVain;
    var s := AttemptBegun(LostWhileDialling(cfg, dsn, fd));
    DialInVainInv(cfg, s, fd, None);
    TableIsOk(cfg, DialInVain(s, fd, None));
  }

  /** That attempt has failed, and the next one is pending. */
  ghost function PendingAttempt(cfg: Config, dsn: Dsns.Dsn, fd: int): State {
    SoundTables(cfg, dsn, fd);
    AttemptFailed(DialInVain(AttemptBegun(LostWhileDialling(cfg, dsn, fd)), fd, None), 0, 0)
  }

  /** A disconnect by the user now stops the timer, and the client goes on reconnecting with no timer to end it. */
  lemma {:induction false} DisconnectStopsAttempts(cfg: Config, dsn: Dsns.Dsn, fd: int, rc: int, closed: bool)
    ensures var p := PendingAttempt(cfg, dsn, fd);
            && Inv(cfg, p) && AtRest(p) && p.marks.disciplined && p.connected && p.reconnecting
            && TableOk(p.table) && Holds(p.table, p.reconnectId, ReconnectTimer)
            && Inv(cfg, Disconnected(UserSteps(p), rc, closed)) && Disconnected(UserSteps(p), rc, closed).reconnecting
            && SlotsOf(Disconnected(UserSteps(p), rc, closed).table, ReconnectTimer) == {}
  {
    var p := PendingAttempt(cfg, dsn, fd);
    UnansweredDialIsReachable(cfg, dsn, fd);
    UnansweredDialEndsReconnecting(cfg, AttemptBegun(LostWhileDialling(cfg, dsn, fd)), fd, None);
    TableIsOk(cfg, p);
    hide Inv, AttemptSpec, EndsWithoutSession, PendingAttempt, TableOk, Cleared, Unwatch;
    UserStepsInv(cfg, p);
    DisconnectedInv(cfg, UserSteps(p), rc, closed);
    DisconnectSparesReconnect(cfg, UserSteps(p), rc, closed);
    TimersAreUnique(cfg, Disconnected(UserSteps(p), rc, closed));
    assert p.reconnectId !in SlotsOf(Disconnected(UserSteps(p), rc, closed).table, ReconnectTimer);
  }

  // ----- a handshake, step by step

  /**
   What lets a client in: the time its login is sent at and the payload that is published, the answer that the broker
   sends, and the session that is in it.
   */
  datatype Welcome = Welcome(time: int, wire: bytes, answer: bytes, session: SessionInformation)

  ghost predicate WelcomeOk(cfg: Config, w: Welcome) {
    && cfg.loginRequest.typeName.LoginRequest?
    && Carries(cfg, None, cfg.loginRequest, w.time, w.wire)
    && Judge(cfg, LoginResponse, cfg.hashedPassword, w.answer).Good?
    && Judge(cfg, LoginResponse, cfg.hashedPassword, w.answer).content.loginStatus == 0
    && Judge(cfg, LoginResponse, cfg.hashedPassword, w.answer).content.session == w.session
  }

  /** The raw-message callback has been called, and did nothing. */
  ghost function Overheard(s: State, payload: bytes): State { Log(s, RawSeen(payload)) }

  /** connect up to its accepted acknowledgement. */
  ghost function Greeted(s: State, calls: seq<(LibraryCall, int)>, fd: int): State {
    Adopted(Acknowledged(Woken(DialledBy(s, calls, fd)), |s.contexts|, 0))
  }

  /** The own topic joined, and the login request out and waiting. */
  ghost function Asked(cfg: Config, s: State, w: Welcome, frame: nat): State {
    RequestOpened(PublishedTo(Timed(Subscribed(s, frame, JoinOwn(0)), w.time), cfg.loginRequest, w.wire, Some(frame), 0),
                  LoginResponse, cfg.hashedPassword)
  }

  ghost function AnsweredWell(cfg: Config, s: State, w: Welcome, request: nat): State
    requires request < |s.requests|
  {
    Answered(cfg, Overheard(Woken(s), w.answer), request, w.answer).(expected := None)
  }

  /** The login answered by nothing but its response, and accepted. */
  ghost function LetIn(cfg: Config, s: State, w: Welcome, frame: nat, request: nat): State
    requires request < |s.requests|
  {
    SessionOpened(AnsweredWell(cfg, s, w, request), frame, Grant(w.session, request, w.answer))
  }

  /** A whole connect in which nothing else happens; `rc` is what the library says to the events topic. */
  ghost function Handshaken(cfg: Config, s: State, w: Welcome, calls: seq<(LibraryCall, int)>, fd: int, rc: int): State {
    var f, i := |s.contexts|, |s.requests|;
    Subscribed(LetIn(cfg, Asked(cfg, Greeted(s, calls, fd), w, f), w, f, i), f, JoinEvents(rc))
  }

  /** What a handshake leaves as it was. */
  ghost predicate Untouched(s: State, t: State) {
    && t.table == s.table && t.reconnectId == s.reconnectId && t.miscId == s.miscId && t.reconnecting == s.reconnecting
    && t.queue == s.queue && t.subscriptions == s.subscriptions && t.marks.open == s.marks.open
    && t.marks.onStack == s.marks.onStack && t.marks.onMisc == s.marks.onMisc && t.marks.disciplined == s.marks.disciplined
    && DispatchesOf(t.history) == DispatchesOf(s.history)
    && t.reentries == s.reentries
    && forall who :: SeenBy(t.history, who) == SeenBy(s.history, who)
  }

  lemma {:induction false} DialledFields(s: State, calls: seq<(LibraryCall, int)>, fd: int)
    ensures var t := DialledBy(s, calls, fd);
            && t.requests == s.requests && t.connected && t.marks.linkUp && t.socket == fd
            && t.watches == Watch(s.watches, fd, ClientHandler) && t.marks.room == RoomToWatch(s.watches, fd)
            && t.table == s.table && t.reconnectId == s.reconnectId && t.miscId == s.miscId && t.reconnecting == s.reconnecting
            && t.queue == s.queue && t.subscriptions == s.subscriptions && t.marks.open == s.marks.open
            && t.marks.onStack == s.marks.onStack && t.marks.onMisc == s.marks.onMisc
            && t.marks.disciplined == s.marks.disciplined && t.reentries == s.reentries
            && t.session == s.session && t.marks.ready == s.marks.ready
            && t.history == Then(Recorded(s, calls).history, Handshake(|s.contexts|, Dial(0)))
  {
  }

  lemma {:induction false} DialledUntouched(cfg: Config, s: State, calls: seq<(LibraryCall, int)>, fd: int)
    requires Inv(cfg, s)
    ensures Untouched(s, DialledBy(s, calls, fd)) && SessionUndisturbed(s.history, DialledBy(s, calls, fd).history)
  {
    hide Inv, EvolvesPast, DialledBy, Watch, RoomToWatch;
    DialledFields(s, calls, fd);
    RecordedNoted(cfg, s, calls);
    PlainEvents(Recorded(s, calls).history, Handshake(|s.contexts|, Dial(0)));
  }

  lemma {:induction false} GreetedInv(cfg: Config, s: State, calls: seq<(LibraryCall, int)>, fd: int)
    requires Inv(cfg, s) && (s.marks.disciplined && s.reconnecting ==> s.marks.onStack)
    ensures var t := Greeted(s, calls, fd);
            && Inv(cfg, t) && PhaseOf(t.history, |s.contexts|) == Dialled(Some(0)) && t.userData == Self
            && |t.contexts| == |s.contexts| + 1 && t.requests == s.requests && t.connected && t.marks.linkUp
            && t.watches == Watch(s.watches, fd, ClientHandler) && t.marks.room == RoomToWatch(s.watches, fd)
            && Untouched(s, t) && t.session == s.session && t.marks.ready == s.marks.ready
            && SessionUndisturbed(s.history, t.history)
  {
    hide Inv, EvolvesPast, Undisturbed, Watch, RoomToWatch, DialledBy, SocketReady, Reading;
    var f, d := |s.contexts|, DialledBy(s, calls, fd);
    DialledByInv(cfg, s, calls, fd);
    DialledFields(s, calls, fd);
    DialledUntouched(cfg, s, calls, fd);
    WokenInv(cfg, d, 0);
    AcknowledgedInv(cfg, Woken(d), 0);
    AdoptedInv(cfg, Acknowledged(Woken(d), f, 0), f);
    PlainEvents(Woken(d).history, Handshake(f, Connack(0)));
    UndisturbedFurther(s.history, d.history, Woken(d).history);
  }

  lemma {:induction false} AskedInv(cfg: Config, s: State, w: Welcome, frame: nat)
    requires Inv(cfg, s) && WelcomeOk(cfg, w) && s.userData == Self && frame < |s.contexts| && s.connected && s.marks.linkUp
    requires PhaseOf(s.history, frame) == Dialled(Some(0))
    ensures var t := Asked(cfg, s, w, frame);
            && Inv(cfg, t) && PhaseOf(t.history, frame) == LoginSent(|s.requests|) && t.userData == Self
            && t.contexts == s.contexts && |t.requests| == |s.requests| + 1 && t.expected == Some(|s.requests|)
            && t.requests[|s.requests|].typeName == LoginResponse && t.requests[|s.requests|].key == cfg.hashedPassword
            && ResponsesTo(t.history, |s.requests|) == []
            && t.connected && t.marks.linkUp && t.marks.room == s.marks.room && Untouched(s, t)
  {
    hide Inv, EvolvesPast, Judge;
    var j := Subscribed(s, frame, JoinOwn(0));
    SubscribedInv(cfg, s, frame, JoinOwn(0));
    var n := Timed(j, w.time);
    Note(cfg, j, Library(ReadTime, w.time));
    var p := PublishedTo(n, cfg.loginRequest, w.wire, Some(frame), 0);
    PublishedInv(cfg, n, cfg.loginRequest, w.time, w.wire, Some(frame), 0);
    RequestOpenedInv(cfg, p, LoginResponse, cfg.hashedPassword);
    PlainEvents(s.history, Handshake(frame, JoinOwn(0)));
    PlainEvents(n.history, Published(cfg.loginRequest, w.wire));
    PlainEvents(Then(n.history, Published(cfg.loginRequest, w.wire)), Handshake(frame, LoginPublish(0, |s.requests|)));
  }

  /** The answer is read: the handler is called, and the raw-message callback sees the payload. */
  lemma {:induction false} ReadInv(cfg: Config, s: State, payload: bytes)
    requires Inv(cfg, s)
    ensures var t := Overheard(Woken(s), payload);
            && Inv(cfg, t) && t.requests == s.requests && t.expected == s.expected && t.session == s.session
            && (forall f :: PhaseOf(t.history, f) == PhaseOf(s.history, f))
            && (forall i :: ResponsesTo(t.history, i) == ResponsesTo(s.history, i))
            && t.userData == s.userData && t.contexts == s.contexts && t.connected == s.connected
            && t.marks == s.marks && Untouched(s, t)
  {
    hide Inv, EvolvesPast, SocketReady, Reading;
    WokenInv(cfg, s, 0);
    Note(cfg, Woken(s), RawSeen(payload));
  }

  lemma {:induction false} AnsweredWellInv(cfg: Config, s: State, w: Welcome, request: nat)
    requires Inv(cfg, s) && WelcomeOk(cfg, w) && request < |s.requests| && s.expected == Some(request)
    requires s.requests[request].typeName == LoginResponse && s.requests[request].key == cfg.hashedPassword
    requires ResponsesTo(s.history, request) == []
    ensures var t := AnsweredWell(cfg, s, w, request);
            && Inv(cfg, t) && Granted(cfg, t.history, Grant(w.session, request, w.answer))
            && (forall f :: PhaseOf(t.history, f) == PhaseOf(s.history, f))
            && t.userData == s.userData && t.contexts == s.contexts && t.connected == s.connected
            && t.marks == s.marks && Untouched(s, t)
  {
    var o := Overheard(Woken(s), w.answer);
    ReadInv(cfg, s, w.answer);
    AnsweredOnce(cfg, o, w, request);
    hide Inv, EvolvesPast, Judge, Outcome, Granted, WelcomeOk, Overheard, Woken;
    AnsweredInv(cfg, o, request, w.answer);
    NoLongerWaiting(cfg, Answered(cfg, o, request, w.answer));
    PlainEvents(o.history, Response(request, w.answer));
  }

  lemma OpenedSpec(cfg: Config, s: State, frame: nat, grant: Grant)
    requires PhaseOf(s.history, frame) == LoginSent(grant.request) && Granted(cfg, s.history, grant)
    requires LoginOnWire(cfg, s.history, frame, grant.request)
    ensures LoggedInSpec(cfg, frame, SessionOpened(s, frame, grant))
  {
  }

  lemma {:induction false} LetInInv(cfg: Config, s: State, w: Welcome, frame: nat, request: nat)
    requires Inv(cfg, s) && WelcomeOk(cfg, w) && s.userData == Self && frame < |s.contexts| && request < |s.requests|
    requires PhaseOf(s.history, frame) == LoginSent(request) && s.expected == Some(request)
    requires s.requests[request].typeName == LoginResponse && s.requests[request].key == cfg.hashedPassword
    requires ResponsesTo(s.history, request) == []
    ensures var t := LetIn(cfg, s, w, frame, request);
            && Inv(cfg, t) && LoggedInSpec(cfg, frame, t) && t.session == Some(w.session) && t.userData == Self
            && t.contexts == s.contexts && t.connected == s.connected && t.marks.linkUp == s.marks.linkUp
            && t.marks.room == s.marks.room && Untouched(s, t)
  {
    var q, g := AnsweredWell(cfg, s, w, request), Grant(w.session, request, w.answer);
    hide Inv, EvolvesPast, WelcomeOk, AnsweredWell, Granted, LoggedInSpec;
    AnsweredWellInv(cfg, s, w, request);
    SessionOpenedInv(cfg, q, frame, g);
    OnWireWhenSent(cfg, q, frame, request);
    OpenedSpec(cfg, q, frame, g);
    PlainEvents(q.history, Handshake(frame, LoginAccept(g)));
  }

  lemma {:induction false} NoLongerWaiting(cfg: Config, s: State)
    requires Inv(cfg, s)
    ensures Inv(cfg, s.(expected := None))
  {
    Unrecorded(cfg, s, s.(expected := None));
    SameLink(s, s.(expected := None));
  }

  /** One good answer is a successful outcome. */
  lemma {:induction false} AnsweredOnce(cfg: Config, s: State, w: Welcome, request: nat)
    requires request < |s.requests| && ResponsesTo(s.history, request) == [] && WelcomeOk(cfg, w)
    ensures var h := Answered(cfg, s, request, w.answer).history;
            && Granted(cfg, h, Grant(w.session, request, w.answer))
            && forall f :: PhaseOf(h, f) == PhaseOf(s.history, f)
  {
    var ps := [w.answer];
    assert ResponsesTo(Answered(cfg, s, request, w.answer).history, request) == ps;
    assert LastBad(cfg, LoginResponse, cfg.hashedPassword, []) == None && ps[..0] == [];
    assert LastBad(cfg, LoginResponse, cfg.hashedPassword, ps) == None;
  }

  lemma {:induction false} EventsJoinedInv(cfg: Config, s: State, frame: nat, rc: int)
    requires Inv(cfg, s) && LoggedInSpec(cfg, frame, s) && s.userData == Self && frame < |s.contexts|
    requires s.connected && s.marks.linkUp
    ensures var t := Subscribed(s, frame, JoinEvents(rc));
            && Inv(cfg, t) && ConnectSpec(cfg, frame, if rc == 0 then Ok else Err(Transport), t)
            && EventsRefused(PhaseOf(t.history, frame)) == (rc != 0)
            && t.session == s.session && t.connected && t.marks.linkUp && t.marks.room == s.marks.room && Untouched(s, t)
  {
    hide Inv, EvolvesPast, Granted, LoginOnWire;
    SubscribedInv(cfg, s, frame, JoinEvents(rc));
    JoinedOrNot(cfg, frame, rc, s);
    PlainEvents(s.history, Handshake(frame, JoinEvents(rc)));
  }

  /** What the events topic says, before the broker is left for it. */
  lemma JoinedOrNot(cfg: Config, frame: nat, rc: int, s: State)
    requires LoggedInSpec(cfg, frame, s)
    ensures ConnectSpec(cfg, frame, if rc == 0 then Ok else Err(Transport), Subscribed(s, frame, JoinEvents(rc)))
    ensures EventsRefused(PhaseOf(Subscribed(s, frame, JoinEvents(rc)).history, frame)) == (rc != 0)
  {
  }

  lemma UntouchedTransitive(a: State, b: State, c: State)
    requires Untouched(a, b) && Untouched(b, c)
    ensures Untouched(a, c)
  {
  }

  /** From an unconnected client to a session, and to a connection if the events topic is granted. */
  lemma {:induction false} HandshakenInv(cfg: Config, s: State, w: Welcome, calls: seq<(LibraryCall, int)>, fd: int, rc: int)
    requires Inv(cfg, s) && WelcomeOk(cfg, w) && (s.marks.disciplined && s.reconnecting ==> s.marks.onStack)
    ensures var t := Handshaken(cfg, s, w, calls, fd, rc);
            && Inv(cfg, t) && ConnectSpec(cfg, |s.contexts|, if rc == 0 then Ok else Err(Transport), t)
            && EventsRefused(PhaseOf(t.history, |s.contexts|)) == (rc != 0)
            && t.session == Some(w.session) && t.connected && t.marks.linkUp
            && t.marks.room == RoomToWatch(s.watches, fd) && t.userData == Self && Untouched(s, t)
  {
    hide RoomToWatch, Watch;
    hide Inv, WelcomeOk, Untouched, Greeted, Asked, LetIn, LoggedInSpec, ConnectSpec;
    var f, i := |s.contexts|, |s.requests|;
    var g := Greeted(s, calls, fd);
    GreetedInv(cfg, s, calls, fd);
    var a := Asked(cfg, g, w, f);
    AskedInv(cfg, g, w, f);
    UntouchedTransitive(s, g, a);
    var l := LetIn(cfg, a, w, f, i);
    LetInInv(cfg, a, w, f, i);
    UntouchedTransitive(s, a, l);
    EventsJoinedInv(cfg, l, f, rc);
    UntouchedTransitive(s, l, Subscribed(l, f, JoinEvents(rc)));
  }

  // ----- a session without a connection

  /** A new client's connect gets as far as the events topic, is refused there, and leaves the broker. */
  ghost function RefusedAtEvents(cfg: Config, dsn: Dsns.Dsn, w: Welcome, fd: int, left: int, closed: bool): State {
    Abandoned(Handshaken(cfg, InitialState(), w, FirstDial(cfg.clientId, dsn), fd, 1), left, closed)
  }

  /** A connect, of a client that is not connected, that is refused at its own topic and leaves the broker. */
  ghost function RefusedAtOwn(s: State, calls: seq<(LibraryCall, int)>, fd: int, left: int, closed: bool): State {
    Abandoned(Subscribed(Greeted(s, calls, fd), |s.contexts|, JoinOwn(1)), left, closed)
  }

  /** The session outlives the connection, and the next failed connect, too. */
  lemma {:induction false} SessionOutlivesConnection(cfg: Config, dsn: Dsns.Dsn, w: Welcome,
                                                     fd: int, left: int, closed: bool)
    requires WelcomeOk(cfg, w)
    ensures var s := RefusedAtEvents(cfg, dsn, w, fd, left, closed);
            && Inv(cfg, s) && ConnectSpec(cfg, 0, Err(Transport), s) && EventsRefused(PhaseOf(s.history, 0))
            && !s.connected && s.session == Some(w.session)
    ensures var s := RefusedAtEvents(cfg, dsn, w, fd, left, closed);
            var f, t := |s.contexts|, RefusedAtOwn(s, DIAL_AGAIN, fd, left, closed);
            && Inv(cfg, t) && ConnectSpec(cfg, f, Err(Transport), t) && PhaseOf(t.history, f) == Halted(JoinOwn(1))
            && !t.connected && t.session == Some(w.session) && OpenElsewhere(s.history, t.history, f)
  {
    hide Inv, Handshaken, ConnectSpec, EvolvesPast, WelcomeOk, RefusedAtOwn, OpenElsewhere, RoomToWatch;
    InitialInv(cfg);
    var calls := FirstDial(cfg.clientId, dsn);
    HandshakenInv(cfg, InitialState(), w, calls, fd, 1);
    var e := Handshaken(cfg, InitialState(), w, calls, fd, 1);
    var s := RefusedAtEvents(cfg, dsn, w, fd, left, closed);
    AbandonedInv(cfg, e, left, closed);
    StaysAbandoned(cfg, 0, e, left, closed);
    RefusedAgain(cfg, s, fd, left, closed);
  }

  lemma StaysAbandoned(cfg: Config, frame: nat, s: State, left: int, closed: bool)
    requires ConnectSpec(cfg, frame, Err(Transport), s)
    ensures ConnectSpec(cfg, frame, Err(Transport), Abandoned(s, left, closed))
    ensures PhaseOf(Abandoned(s, left, closed).history, frame) == PhaseOf(s.history, frame)
  {
    ConnectSpecKept(cfg, frame, Err(Transport), s, Abandoned(s, left, closed), Library(LeaveBroker, left));
  }

  /** With a session left over, a connect that is refused at its own topic leaves it open again. */
  lemma {:induction false} RefusedAgain(cfg: Config, s: State, fd: int, left: int, closed: bool)
    requires Inv(cfg, s) && !s.reconnecting && s.session.Some?
    ensures var f, t := |s.contexts|, RefusedAtOwn(s, DIAL_AGAIN, fd, left, closed);
            && Inv(cfg, t) && ConnectSpec(cfg, f, Err(Transport), t) && PhaseOf(t.history, f) == Halted(JoinOwn(1))
            && !t.connected && t.session == s.session && OpenElsewhere(s.history, t.history, f)
  {
    var f, g := |s.contexts|, Greeted(s, DIAL_AGAIN, fd);
    hide Inv, ConnectSpec, EvolvesPast, Greeted, OpenElsewhere, Watch, RoomToWatch;
    GreetedInv(cfg, s, DIAL_AGAIN, fd);
    var j := Subscribed(g, f, JoinOwn(1));
    SubscribedInv(cfg, g, f, JoinOwn(1));
    AbandonedInv(cfg, j, left, closed);
    RefusedThere(cfg, f, g);
    StaysAbandoned(cfg, f, j, left, closed);
    LeftOpen(cfg, s, g, Abandoned(j, left, closed), Handshake(f, JoinOwn(1)), Library(LeaveBroker, left), f);
  }

  lemma {:induction false} RefusedThere(cfg: Config, frame: nat, s: State)
    requires PhaseOf(s.history, frame) == Dialled(Some(0))
    ensures var t := Subscribed(s, frame, JoinOwn(1));
            ConnectSpec(cfg, frame, Err(Transport), t) && PhaseOf(t.history, frame) == Halted(JoinOwn(1))
  {
    EndsEarly(cfg, frame, Err(Transport), Subscribed(s, frame, JoinOwn(1)));
  }

  lemma {:induction false} Untouching(h0: History, h: History)
    requires SessionUndisturbed(h0, h)
    ensures LastTouch(h0, h) == None
  {
    if h == h0 {
    } else {
      Untouching(h0, h.before);
    }
  }

  /** A session that nothing touches stays open. */
  lemma {:induction false} LeftOpen(cfg: Config, s: State, g: State, t: State, e: Event, f: Event, frame: nat)
    requires Inv(cfg, s) && s.session.Some? && SessionUndisturbed(s.history, g.history)
    requires t.history == Then(Then(g.history, e), f) && !TouchesSession(e) && !TouchesSession(f)
    ensures OpenElsewhere(s.history, t.history, frame)
  {
    Untouching(s.history, t.history);
  }

  // ----- a stale timer id

  /** A new client connects and counts as ready: its misc timer is in the first slot. */
  ghost function ConnectedClient(cfg: Config, dsn: Dsns.Dsn, w: Welcome, fd: int): State
    requires WelcomeOk(cfg, w)
  {
    InitialInv(cfg);
    HandshakenInv(cfg, InitialState(), w, FirstDial(cfg.clientId, dsn), fd, 0);
    Ready(MiscScheduled(Handshaken(cfg, InitialState(), w, FirstDial(cfg.clientId, dsn), fd, 0), 0), true)
  }

  lemma {:induction false} ConnectedClientInv(cfg: Config, dsn: Dsns.Dsn, w: Welcome, fd: int)
    requires WelcomeOk(cfg, w)
    ensures var s := ConnectedClient(cfg, dsn, w, fd);
            && Inv(cfg, s) && AtRest(s) && s.marks.open == [] && s.marks.disciplined && s.marks.linkUp
            && s.connected && !s.reconnecting && s.session == Some(w.session) && s.queue == [] && s.subscriptions == []
            && DispatchesOf(s.history) == []
            && TableOk(s.table) && s.miscId == 0 && s.table.clock == 0
            && s.table.timers[0] == Timer(NANOS_PER_SECOND, MiscTimer)
            && forall who :: SeenBy(s.history, who) == []
  {
    InitialInv(cfg);
    NothingDispatchedYet();
    hide Inv, Handshaken, ConnectSpec, EvolvesPast, WelcomeOk, MiscScheduled, Ready;
    var i, m := InitialState(), Handshaken(cfg, InitialState(), w, FirstDial(cfg.clientId, dsn), fd, 0);
    HandshakenInv(cfg, i, w, FirstDial(cfg.clientId, dsn), fd, 0);
    assert Untouched(i, m);
    MadeReady(cfg, m);
  }

  lemma {:induction false} NothingDispatchedYet()
    ensures DispatchesOf(InitialState().history) == [] && forall who :: SeenBy(InitialState().history, who) == []
  {
  }

  lemma {:induction false} MadeReady(cfg: Config, m: State)
    requires Inv(cfg, m) && AtRest(m) && m.connected && !m.reconnecting
    requires m.table == InitialState().table && m.miscId == INVALID_TIMER
    ensures TableOk(m.table)
    ensures var s := Ready(MiscScheduled(m, 0), true);
            && Inv(cfg, s) && AtRest(s) && s.marks.disciplined == m.marks.disciplined && s.connected && !s.reconnecting
            && s.marks.linkUp == m.marks.linkUp && s.session == m.session && s.queue == m.queue
            && s.subscriptions == m.subscriptions && s.history == m.history
            && TableOk(s.table) && s.miscId == 0 && s.table.clock == 0
            && s.table.timers[0] == Timer(NANOS_PER_SECOND, MiscTimer)
  {
    hide Inv;
    FirstSlotTaken(m);
    hide TableOk, Cancelled, Started;
    MiscScheduledInv(cfg, m, 0);
    ReadyInv(cfg, MiscScheduled(m, 0), true);
  }

  lemma {:induction false} FirstSlotTaken(s: State)
    requires s.table == InitialState().table && s.miscId == INVALID_TIMER
    ensures TableOk(s.table) && TableOk(MiscScheduled(s, 0).table)
    ensures MiscScheduled(s, 0).miscId == 0 && MiscScheduled(s, 0).table.clock == 0
    ensures MiscScheduled(s, 0).table.timers[0] == Timer(NANOS_PER_SECOND, MiscTimer)
  {
    EmptySlots();
    Starting(s.table, 0, MISC_PERIOD, MiscTimer);
  }

  /** Its misc timer fires, a second later, and the library reports that the connection is gone. */
  ghost function DroppedByMisc(s: State): State
    requires TableOk(s.table) && s.table.timers[0].IsActive()
    requires s.table.timers[0].expiresAt <= s.table.clock + NANOS_PER_SECOND
  {
    ExpireOk(s.table, 0, NANOS_PER_SECOND);
    MiscDone(MiscHandled(Called(TimerFired(s, 0, NANOS_PER_SECOND), s.table.holder[0]), 1, Luck(false, 0, 0, 0)))
  }

  /** The reconnect timer takes the slot that the misc timer has just left, and the misc id still names it. */
  lemma {:induction false} DroppedByMiscInv(cfg: Config, s: State)
    requires Inv(cfg, s) && AtRest(s) && s.connected && !s.reconnecting && s.marks.linkUp
    requires TableOk(s.table) && s.miscId == 0 && s.table.timers[0].callback == MiscTimer
    requires s.table.timers[0].expiresAt <= s.table.clock + NANOS_PER_SECOND
    ensures var p := DroppedByMisc(s);
            && Inv(cfg, p) && AtRest(p) && p.reconnecting && !p.connected
            && TableOk(p.table) && Holds(p.table, 0, ReconnectTimer) && p.reconnectId == p.miscId == 0
  {
    var luck := Luck(false, 0, 0, 0);
    var c := Called(TimerFired(s, 0, NANOS_PER_SECOND), s.table.holder[0]);
    TimerFiredInv(cfg, s, 0, NANOS_PER_SECOND);
    ExpireOk(s.table, 0, NANOS_PER_SECOND);
    BoundPositive(RECONNECT_BASE, RECONNECT_FACTOR, RECONNECT_MAX, FailuresOf(c.history));
    DelayIs(cfg, c);
    Starting(c.table, 0, 0, ReconnectTimer);
    assert c.table.timers[0] == RELEASED;
    hide Inv, EvolvesPast, TableOk, Release, Started;
    var n := Log(c, Library(LibraryCall.LoopMisc, 1));
    NotedInv(cfg, c, Library(LibraryCall.LoopMisc, 1));
    DroppedInv(cfg, n, false);
    LostConnectionInv(cfg, Dropped(n, false), luck);
    MiscDoneInv(cfg, LostConnection(Dropped(n, false), luck));
  }

  lemma DelayIs(cfg: Config, s: State)
    requires Inv(cfg, s)
    ensures s.delay == ReconnectBound(FailuresOf(s.history))
  {
  }

  /** The client whose misc id has come to name its reconnect timer; then the user connects, against the rules. */
  ghost function StaleClient(cfg: Config, dsn: Dsns.Dsn, w: Welcome, fd: int): State
    requires WelcomeOk(cfg, w)
  {
    ConnectedClientInv(cfg, dsn, w, fd);
    UserSteps(DroppedByMisc(ConnectedClient(cfg, dsn, w, fd)))
  }

  lemma {:induction false} StaleClientInv(cfg: Config, dsn: Dsns.Dsn, w: Welcome, fd: int)
    requires WelcomeOk(cfg, w)
    ensures var p := StaleClient(cfg, dsn, w, fd);
            && Inv(cfg, p) && p.reconnecting && !p.connected && !p.marks.onStack && !p.marks.disciplined
            && TableOk(p.table) && Holds(p.table, 0, ReconnectTimer) && p.reconnectId == p.miscId == 0
  {
    var s := ConnectedClient(cfg, dsn, w, fd);
    ConnectedClientInv(cfg, dsn, w, fd);
    hide Inv, WelcomeOk, ConnectedClient, DroppedByMisc, TableOk, EvolvesPast;
    DroppedByMiscInv(cfg, s);
    UserStepsInv(cfg, DroppedByMisc(s));
  }

  /**
   That connect succeeds, and its last step stops the reconnect timer: the client goes on reconnecting with no timer
   to end it.
   */
  lemma {:induction false} StaleMiscIdMeetsReconnect(cfg: Config, dsn: Dsns.Dsn, w: Welcome, fd: int)
    requires WelcomeOk(cfg, w)
    ensures var p := StaleClient(cfg, dsn, w, fd);
            var mid := Handshaken(cfg, p, w, DIAL_AGAIN, fd, 0);
            && Inv(cfg, mid) && ConnectSpec(cfg, |p.contexts|, Ok, mid) && TableOk(mid.table)
            && Holds(mid.table, mid.reconnectId, ReconnectTimer) && mid.miscId == mid.reconnectId
            && MiscScheduled(mid, 0).reconnecting && !MiscScheduled(mid, 0).marks.onStack
            && SlotsOf(MiscScheduled(mid, 0).table, ReconnectTimer) == {}
  {
    hide Inv, Handshaken, ConnectSpec, EvolvesPast, WelcomeOk, StaleClient, TableOk;
    var p := StaleClient(cfg, dsn, w, fd);
    StaleClientInv(cfg, dsn, w, fd);
    HandshakenInv(cfg, p, w, DIAL_AGAIN, fd, 0);
    var mid := Handshaken(cfg, p, w, DIAL_AGAIN, fd, 0);
    assert Untouched(p, mid);
    MiscSparesReconnect(cfg, mid, 0);
  }

  // ----- a subscriber that overtakes another

  /** A request that a subscriber makes: what it sends, when, how it goes over the wire, and the answer it expects. */
  datatype Question = Question(message: Message, time: int, wire: bytes, name: TypeName)

  /** The subscriber calls sendRequest, whose wait calls the client's handler. */
  ghost function Asking(s: State, q: Question): State
    requires s.session.Some? && s.reentries > 0
  {
    Woken(RequestOpened(PublishedTo(Timed(s.(reentries := s.reentries - 1), q.time), q.message, q.wire, None, 0),
                        q.name, s.session.value.privateKey))
  }

  ghost predicate Askable(cfg: Config, s: State, q: Question) {
    s.connected && s.session.Some? && s.reentries > 0 && Carries(cfg, s.session, q.message, q.time, q.wire)
  }

  /**
   Two messages for the same two subscribers. The first subscriber asks for something while it handles the first
   message, its wait dispatches the second message to both of them, and ends without an answer.
   */
  ghost function Overtaken(s: State, m1: Message, m2: Message, q: Question, first: Subscriber, second: Subscriber): State
    requires |s.queue| >= 2 && s.marks.open == [] && s.session.Some? && s.reentries > 0
  {
    var inner := InnerDispatch(Asking(OuterTurn(s, m1, first), q), m2, first, second);
    BusClosed(HandedOver(BusClosed(inner).(expected := None), second))
  }

  /** The bus is called with the oldest message and calls the first subscriber. */
  ghost function OuterTurn(s: State, m: Message, first: Subscriber): State
    requires s.queue != []
  {
    HandedOver(BusOpened(Taken(s), m), first)
  }

  /** The bus is called with the oldest message and calls both subscribers. */
  ghost function InnerDispatch(s: State, m: Message, first: Subscriber, second: Subscriber): State
    requires s.queue != []
  {
    HandedOver(HandedOver(BusOpened(Taken(s), m), first), second)
  }

  /** Both messages wait for the bus, and both concern the same two subscribers. */
  ghost predicate TwoForTwo(cfg: Config, s: State, m1: Message, m2: Message, first: Subscriber, second: Subscriber) {
    && |s.queue| >= 2 && s.marks.open == [] && first != second
    && RouteOf(cfg.ownTopic, s.queue[0]) == ToBus(m1) && RouteOf(cfg.ownTopic, s.queue[1]) == ToBus(m2)
    && Audience(s.subscriptions, m1) == Audience(s.subscriptions, m2) == [first, second]
  }

  lemma {:induction false} OpenStep(cfg: Config, s: State, m: Message)
    requires Inv(cfg, s) && s.queue != [] && RouteOf(cfg.ownTopic, s.queue[0]) == ToBus(m)
    ensures var t := BusOpened(Taken(s), m);
            && Inv(cfg, t) && t.marks.open == s.marks.open + [|DispatchesOf(s.history)|]
            && DispatchesOf(t.history) == DispatchesOf(s.history) + [Dispatch(m, Audience(s.subscriptions, m), 0)]
            && t.queue == s.queue[1..] && t.subscriptions == s.subscriptions
            && t.connected == s.connected && t.session == s.session && t.reentries == s.reentries
            && forall who :: SeenBy(t.history, who) == SeenBy(s.history, who)
  {
    TakenInv(cfg, s);
    assert SubscriptionsOf(Taken(s).history) == s.subscriptions;
    assert forall who :: SeenBy(Taken(s).history, who) == SeenBy(s.history, who);
  }

  lemma {:induction false} HandStep(cfg: Config, s: State, who: Subscriber, k: nat)
    requires Inv(cfg, s) && s.marks.open != [] && s.marks.open[|s.marks.open| - 1] == k
    requires var ds := DispatchesOf(s.history);
             k < |ds| && ds[k].handed < |ds[k].audience| && ds[k].audience[ds[k].handed] == who
    ensures var t := HandedOver(s, who);
            && Inv(cfg, t) && DispatchesOf(t.history) == HandedOne(DispatchesOf(s.history), k)
            && t.marks.open == s.marks.open && t.queue == s.queue && t.subscriptions == s.subscriptions
            && t.connected == s.connected && t.session == s.session && t.reentries == s.reentries
            && forall w :: SeenBy(t.history, w) == SeenBy(s.history, w) + if w == who then [k] else []
  {
    HandedOverInv(cfg, s, who);
  }

  lemma {:induction false} OuterTurnInv(cfg: Config, s: State, m: Message, first: Subscriber, second: Subscriber)
    requires Inv(cfg, s) && s.queue != [] && s.marks.open == [] && first != second
    requires RouteOf(cfg.ownTopic, s.queue[0]) == ToBus(m) && Audience(s.subscriptions, m) == [first, second]
    ensures var k, t := |DispatchesOf(s.history)|, OuterTurn(s, m, first);
            && Inv(cfg, t) && t.marks.open == [k] && t.queue == s.queue[1..] && t.subscriptions == s.subscriptions
            && t.connected == s.connected && t.session == s.session && t.reentries == s.reentries
            && DispatchesOf(t.history) == DispatchesOf(s.history) + [Dispatch(m, [first, second], 1)]
            && SeenBy(t.history, second) == SeenBy(s.history, second)
  {
    hide Inv, Audience, Taken, BusOpened, HandedOver;
    OpenStep(cfg, s, m);
    HandStep(cfg, BusOpened(Taken(s), m), first, |DispatchesOf(s.history)|);
  }

  /** The request leaves the queue and the dispatches as they are. */
  lemma {:induction false} AskingInv(cfg: Config, s: State, q: Question)
    requires Inv(cfg, s) && Askable(cfg, s, q)
    ensures var t := Asking(s, q);
            && Inv(cfg, t) && t.marks == s.marks && t.queue == s.queue && t.subscriptions == s.subscriptions
            && DispatchesOf(t.history) == DispatchesOf(s.history)
            && forall who :: SeenBy(t.history, who) == SeenBy(s.history, who)
  {
    hide Inv, EvolvesPast, Carries, SocketReady, Reading;
    var a := s.(reentries := s.reentries - 1);
    var n := Timed(a, q.time);
    var p := PublishedTo(n, q.message, q.wire, None, 0);
    CallSpent(cfg, s);
    Note(cfg, a, Library(ReadTime, q.time));
    PublishedInv(cfg, n, q.message, q.time, q.wire, None, 0);
    RequestOpenedInv(cfg, p, q.name, s.session.value.privateKey);
    PlainEvents(n.history, Published(q.message, q.wire));
    WokenInv(cfg, RequestOpened(p, q.name, s.session.value.privateKey), 0);
  }

  lemma {:induction false} InnerDispatchInv(cfg: Config, s: State, m: Message, first: Subscriber, second: Subscriber)
    requires Inv(cfg, s) && s.queue != [] && first != second
    requires RouteOf(cfg.ownTopic, s.queue[0]) == ToBus(m) && Audience(s.subscriptions, m) == [first, second]
    ensures var k, t := |DispatchesOf(s.history)|, InnerDispatch(s, m, first, second);
            && Inv(cfg, t) && t.marks.open == s.marks.open + [k]
            && DispatchesOf(t.history) == DispatchesOf(s.history) + [Dispatch(m, [first, second], 2)]
            && SeenBy(t.history, second) == SeenBy(s.history, second) + [k]
  {
    hide Inv, Audience, Taken, BusOpened, HandedOver;
    var ds, k := DispatchesOf(s.history), |DispatchesOf(s.history)|;
    var b := BusOpened(Taken(s), m);
    OpenStep(cfg, s, m);
    HandStep(cfg, b, first, k);
    assert DispatchesOf(HandedOver(b, first).history) == ds + [Dispatch(m, [first, second], 1)];
    HandStep(cfg, HandedOver(b, first), second, k);
  }

  /** The inner dispatch and the wait are over, the second subscriber has its turn with the first message, and that is it. */
  lemma {:induction false} OuterEnds(cfg: Config, s: State, m1: Message, d2: Dispatch, k: nat,
                                     first: Subscriber, second: Subscriber)
    requires Inv(cfg, s) && s.marks.open == [k, k + 1] && |DispatchesOf(s.history)| == k + 2 && first != second
    requires DispatchesOf(s.history)[k] == Dispatch(m1, [first, second], 1)
    requires DispatchesOf(s.history)[k + 1] == d2 && d2.Done()
    ensures var t := BusClosed(HandedOver(BusClosed(s).(expected := None), second));
            Inv(cfg, t) && t.marks.open == [] && SeenBy(t.history, second) == SeenBy(s.history, second) + [k]
  {
    hide Inv, HandedOver;
    BusClosedInv(cfg, s);
    var c := BusClosed(s).(expected := None);
    NoLongerWaiting(cfg, BusClosed(s));
    HandStep(cfg, c, second, k);
    BusClosedInv(cfg, HandedOver(c, second));
  }

  /** The second subscriber is handed the second message before the first: it was overtaken. */
  lemma {:induction false} SubscriberOvertaken(cfg: Config, s: State, m1: Message, m2: Message, q: Question,
                                               first: Subscriber, second: Subscriber)
    requires Inv(cfg, s) && TwoForTwo(cfg, s, m1, m2, first, second) && Askable(cfg, s, q)
    ensures var t, k := Overtaken(s, m1, m2, q, first, second), |DispatchesOf(s.history)|;
            && Inv(cfg, t) && t.marks.open == []
            && SeenBy(t.history, second) == SeenBy(s.history, second) + [k + 1, k]
            && !NeverOvertaken(t.history, second)
  {
    hide Inv, OuterTurn, InnerDispatch, HandedOver, Audience, Asking;
    var k, o := |DispatchesOf(s.history)|, OuterTurn(s, m1, first);
    OuterTurnInv(cfg, s, m1, first, second);
    assert o.queue[0] == s.queue[1];
    var a := Asking(o, q);
    AskingInv(cfg, o, q);
    var i := InnerDispatch(a, m2, first, second);
    InnerDispatchInv(cfg, a, m2, first, second);
    OuterEnds(cfg, i, m1, Dispatch(m2, [first, second], 2), k, first, second);
    OutOfOrder(cfg, Overtaken(s, m1, m2, q, first, second), second, |SeenBy(s.history, second)|);
  }

  lemma {:induction false} OutOfOrder(cfg: Config, t: State, who: Subscriber, i: nat)
    requires Inv(cfg, t) && t.marks.open == []
    requires i + 1 < |SeenBy(t.history, who)| && SeenBy(t.history, who)[i] > SeenBy(t.history, who)[i + 1]
    ensures !NeverOvertaken(t.history, who)
  {
    SeenInOrder(t.history, who);
    InOrderSorted(DispatchesOf(t.history), who);
  }

  // ----- a sample run that gets there

  const HELLO: Content := Content([], 0, SessionInformation(0, false, [], [], ""), None)
  const SAMPLE_ID: ClientId := [0, 0, 0, 0, 0, 0]

  /** A broker whose every body parses to the same content. */
  function Sample(): Config {
    Config((key, input, i) => 0, (name, body) => Some(HELLO), SAMPLE_ID, "own", [], Message(LoginRequest, HELLO))
  }

  function OnTheWire(t: byte): bytes {
    Encoded(Envelope(t, 0, SAMPLE_ID, 4, STATUS_SUCCESS, []))
  }

  lemma {:induction false} Unwrapped(t: byte)
    ensures Decode(OnTheWire(t)) == Opened(Envelope(t, 0, SAMPLE_ID, 4, STATUS_SUCCESS, []))
  {
    DecodeEncoded(Envelope(t, 0, SAMPLE_ID, 4, STATUS_SUCCESS, []));
  }

  function SampleWelcome(): Welcome {
    Welcome(0, OnTheWire(LOGIN_REQUEST), OnTheWire(LOGIN_RESPONSE), HELLO.session)
  }

  lemma {:induction false} SampleWelcomeOk()
    ensures WelcomeOk(Sample(), SampleWelcome())
  {
    Unwrapped(LOGIN_REQUEST);
    Unwrapped(LOGIN_RESPONSE);
  }

  const NEWS: Message := Message(DevicesListResponse, HELLO)

  /** Two subscribers to the same type. */
  ghost function TwoSubscribed(s: State): State {
    SubscriptionMade(SubscriptionMade(s, Subscription(DEVICES_LIST_RESPONSE, 1)), Subscription(DEVICES_LIST_RESPONSE, 2))
  }

  lemma {:induction false} TwoSubscribedInv(cfg: Config, s: State)
    requires Inv(cfg, s) && s.marks.open == [] && s.subscriptions == []
    ensures var t := TwoSubscribed(s);
            && Inv(cfg, t) && t.session == s.session && t.queue == s.queue && t.marks == s.marks && t.connected == s.connected
            && Audience(t.subscriptions, NEWS) == [1, 2]
  {
    hide Inv, Audience;
    SubscriptionMadeInv(cfg, s, Subscription(DEVICES_LIST_RESPONSE, 1));
    var one := SubscriptionMade(s, Subscription(DEVICES_LIST_RESPONSE, 1));
    SubscriptionMadeInv(cfg, one, Subscription(DEVICES_LIST_RESPONSE, 2));
    SubscribedTwice(TwoSubscribed(s).subscriptions);
  }

  lemma {:induction false} SubscribedTwice(subscriptions: seq<Subscription>)
    requires subscriptions == [Subscription(DEVICES_LIST_RESPONSE, 1), Subscription(DEVICES_LIST_RESPONSE, 2)]
    ensures Audience(subscriptions, NEWS) == [1, 2]
  {
    var none: seq<Subscription>, a, b := [], Subscription(DEVICES_LIST_RESPONSE, 1), Subscription(DEVICES_LIST_RESPONSE, 2);
    assert subscriptions == none + [a] + [b];
    OneMore(none, a, DEVICES_LIST_RESPONSE);
    OneMore(none, a, UNKNOWN);
    OneMore(none + [a], b, DEVICES_LIST_RESPONSE);
    OneMore(none + [a], b, UNKNOWN);
  }

  /** A message of that type arrives on the events topic; the raw-message callback sees it first. */
  ghost function NewsArrived(s: State): (t: State)
    requires s.session.Some?
    ensures t.session == s.session
  {
    Unwrapped(DEVICES_LIST_RESPONSE);
    Filed(Sample(), Overheard(s, OnTheWire(DEVICES_LIST_RESPONSE)), EVENTS_TOPIC, OnTheWire(DEVICES_LIST_RESPONSE))
  }

  lemma {:induction false} NewsArrivedInv(s: State)
    requires Inv(Sample(), s) && s.session.Some?
    ensures var t := NewsArrived(s);
            && Inv(Sample(), t) && t.session == s.session && t.subscriptions == s.subscriptions && t.marks == s.marks
            && t.connected == s.connected && t.reentries == s.reentries && t.reconnecting == s.reconnecting
            && t.queue == s.queue + [QueuedMessage(EVENTS_TOPIC, DEVICES_LIST_RESPONSE, NEWS)]
            && Extends(s.history, t.history)
  {
    hide Inv, EvolvesPast, OnTheWire;
    var o := Overheard(s, OnTheWire(DEVICES_LIST_RESPONSE));
    Unwrapped(DEVICES_LIST_RESPONSE);
    NotedInv(Sample(), s, RawSeen(OnTheWire(DEVICES_LIST_RESPONSE)));
    FiledInv(Sample(), o, EVENTS_TOPIC, OnTheWire(DEVICES_LIST_RESPONSE));
    EvolvesExtends(s, o);
    EvolvesExtends(o, NewsArrived(s));
    ExtendsTransitive(s.history, o.history, NewsArrived(s).history);
  }

  /** The loop calls the handler; the user's callbacks are going to make one call. */
  ghost function Alerted(s: State): State { Woken(s.(reentries := 1)) }

  lemma {:induction false} AlertedInv(cfg: Config, s: State)
    requires Inv(cfg, s)
    ensures var t := Alerted(s);
            && Inv(cfg, t) && t.session == s.session && t.subscriptions == s.subscriptions && t.marks == s.marks
            && t.connected == s.connected && t.reconnecting == s.reconnecting && t.queue == s.queue && t.reentries == 1
  {
    hide Inv, EvolvesPast, SocketReady, Reading;
    CallsAllowed(cfg, s, 1);
    WokenInv(cfg, s.(reentries := 1), 0);
  }

  /** Two such messages in one batch. */
  ghost function TwoArrived(s: State): State
    requires s.session.Some?
  {
    NewsArrived(NewsArrived(Alerted(s)))
  }

  function SampleQuestion(): Question {
    Question(Message(DevicesListRequest, HELLO), 0, OnTheWire(DEVICES_LIST_REQUEST), DevicesListResponse)
  }

  lemma {:induction false} SampleAskable(s: State)
    requires s.connected && s.session.Some? && s.reentries > 0
    ensures Askable(Sample(), s, SampleQuestion())
  {
    Unwrapped(DEVICES_LIST_REQUEST);
  }

  lemma {:induction false} NewsForTwo(s: State)
    requires Inv(Sample(), s) && s.marks.open == [] && s.session.Some? && s.subscriptions == [] && s.queue == [] && s.connected
    ensures var t := TwoSubscribed(s);
            && t.session.Some? && Inv(Sample(), TwoArrived(t))
            && TwoForTwo(Sample(), TwoArrived(t), NEWS, NEWS, 1, 2) && Askable(Sample(), TwoArrived(t), SampleQuestion())
  {
    hide Inv, TwoSubscribed, NewsArrived, Audience, Askable, Alerted;
    var t := TwoSubscribed(s);
    TwoSubscribedInv(Sample(), s);
    AlertedInv(Sample(), t);
    NewsArrivedInv(Alerted(t));
    NewsArrivedInv(NewsArrived(Alerted(t)));
    SampleAskable(TwoArrived(t));
  }

  /** So a new client gets to where one subscriber overtakes another. */
  lemma {:induction false} OvertakingIsReachable(dsn: Dsns.Dsn, fd: int) returns (s: State)
    ensures WelcomeOk(Sample(), SampleWelcome())
    ensures s == TwoSubscribed(ConnectedClient(Sample(), dsn, SampleWelcome(), fd)) && s.session.Some?
    ensures Inv(Sample(), TwoArrived(s)) && TwoForTwo(Sample(), TwoArrived(s), NEWS, NEWS, 1, 2)
    ensures Askable(Sample(), TwoArrived(s), SampleQuestion())
  {
    hide *;
    SampleWelcomeOk();
    ConnectedClientInv(Sample(), dsn, SampleWelcome(), fd);
    s := TwoSubscribed(ConnectedClient(Sample(), dsn, SampleWelcome(), fd));
    NewsForTwo(ConnectedClient(Sample(), dsn, SampleWelcome(), fd));
  }

  // ----- a disconnect that does not last

  ghost function OneSubscribed(s: State): State { SubscriptionMade(s, Subscription(DEVICES_LIST_RESPONSE, 1)) }

  lemma {:induction false} SubscribedOnce(subscriptions: seq<Subscription>)
    requires subscriptions == [Subscription(DEVICES_LIST_RESPONSE, 1)]
    ensures Audience(subscriptions, NEWS) == [1]
  {
    var none: seq<Subscription> := [];
    assert subscriptions == none + [Subscription(DEVICES_LIST_RESPONSE, 1)];
    OneMore(none, Subscription(DEVICES_LIST_RESPONSE, 1), DEVICES_LIST_RESPONSE);
    OneMore(none, Subscription(DEVICES_LIST_RESPONSE, 1), UNKNOWN);
  }

  /** The one subscriber of the oldest message disconnects when it is handed the message; then the dispatch is over. */
  ghost function DisconnectsInside(s: State, m: Message, who: Subscriber, rc: int, closed: bool): State
    requires s.queue != [] && s.reentries > 0 && TableOk(s.table)
  {
    var h := OuterTurn(s, m, who);
    BusClosed(Disconnected(UserSteps(h.(reentries := h.reentries - 1)), rc, closed))
  }

  /** For one subscriber, one dispatch. */
  lemma {:induction false} HandedToOne(cfg: Config, s: State, m: Message, who: Subscriber)
    requires Inv(cfg, s) && s.queue != [] && s.marks.open == []
    requires RouteOf(cfg.ownTopic, s.queue[0]) == ToBus(m) && Audience(s.subscriptions, m) == [who]
    ensures var h, k := OuterTurn(s, m, who), |DispatchesOf(s.history)|;
            && Inv(cfg, h) && h.marks.open == [k]
            && DispatchesOf(h.history) == DispatchesOf(s.history) + [Dispatch(m, [who], 1)]
            && h.queue == s.queue[1..] && h.reentries == s.reentries && h.connected == s.connected
            && h.reconnecting == s.reconnecting && h.marks.disciplined == s.marks.disciplined
            && Extends(s.history, h.history)
  {
    TurnFlags(s, m, who);
    hide Inv, Audience, Taken, BusOpened, HandedOver;
    OpenStep(cfg, s, m);
    HandStep(cfg, BusOpened(Taken(s), m), who, |DispatchesOf(s.history)|);
  }

  lemma TurnFlags(s: State, m: Message, who: Subscriber)
    requires s.queue != []
    ensures OuterTurn(s, m, who).reconnecting == s.reconnecting
    ensures OuterTurn(s, m, who).marks.disciplined == s.marks.disciplined
    ensures Extends(s.history, OuterTurn(s, m, who).history)
  {
    assert Extends(s.history, Taken(s).history);
    assert Extends(s.history, BusOpened(Taken(s), m).history);
  }

  lemma {:induction false} DisconnectsInsideInv(cfg: Config, s: State, m: Message, who: Subscriber,
                                                rc: int, closed: bool)
    requires Inv(cfg, s) && TableOk(s.table) && s.marks.disciplined
    requires |s.queue| == 1 && s.marks.open == [] && s.reentries > 0 && s.connected && !s.reconnecting
    requires RouteOf(cfg.ownTopic, s.queue[0]) == ToBus(m) && Audience(s.subscriptions, m) == [who]
    ensures var mid := DisconnectsInside(s, m, who, rc, closed);
            && Inv(cfg, mid) && !mid.connected && !mid.reconnecting && mid.marks.disciplined && mid.queue == []
            && Extends(s.history, mid.history)
  {
    hide Inv, EvolvesPast, OuterTurn, Audience, Disconnected;
    var h := OuterTurn(s, m, who);
    HandedToOne(cfg, s, m, who);
    var a := h.(reentries := h.reentries - 1);
    CallSpent(cfg, h);
    UserStepsInv(cfg, a);
    TableIsOk(cfg, a);
    DisconnectedInv(cfg, UserSteps(a), rc, closed);
    DisconnectedFlags(UserSteps(a), rc, closed);
    EvolvesExtends(UserSteps(a), Disconnected(UserSteps(a), rc, closed));
    ExtendsTransitive(s.history, h.history, Disconnected(UserSteps(a), rc, closed).history);
    BusClosedInv(cfg, Disconnected(UserSteps(a), rc, closed));
  }

  lemma DisconnectedFlags(s: State, rc: int, closed: bool)
    requires TableOk(s.table)
    ensures var d := Disconnected(s, rc, closed);
            && !d.connected && d.reconnecting == s.reconnecting && d.marks.disciplined == s.marks.disciplined
            && d.queue == s.queue && d.marks.open == s.marks.open && DispatchesOf(d.history) == DispatchesOf(s.history)
  {
  }

  /** The loop has found the socket ready to be read and written; the user's callbacks are going to make one call. */
  ghost function Poised(s: State): State { SocketReady(OneSubscribed(s).(reentries := 1), true) }

  lemma {:induction false} PoisedInv(cfg: Config, c: State)
    requires Inv(cfg, c) && c.marks.open == [] && c.subscriptions == []
    ensures var s := Poised(c);
            && Inv(cfg, s) && s.session == c.session && s.marks == c.marks && s.connected == c.connected
            && s.reconnecting == c.reconnecting && s.queue == c.queue && s.reentries == 1
            && Audience(s.subscriptions, NEWS) == [1]
  {
    hide Inv, EvolvesPast, Audience, SocketReady;
    SubscriptionMadeInv(cfg, c, Subscription(DEVICES_LIST_RESPONSE, 1));
    SubscribedOnce(OneSubscribed(c).subscriptions);
    CallsAllowed(cfg, OneSubscribed(c), 1);
    SocketReadyInv(cfg, OneSubscribed(c).(reentries := 1), true);
  }

  /** The handler reads the news, its subscriber disconnects, and the write half of the same call fails. */
  lemma {:induction false} UndoneByWrite(c: State, rc: int, closed: bool) returns (mid: State, t: State)
    requires Inv(Sample(), c) && AtRest(c) && c.marks.disciplined && c.connected && !c.reconnecting
    requires c.session.Some? && c.queue == [] && c.subscriptions == []
    ensures Inv(Sample(), mid) && !mid.connected && !mid.reconnecting && mid.marks.disciplined && mid.queue == []
    ensures Extends(Reading(Poised(c), true, 0).history, mid.history)
    ensures TableOk(mid.table) && t == Wrote(mid, 1, Luck(false, 0, 0, 0))
    ensures Inv(Sample(), t) && t.reconnecting && t.marks.disciplined && Poised(c).connected
  {
    hide Inv, EvolvesPast, NewsArrived, DisconnectsInside, Audience, Wrote, Poised, Reading;
    var s := Poised(c);
    PoisedInv(Sample(), c);
    ReadingInv(Sample(), s, true, 0);
    var r := Reading(s, true, 0);
    var n := NewsArrived(r);
    NewsArrivedInv(r);
    TableIsOk(Sample(), n);
    mid := DisconnectsInside(n, NEWS, 1, rc, closed);
    DisconnectsInsideInv(Sample(), n, NEWS, 1, rc, closed);
    ExtendsTransitive(r.history, n.history, mid.history);
    t := LostAfter(Sample(), mid);
  }

  /**
   A new client connects and subscribes; the subscriber disconnects while the handler reads; and the write half of the
   same call of the handler fails, so the client is reconnecting, although the user kept to the rules.
   */
  lemma {:induction false} DisconnectComesUndone(dsn: Dsns.Dsn, fd: int, rc: int, closed: bool)
    returns (s: State, mid: State, t: State)
    ensures WelcomeOk(Sample(), SampleWelcome())
    ensures s == Poised(ConnectedClient(Sample(), dsn, SampleWelcome(), fd))
    ensures Inv(Sample(), mid) && !mid.connected && !mid.reconnecting && mid.marks.disciplined
    ensures SocketSpec(s, Handling(true, true, mid, 0, 1, Luck(false, 0, 0, 0)), t)
    ensures Inv(Sample(), t) && t.reconnecting && t.marks.disciplined
  {
    hide *;
    SampleWelcomeOk();
    ConnectedClientInv(Sample(), dsn, SampleWelcome(), fd);
    var c := ConnectedClient(Sample(), dsn, SampleWelcome(), fd);
    s := Poised(c);
    mid, t := UndoneByWrite(c, rc, closed);
    OneHandling(s, mid, t);
  }

  lemma OneHandling(s: State, mid: State, t: State)
    requires s.connected && mid.queue == [] && Extends(Reading(s, true, 0).history, mid.history)
    requires TableOk(mid.table) && t == Wrote(mid, 1, Luck(false, 0, 0, 0))
    ensures SocketSpec(s, Handling(true, true, mid, 0, 1, Luck(false, 0, 0, 0)), t)
  {
  }

  /** The write half of a handler then fails. */
  lemma {:induction false} LostAfter(cfg: Config, mid: State) returns (t: State)
    requires Inv(cfg, mid) && !mid.reconnecting
    ensures TableOk(mid.table) && t == Wrote(mid, 1, Luck(false, 0, 0, 0))
    ensures Inv(cfg, t) && t.reconnecting && t.marks.disciplined == mid.marks.disciplined
  {
    TableIsOk(cfg, mid);
    DelayIs(cfg, mid);
    BoundPositive(RECONNECT_BASE, RECONNECT_FACTOR, RECONNECT_MAX, FailuresOf(mid.history));
    var w := Log(mid, Library(LibraryCall.LoopWrite, 1));
    NotedInv(cfg, mid, Library(LibraryCall.LoopWrite, 1));
    DroppedInv(cfg, w, false);
    LostConnectionInv(cfg, Dropped(w, false), Luck(false, 0, 0, 0));
    t := Wrote(mid, 1, Luck(false, 0, 0, 0));
  }

  // ----- a connection that nobody watches

  /** A new client whose connects are refused at its own topic, each with another socket, so many times. */
  ghost function Refusals(cfg: Config, dsn: Dsns.Dsn, n: nat): State {
    if n == 0 then InitialState()
    else
      var calls := if n == 1 then FirstDial(cfg.clientId, dsn) else DIAL_AGAIN;
      RefusedAtOwn(Refusals(cfg, dsn, n - 1), calls, n - 1, 0, false)
  }

  lemma {:induction false} RefusedInv(cfg: Config, s: State, calls: seq<(LibraryCall, int)>, fd: int)
    requires Inv(cfg, s) && !s.reconnecting && s.marks.disciplined && AtRest(s)
    ensures var t := RefusedAtOwn(s, calls, fd, 0, false);
            && Inv(cfg, t) && AtRest(t) && !t.connected && !t.reconnecting && t.marks.disciplined
            && t.watches == Watch(s.watches, fd, ClientHandler)
  {
    var f, g := |s.contexts|, Greeted(s, calls, fd);
    GreetedInv(cfg, s, calls, fd);
    hide Inv, EvolvesPast, Greeted, Watch;
    SubscribedInv(cfg, g, f, JoinOwn(1));
    AbandonedInv(cfg, Subscribed(g, f, JoinOwn(1)), 0, false);
  }

  lemma {:induction false} WatchesOf(cfg: Config, s: State)
    requires Inv(cfg, s)
    ensures Distinct(s.watches) && |s.watches| == WATCH_COUNT
  {
  }

  /** With so many slots taken by its sockets, the client is at rest and down. */
  ghost predicate SlotsTaken(cfg: Config, s: State, n: nat) {
    && Inv(cfg, s) && AtRest(s) && !s.connected && !s.reconnecting && s.marks.disciplined
    && Distinct(s.watches) && |s.watches| == WATCH_COUNT && Few(s.watches, n)
  }

  ghost predicate Few(ws: seq<SocketWatch>, n: nat) {
    |LiveFds(ws)| == n && forall fd | fd in LiveFds(ws) :: 0 <= fd < n
  }

  lemma {:induction false} NoneTaken(cfg: Config)
    ensures SlotsTaken(cfg, InitialState(), 0)
  {
    InitialInv(cfg);
    EmptySlots();
    hide Inv;
    assert LiveFds(InitialState().watches) == {};
  }

  lemma {:induction false} OneMoreTaken(cfg: Config, s: State, calls: seq<(LibraryCall, int)>, n: nat)
    requires SlotsTaken(cfg, s, n) && n < WATCH_COUNT
    ensures SlotsTaken(cfg, RefusedAtOwn(s, calls, n, 0, false), n + 1)
  {
    hide Inv, RefusedAtOwn, Few, Distinct;
    RefusedInv(cfg, s, calls, n);
    WatchesOf(cfg, RefusedAtOwn(s, calls, n, 0, false));
    OneMoreLive(s.watches, n);
  }

  /** None of those sockets was unwatched when the client left the broker. */
  lemma {:induction false} EveryRefusalTakesASlot(cfg: Config, dsn: Dsns.Dsn, n: nat)
    requires n <= WATCH_COUNT
    ensures SlotsTaken(cfg, Refusals(cfg, dsn, n), n)
  {
    hide SlotsTaken, RefusedAtOwn;
    if n == 0 {
      NoneTaken(cfg);
    } else {
      EveryRefusalTakesASlot(cfg, dsn, n - 1);
      OneMoreTaken(cfg, Refusals(cfg, dsn, n - 1), if n == 1 then FirstDial(cfg.clientId, dsn) else DIAL_AGAIN, n - 1);
    }
  }

  lemma LiveAreKeys(ws: seq<SocketWatch>)
    ensures WatchMap(ws).Keys == LiveFds(ws)
  {
  }

  lemma {:induction false} OneMoreLive(ws: seq<SocketWatch>, n: nat)
    requires Distinct(ws) && Few(ws, n) && n < |ws|
    ensures Few(Watch(ws, n, ClientHandler), n + 1)
  {
    hide WatchMap, LiveFds, Watch, Distinct;
    LiveAreKeys(ws);
    LiveAreKeys(Watch(ws, n, ClientHandler));
    WatchRefinesMap(ws, n, ClientHandler);
    assert n !in LiveFds(ws) && LiveFds(ws) - {n} == LiveFds(ws);
    assert LiveFds(Watch(ws, n, ClientHandler)) == LiveFds(ws) + {n};
  }

  lemma {:induction false} NoRoom(ws: seq<SocketWatch>, n: nat)
    requires Few(ws, n) && |ws| == n
    ensures !RoomToWatch(ws, n)
  {
    hide LiveFds;
    assert LiveFds(ws) - {n} == LiveFds(ws);
  }

  /** With every slot taken by a socket of the past, a connect succeeds and its socket is not watched. */
  lemma {:induction false} ConnectedButUnwatched(cfg: Config, dsn: Dsns.Dsn, w: Welcome)
    requires WelcomeOk(cfg, w)
    ensures var t := Handshaken(cfg, Refusals(cfg, dsn, WATCH_COUNT), w, DIAL_AGAIN, WATCH_COUNT, 0);
            && Inv(cfg, t) && ConnectSpec(cfg, |Refusals(cfg, dsn, WATCH_COUNT).contexts|, Ok, t)
            && t.connected && t.marks.linkUp && t.marks.disciplined && t.session == Some(w.session) && !OwnSocketWatched(t)
  {
    hide *;
    var s := Refusals(cfg, dsn, WATCH_COUNT);
    EveryRefusalTakesASlot(cfg, dsn, WATCH_COUNT);
    NowUnwatched(cfg, s, w);
  }

  lemma {:induction false} NowUnwatched(cfg: Config, s: State, w: Welcome)
    requires SlotsTaken(cfg, s, WATCH_COUNT) && WelcomeOk(cfg, w)
    ensures var t := Handshaken(cfg, s, w, DIAL_AGAIN, WATCH_COUNT, 0);
            && Inv(cfg, t) && ConnectSpec(cfg, |s.contexts|, Ok, t)
            && t.connected && t.marks.linkUp && t.marks.disciplined && t.session == Some(w.session) && !OwnSocketWatched(t)
  {
    hide Inv, Handshaken, WelcomeOk, ConnectSpec, OwnSocketWatched, Few, Distinct, RoomToWatch;
    NoRoom(s.watches, WATCH_COUNT);
    HandshakenInv(cfg, s, w, DIAL_AGAIN, WATCH_COUNT, 0);
    assert Untouched(s, Handshaken(cfg, s, w, DIAL_AGAIN, WATCH_COUNT, 0));
    LiveLinkWatched(cfg, Handshaken(cfg, s, w, DIAL_AGAIN, WATCH_COUNT, 0));
  }
}
