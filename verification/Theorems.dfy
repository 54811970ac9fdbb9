/** What the invariant says about every run, read event by event. */
module Theorems {
  import opened Wrappers
  import opened Bytes
  import opened Envelopes
  import opened Proto
  import opened MessageBuses
  import opened Histories
  import opened Deliveries
  import opened Backoff
  import opened Time
  import opened Timers
  import opened Watches
  import opened Machine
  import opened Invariance

  // ----- timers

  ghost function SlotsOf(t: Table, c: Callback): set<int> {
    set i | 0 <= i < TIMER_COUNT && Holds(t, i, c)
  }

  /** One slot for each kind of timer at most, where the client's id says; a reconnect timer only while reconnecting. */
  ghost predicate UniqueTimers(s: State) {
    && SlotsOf(s.table, ReconnectTimer) <= {s.reconnectId} && SlotsOf(s.table, MiscTimer) <= {s.miscId}
    && (SlotsOf(s.table, ReconnectTimer) != {} ==> s.reconnecting && !s.marks.onStack)
    && (s.reconnectId == s.miscId ==> SlotsOf(s.table, ReconnectTimer) == {} || SlotsOf(s.table, MiscTimer) == {})
  }

  lemma {:induction false} TimersAreUnique(cfg: Config, s: State)
    requires Inv(cfg, s)
    ensures UniqueTimers(s)
  {
    assert forall i | i in SlotsOf(s.table, ReconnectTimer) :: s.table.timers[i].callback == ReconnectTimer;
    assert forall i | i in SlotsOf(s.table, MiscTimer) :: s.table.timers[i].callback == MiscTimer;
  }

  /** By the rules, reconnecting means one armed reconnect timer or an attempt under way, and there is a free slot. */
  ghost predicate AttemptPending(s: State) {
    s.marks.disciplined ==>
      && (s.reconnecting <==> s.marks.onStack || SlotsOf(s.table, ReconnectTimer) == {s.reconnectId})
      && StartId(s.table) != INVALID_TIMER
  }

  /** No reconnect attempt is lost. */
  lemma {:induction false} NoAttemptIsLost(cfg: Config, s: State)
    requires Inv(cfg, s)
    ensures AttemptPending(s)
  {
    TimersAreUnique(cfg, s);
    if s.marks.disciplined {
      RoomForTimer(s);
      if s.reconnecting && !s.marks.onStack {
        assert s.reconnectId in SlotsOf(s.table, ReconnectTimer);
      }
    }
  }

  /**
   By the rules, from a successful connect on until its connection is lost or given up, the client is connected and
   its misc timer is armed, to fire within a second, or running: the chain of timers that keeps the library alive does
   not break.
   */
  ghost predicate ChainUnbroken(s: State) {
    s.marks.disciplined && s.marks.ready ==>
      && s.connected && !s.reconnecting
      && (s.marks.onMisc || (SlotsOf(s.table, MiscTimer) == {s.miscId} && DueWithin(s.table, s.miscId, NANOS_PER_SECOND)))
  }

  /** The timer in this slot is due no later than so many nanoseconds after the clock was read last. */
  ghost predicate DueWithin(t: Table, id: int, nanos: int) {
    0 <= id < |t.timers| && t.timers[id].expiresAt <= t.clock + nanos
  }

  /** Every misc timer started since the client was made was started for a second. */
  ghost predicate MiscEverySecond(s: State) {
    forall k: nat | s.marks.startedBefore <= k < |s.table.tickets| && s.table.tickets[k].callback == MiscTimer ::
      s.table.tickets[k].Due() == s.table.tickets[k].startedAt + NANOS_PER_SECOND
  }

  lemma {:induction false} KeepAliveNeverDies(cfg: Config, s: State)
    requires Inv(cfg, s)
    ensures ChainUnbroken(s) && MiscEverySecond(s)
  {
    TimersAreUnique(cfg, s);
    if s.marks.disciplined && s.marks.ready && !s.marks.onMisc {
      assert s.miscId in SlotsOf(s.table, MiscTimer);
      assert TicketOk(s.table, s.table.holder[s.miscId]);
    }
  }

  /** A timer that fired since the client was made has had its callback called once, and no other timer has at all. */
  ghost predicate CallbacksOnce(s: State) {
    && (forall k: nat | k < |s.table.tickets| && k !in s.marks.firedBefore ::
          CalledOf(s.history)[k] == if s.table.tickets[k].status.Fired? then 1 else 0)
    && (forall k: nat | k >= |s.table.tickets| :: CalledOf(s.history)[k] == 0)
  }

  lemma {:induction false} EveryCallbackOnce(cfg: Config, s: State)
    requires Inv(cfg, s)
    ensures CallbacksOnce(s)
  {
    assert CallsOk(CallsOf(s), s.table);
    assert forall k: nat :: CallsOf(s)[k] == s.marks.firedBefore[k] + CalledOf(s.history)[k];
  }

  /** Rescheduling the misc timer spares a pending reconnect exactly when the misc id is not that timer's id. */
  lemma {:induction false} MiscSparesReconnect(cfg: Config, s: State, elapsed: nat)
    requires Inv(cfg, s) && Holds(s.table, s.reconnectId, ReconnectTimer)
    ensures TableOk(s.table)
    ensures Holds(MiscScheduled(s, elapsed).table, s.reconnectId, ReconnectTimer) <==> s.miscId != s.reconnectId
    ensures s.miscId == s.reconnectId ==> SlotsOf(MiscScheduled(s, elapsed).table, ReconnectTimer) == {}
  {
    Stopping(s.table, s.miscId);
    Starting(Cancelled(s.table, s.miscId), elapsed, MISC_PERIOD, MiscTimer);
    hide TableOk, Cancelled, Started, LedgerGrows;
    assert forall i | 0 <= i < TIMER_COUNT && i != s.reconnectId :: !Holds(s.table, i, ReconnectTimer);
  }

  /** A disconnect by the user spares a pending reconnect exactly when the client is not connected. */
  lemma {:induction false} DisconnectSparesReconnect(cfg: Config, s: State, rc: int, closed: bool)
    requires Inv(cfg, s) && Holds(s.table, s.reconnectId, ReconnectTimer)
    ensures TableOk(Disconnected(s, rc, closed).table) && Disconnected(s, rc, closed).reconnecting
    ensures Holds(Disconnected(s, rc, closed).table, s.reconnectId, ReconnectTimer) <==> !s.connected
  {
    DisconnectedTable(s, rc, closed);
  }

  /** A lost connection is unwatched exactly when the library has not yet closed its socket. */
  lemma {:induction false} LostSocketUnwatched(cfg: Config, s: State, luck: Luck)
    requires Inv(cfg, s) && !s.reconnecting && s.socket in WatchMap(s.watches)
    ensures TableOk(s.table)
    ensures s.socket in WatchMap(LostConnection(Dropped(s, luck.closed), luck).watches) <==> luck.closed
  {
    UnwatchRefinesMap(s.watches, s.socket);
    UnwatchRefinesMap(s.watches, INVALID_FD);
  }

  /** A new connection is watched exactly when its descriptor is not -1 and others have not taken every slot. */
  lemma {:induction false} NewLinkWatched(cfg: Config, s: State, frame: nat, fd: int)
    requires Inv(cfg, s)
    ensures OwnSocketWatched(LinkOpened(s, frame, fd)) <==> RoomToWatch(s.watches, fd)
    ensures LinkOpened(s, frame, fd).marks.room == RoomToWatch(s.watches, fd) && |s.watches| == 32
  {
    OwnWatchTaken(s.watches, fd);
  }

  /** By the rules, that is how it stays for as long as the library has the connection. */
  ghost predicate LinkWatched(s: State) {
    s.marks.disciplined && s.marks.linkUp ==> (OwnSocketWatched(s) <==> s.marks.room)
  }

  lemma LiveLinkWatched(cfg: Config, s: State)
    requires Inv(cfg, s)
    ensures LinkWatched(s)
  {
  }

  // ----- reconnecting and disconnecting

  /**
   The attempt after a failed one, by the rules and with the connection as the failed one left it: it ends the
   reconnecting without a session exactly when the failed one had missed its acknowledgement and no session was open.
   */
  lemma {:induction false} WhatEndsReconnecting(cfg: Config, s: State, r: Result, t: State, u: State, q: Result, v: State)
    requires AttemptSpec(cfg, s, r, t) && s.marks.onStack && !s.connected && !r.Ok? && t.marks.disciplined
    requires AttemptSpec(cfg, u, q, v) && u.connected == t.connected
    ensures !v.reconnecting && v.session == None <==> Unacknowledged(r) && u.session == None
    ensures Unacknowledged(r) ==> q.Ok? && v == AttemptSucceeded(u, false)
    ensures !Unacknowledged(r) ==> ConnectSpec(cfg, |u.contexts|, q, v)
  {
  }

  /**
   A disconnect made while the client's handler reads, with no reconnecting begun since, is undone by that same
   handler exactly when its write half is due and fails.
   */
  lemma DisconnectUndone(s: State, h: Handling, t: State)
    requires SocketSpec(s, h, t) && s.connected && !h.mid.connected && !h.mid.reconnecting
    ensures t.reconnecting <==> h.write && h.writeRc != 0
  {
  }

  // ----- what the handlers do

  /** In `t1` these slots of `t0` have been cleared, and slot `id`, free then, holds this timer; -1 says there was none. */
  ghost predicate SlotsAfter(t0: Table, t1: Table, cleared: set<int>, id: int, timer: Timer) {
    && |t0.timers| == |t1.timers| == 64 && -1 <= id < 64
    && (forall i | 0 <= i < 64 ::
          t1.timers[i] == if i == id then timer else if i in cleared then Timer(0, NoCallback) else t0.timers[i])
    && (id >= 0 ==> id in cleared || t0.timers[id].callback == NoCallback)
    && (id == -1 ==> forall i | 0 <= i < 64 :: t1.timers[i].callback != NoCallback)
  }

  /** When a timer started `elapsed` after the clock was read last is due, for a delay in milliseconds. */
  ghost function DueAfter(t: Table, elapsed: nat, delay: int): int { t.clock + elapsed + delay * 1_000_000 }

  /** A disconnect ends the session; if connected, it unwatches the socket, stops both timers and leaves the broker. */
  lemma {:induction false} DisconnectMeans(cfg: Config, s: State, rc: int, closed: bool)
    requires Inv(cfg, s)
    ensures TableOk(s.table)
    ensures var t := Disconnected(s, rc, closed);
            && t.session == None && !t.connected && t.reconnecting == s.reconnecting
            && (!s.connected ==> t == s.(session := None, history := Then(s.history, SessionReset)))
            && (s.connected ==>
                  && WatchMap(t.watches) == WatchMap(s.watches) - {s.socket}
                  && SlotsCleared(s.table, t.table, {s.reconnectId, s.miscId})
                  && t.history == Then(Then(s.history, SessionReset), Library(LeaveBroker, rc)))
  {
    if s.connected {
      UnwatchRefinesMap(s.watches, s.socket);
      Stopping(s.table, s.reconnectId);
      Stopping(Cancelled(s.table, s.reconnectId), s.miscId);
    }
  }

  ghost predicate SlotsCleared(t0: Table, t1: Table, cleared: set<int>) {
    && |t0.timers| == |t1.timers| == 64
    && forall i | 0 <= i < 64 :: t1.timers[i] == if i in cleared then Timer(0, NoCallback) else t0.timers[i]
  }

  /** The connection on this descriptor is lost: no session, no connection, no watch, and one attempt due after the delay. */
  ghost predicate Lost(s: State, fd: int, elapsed: nat, delay: int, t: State) {
    && !t.connected && t.reconnecting && t.session == None && t.queue == s.queue
    && WatchMap(t.watches) == WatchMap(s.watches) - {fd}
    && SlotsAfter(s.table, t.table, {}, t.reconnectId, Timer(DueAfter(s.table, elapsed, delay), ReconnectTimer))
    && t.history.Then? && t.history.last == SessionReset
  }

  lemma {:induction false} LossMeans(cfg: Config, s: State, luck: Luck)
    requires Inv(cfg, s)
    ensures TableOk(s.table)
    ensures s.reconnecting ==> LostConnection(s, luck) == s
    ensures !s.reconnecting ==> Lost(s, s.socket, luck.elapsed, luck.delay, LostConnection(s, luck))
  {
    if !s.reconnecting {
      UnwatchRefinesMap(s.watches, s.socket);
      SlotTaken(s.table, luck.elapsed, luck.delay, ReconnectTimer);
    }
  }

  lemma {:induction false} SlotTaken(t: Table, elapsed: nat, delay: int, callback: Callback)
    requires TableOk(t) && callback != NoCallback
    ensures SlotsAfter(t, Started(t, elapsed, delay, callback), {}, StartId(t), Timer(DueAfter(t, elapsed, delay), callback))
  {
  }

  lemma {:induction false} SlotMoved(t: Table, id: int, elapsed: nat, delay: int, callback: Callback)
    requires TableOk(t) && callback != NoCallback
    ensures TableOk(Cancelled(t, id))
    ensures var c := Cancelled(t, id);
            SlotsAfter(t, Started(c, elapsed, delay, callback), {id},
                       StartId(c), Timer(DueAfter(t, elapsed, delay), callback))
  {
    Stopping(t, id);
    SlotTaken(Cancelled(t, id), elapsed, delay, callback);
  }

  /** The misc timer is moved, to be due in a second. */
  lemma {:induction false} MiscMeans(cfg: Config, s: State, elapsed: nat)
    requires Inv(cfg, s)
    ensures TableOk(s.table)
    ensures var t := MiscScheduled(s, elapsed);
            && t == s.(table := t.table, miscId := t.miscId)
            && SlotsAfter(s.table, t.table, {s.miscId}, t.miscId, Timer(DueAfter(s.table, elapsed, 1000), MiscTimer))
  {
    SlotMoved(s.table, s.miscId, elapsed, 1000, MiscTimer);
  }

  /** An invalid session: disconnected, and one attempt due after the delay. */
  lemma {:induction false} InvalidSessionMeans(cfg: Config, s: State, luck: Luck)
    requires Inv(cfg, s)
    ensures TableOk(s.table)
    ensures s.reconnecting ==> InvalidatedSession(s, luck) == s
    ensures var t, gone := InvalidatedSession(s, luck), Then(s.history, SessionReset);
            !s.reconnecting ==>
              && !t.connected && t.reconnecting && t.session == None && t.queue == s.queue
              && WatchMap(t.watches) == (if s.connected then WatchMap(s.watches) - {s.socket} else WatchMap(s.watches))
              && SlotsAfter(s.table, t.table, if s.connected then {s.reconnectId, s.miscId} else {},
                            t.reconnectId, Timer(DueAfter(s.table, luck.elapsed, luck.delay), ReconnectTimer))
              && t.history.Then? && t.history.last.DelayArmed?
              && t.history.before == if s.connected then Then(gone, Library(LeaveBroker, luck.left)) else gone
  {
    TableIsOk(cfg, s);
    hide Inv, Disconnected, TableOk, WatchMap, ReconnectArmed, SlotsAfter, SlotsCleared, LedgerGrows;
    DisconnectMeans(cfg, s, luck.left, luck.closed);
    if !s.reconnecting {
      var d := Disconnected(s, luck.left, luck.closed);
      DisconnectedTable(s, luck.left, luck.closed);
      ClockKept(s, luck.left, luck.closed);
      ArmedMeans(d, luck.elapsed, luck.delay);
      if s.connected {
        ClearedThenTaken(s.table, d.table, InvalidatedSession(s, luck).table, {s.reconnectId, s.miscId},
                         InvalidatedSession(s, luck).reconnectId,
                         Timer(DueAfter(s.table, luck.elapsed, luck.delay), ReconnectTimer));
      }
    }
  }

  lemma ClearedThenTaken(t0: Table, t1: Table, t2: Table, cleared: set<int>, id: int, timer: Timer)
    requires SlotsCleared(t0, t1, cleared) && SlotsAfter(t1, t2, {}, id, timer)
    ensures SlotsAfter(t0, t2, cleared, id, timer)
  {
  }

  lemma {:induction false} ArmedMeans(s: State, elapsed: nat, delay: int)
    requires TableOk(s.table)
    ensures var t := ReconnectArmed(s, elapsed, delay);
            && t == s.(table := t.table, reconnectId := t.reconnectId, reconnecting := true, history := t.history)
            && t.history.Then? && t.history.before == s.history && t.history.last.DelayArmed?
            && SlotsAfter(s.table, t.table, {}, t.reconnectId, Timer(DueAfter(s.table, elapsed, delay), ReconnectTimer))
  {
    SlotTaken(s.table, elapsed, delay, ReconnectTimer);
  }

  lemma ClockKept(s: State, rc: int, closed: bool)
    requires TableOk(s.table)
    ensures var d := Disconnected(s, rc, closed); d.table.clock == s.table.clock && d.queue == s.queue
    ensures !s.connected ==> Disconnected(s, rc, closed).table == s.table
  {
  }

  /** The misc timer's callback: without a connection nothing; by the library's code the timer again, or a loss. */
  lemma {:induction false} MiscCallMeans(cfg: Config, s: State, rc: int, luck: Luck)
    requires Inv(cfg, s)
    ensures TableOk(s.table)
    ensures var t := MiscHandled(s, rc, luck);
            && (!s.connected ==> t == s)
            && (s.connected && rc == 0 ==>
                  && t == s.(table := t.table, miscId := t.miscId, history := Then(s.history, Library(LoopMisc, rc)))
                  && SlotsAfter(s.table, t.table, {s.miscId}, t.miscId,
                                Timer(DueAfter(s.table, luck.elapsed, 1000), MiscTimer)))
            && (s.connected && rc != 0 && !s.reconnecting ==>
                  Lost(s, if luck.closed then -1 else s.socket, luck.elapsed, luck.delay, t))
  {
    if s.connected && rc == 0 {
      SlotMoved(s.table, s.miscId, luck.elapsed, 1000, MiscTimer);
    } else if s.connected && !s.reconnecting {
      UnwatchRefinesMap(s.watches, if luck.closed then -1 else s.socket);
      SlotTaken(s.table, luck.elapsed, luck.delay, ReconnectTimer);
    }
  }

  /** The write half: by the library's code nothing more, or a lost connection. */
  lemma {:induction false} WriteMeans(cfg: Config, s: State, rc: int, luck: Luck)
    requires Inv(cfg, s)
    ensures TableOk(s.table)
    ensures rc == 0 ==> Wrote(s, rc, luck) == s.(history := Then(s.history, Library(LoopWrite, rc)))
    ensures rc != 0 && !s.reconnecting ==>
              Lost(s, if luck.closed then -1 else s.socket, luck.elapsed, luck.delay, Wrote(s, rc, luck))
  {
    if rc != 0 && !s.reconnecting {
      UnwatchRefinesMap(s.watches, if luck.closed then -1 else s.socket);
      SlotTaken(s.table, luck.elapsed, luck.delay, ReconnectTimer);
    }
  }

  // ----- waiting

  /**
   What a round of a wait puts on record: without a connection select is asked for nothing; with one it is asked to read,
   and to write if the library wants that; unless it fails, the handler is told what it found, and nothing else.
   */
  lemma {:induction false} WhatWaitsAsk(s: State, fd: int, w: WaitTurn, t: State)
    requires WaitMade(s, fd, w, t)
    ensures var asked := if !s.connected then Then(s.history, Polled(Fds({}, {}), w.left, w.found, w.rc))
                         else Then(Then(s.history, Library(WantWrite, w.wants)),
                                   Polled(Fds({fd}, if w.wants == 0 then {} else {fd}), w.left, w.found, w.rc));
            if w.rc < 0 then t.history == asked
            else Extends(Then(asked, Notified(ClientHandler, fd in w.found.toRead, fd in w.found.toWrite)), t.history)
  {
    if w.rc >= 0 {
      HandlingRecorded(Log(EventsAsked(s, w.wants), Polled(Interest(s.connected, w.wants, fd), w.left, w.found, w.rc)),
                       w.handling, t);
    }
  }

  /** A call of the client's handler is on record, with what it was told. */
  lemma {:induction false} HandlingRecorded(s: State, h: Handling, t: State)
    requires SocketSpec(s, h, t)
    ensures Extends(Then(s.history, Notified(ClientHandler, h.read, h.write)), t.history)
  {
    var n := Then(s.history, Notified(ClientHandler, h.read, h.write));
    if s.connected {
      if h.read {
        ExtendsTransitive(n, Then(n, Library(LoopRead, h.readRc)), h.mid.history);
      }
      if h.readRc == 0 && h.write {
        WroteExtends(h.mid, h.writeRc, h.luck);
        ExtendsTransitive(n, h.mid.history, t.history);
      }
    }
  }

  lemma {:induction false} WroteExtends(s: State, rc: int, luck: Luck)
    requires TableOk(s.table)
    ensures Extends(s.history, Wrote(s, rc, luck).history)
  {
    var h := Then(s.history, Library(LoopWrite, rc));
    assert Extends(s.history, h);
    if rc != 0 && !s.reconnecting {
      assert Extends(s.history, Wrote(s, rc, luck).history.before);
    }
  }

  /** The time spent in these rounds, in microseconds. */
  function Slept(turns: seq<WaitTurn>): int {
    if turns == [] then 0
    else
      var n := |turns| - 1;
      Slept(turns[..n]) + Micros(turns[n].left) - Micros(turns[n].rest)
  }

  lemma {:induction false} SleptSoFar(c: Condition, fd: int, timeout: int, s: State, w: WaitRun, n: nat)
    requires WaitsMade(c, fd, timeout, s, w) && n <= |w.turns|
    ensures Slept(w.turns[..n]) + Micros(LeftAfter(timeout, w.turns, n)) == Micros(ToTimeval(timeout * NANOS_PER_MILLI))
  {
    hide WaitMade, Pending, UsedUp, ToTimeval;
    if n == 0 {
    } else {
      SleptSoFar(c, fd, timeout, s, w, n - 1);
      assert w.turns[..n][..n - 1] == w.turns[..n - 1] && w.turns[..n][n - 1] == w.turns[n - 1];
      assert w.turns[n - 1].left == LeftAfter(timeout, w.turns, n - 1);
    }
  }

  /**
   A wait for nothing lasts exactly as long as its timeout says, to the microsecond, unless select fails; and every round
   began with something still to wait for, so none comes after what was waited for.
   */
  lemma {:induction false} UnansweredWaitsInFull(c: Condition, fd: int, timeout: nat, s: State, w: WaitRun)
    requires WaitEnded(c, fd, timeout, s, w) && Pending(w.after, c)
    ensures SelectFailedIn(w) || Slept(w.turns) == timeout * 1000
    ensures forall i | 0 <= i < |w.turns| :: Pending(w.points[i], c)
  {
    hide WaitMade;
    SleptSoFar(c, fd, timeout, s, w, |w.turns|);
    assert w.turns[..|w.turns|] == w.turns;
    WholeMillis(timeout);
    if w.turns != [] {
      LeftSelectable(c, fd, timeout, s, w);
    }
  }

  lemma {:induction false} LeftSelectable(c: Condition, fd: int, timeout: int, s: State, w: WaitRun)
    requires WaitsMade(c, fd, timeout, s, w) && w.turns != []
    ensures Selectable(w.turns[|w.turns| - 1].rest)
  {
    var n := |w.turns| - 1;
    hide SocketSpec;
    assert WaitMade(w.points[n], fd, w.turns[n], w.points[n + 1]);
  }

  lemma {:induction false} WholeMillis(timeout: nat)
    ensures ToTimeval(timeout * NANOS_PER_MILLI) == Timeval(timeout / 1000, timeout % 1000 * 1000)
    ensures Micros(ToTimeval(timeout * NANOS_PER_MILLI)) == timeout * 1000
  {
    var nanos := timeout * NANOS_PER_MILLI;
    assert nanos == (timeout / 1000) * NANOS_PER_SECOND + (timeout % 1000) * NANOS_PER_MILLI;
    assert nanos / NANOS_PER_SECOND == timeout / 1000;
  }

  // ----- the wire

  /**
   The payload's header: the message's type, the time read just before, in seconds, the client, platform 4, status 0. Its
   body: a login request in the clear, anything else readable under the private key of the session then open.
   */
  ghost predicate PayloadReadable(cfg: Config, b: History, m: Message, payload: bytes) {
    && Decode(payload).Opened?
    && var e := Decode(payload).envelope;
    && e.messageType == TypeFor(m.typeName) && e.clientId == cfg.clientId && e.platform == 4 && e.responseStatus == 0
    && b.Then? && b.last.Library? && b.last.call == ReadTime && e.timestamp == b.last.rc % 4294967296
    && (!m.typeName.LoginRequest? ==>
          SessionOf(b).Some? && BodyUnder(cfg.cipher, SessionOf(b).value.privateKey, payload) == m.content.wire)
    && (m.typeName.LoginRequest? ==> e.messageBody == m.content.wire)
  }

  /** Each payload ever published can be read by a peer that holds the key of the session open at that moment. */
  ghost predicate PayloadsReadable(cfg: Config, h: History) {
    forall b, m, payload | Extends(Then(b, Published(m, payload)), h) :: PayloadReadable(cfg, b, m, payload)
  }

  lemma {:induction false} PublishedAt(cfg: Config, h: History, b: History, m: Message, payload: bytes)
    requires PublishedReadable(cfg, h) && Extends(Then(b, Published(m, payload)), h)
    ensures PayloadReadable(cfg, b, m, payload)
  {
    if h == Then(b, Published(m, payload)) {
    } else {
      PublishedAt(cfg, h.before, b, m, payload);
    }
  }

  lemma {:induction false} EveryPayloadReadable(cfg: Config, s: State)
    requires Inv(cfg, s)
    ensures PayloadsReadable(cfg, s.history)
  {
    forall b, m, payload | Extends(Then(b, Published(m, payload)), s.history)
      ensures PayloadReadable(cfg, b, m, payload)
    {
      PublishedAt(cfg, s.history, b, m, payload);
    }
  }

  /** Whenever a connect counts its login as published, the client's login request has just been published. */
  ghost predicate LoginsSent(cfg: Config, h: History) {
    forall b, frame, rc, request | Extends(Then(b, Handshake(frame, LoginPublish(rc, request))), h) ::
      LoginJustPublished(cfg, b)
  }

  lemma {:induction false} PublishedBefore(cfg: Config, h: History, b: History, frame: nat, rc: int, request: nat)
    requires LoginsPublished(cfg, h) && Extends(Then(b, Handshake(frame, LoginPublish(rc, request))), h)
    ensures LoginJustPublished(cfg, b)
  {
    if h == Then(b, Handshake(frame, LoginPublish(rc, request))) {
    } else {
      PublishedBefore(cfg, h.before, b, frame, rc, request);
    }
  }

  lemma {:induction false} EveryLoginSent(cfg: Config, s: State)
    requires Inv(cfg, s)
    ensures LoginsSent(cfg, s.history)
  {
    forall b, frame, rc, request | Extends(Then(b, Handshake(frame, LoginPublish(rc, request))), s.history)
      ensures LoginJustPublished(cfg, b)
    {
      PublishedBefore(cfg, s.history, b, frame, rc, request);
    }
  }

  /** Where on the record the login request of a connect was published. */
  lemma {:induction false} FoundOnWire(cfg: Config, h: History, frame: nat, request: nat) returns (b: History, payload: bytes)
    requires LoginOnWire(cfg, h, frame, request)
    ensures Extends(Then(Then(b, Published(cfg.loginRequest, payload)), Handshake(frame, LoginPublish(0, request))), h)
  {
    if h.last == Handshake(frame, LoginPublish(0, request)) && LoginJustPublished(cfg, h.before) {
      b, payload := h.before.before, h.before.last.payload;
    } else {
      b, payload := FoundOnWire(cfg, h.before, frame, request);
    }
  }

  /** A connect whose steps are the whole handshake has published its login request in a payload the peer can read. */
  lemma {:induction false} HandshakePublishes(cfg: Config, s: State, frame: nat, grant: Grant)
    returns (b: History, payload: bytes)
    requires Inv(cfg, s) && WholeHandshake(StepsOf(s.history, frame), grant)
    ensures Extends(Then(Then(b, Published(cfg.loginRequest, payload)), Handshake(frame, LoginPublish(0, grant.request))),
                    s.history)
    ensures PayloadReadable(cfg, b, cfg.loginRequest, payload)
  {
    CompleteMeansWholeHandshake(s.history, frame, grant);
    LoginWasPublished(cfg, s.history, frame, grant.request);
    b, payload := FoundOnWire(cfg, s.history, frame, grant.request);
    var p := Then(b, Published(cfg.loginRequest, payload));
    ExtendsTransitive(p, Then(p, Handshake(frame, LoginPublish(0, grant.request))), s.history);
    PublishedAt(cfg, s.history, b, cfg.loginRequest, payload);
  }

  /**
   The payload opens with status 0 and the type of the message, whose class its body parses to: call events, type 13,
   under the public key of the session, and everything else under the private key.
   */
  ghost predicate Says(cfg: Config, session: SessionInformation, payload: bytes, t: byte, m: Message) {
    && Decode(payload).Opened?
    && Decode(payload).envelope.responseStatus == 0 && Decode(payload).envelope.messageType == t
    && ClassFor(t) == Some(m.typeName)
    && cfg.parse(m.typeName, BodyUnder(cfg.cipher, if t == 13 then session.publicKey else session.privateKey, payload))
       == Some(m.content)
  }

  /** Each message ever accepted came out of a payload under the keys of the session open at that moment. */
  ghost predicate MessagesReceived(cfg: Config, h: History) {
    forall b, e, source | Extends(Then(b, Accepted(e, source)), h) ::
      SessionOf(b).Some? && Says(cfg, SessionOf(b).value, source, e.messageType, e.message)
  }

  lemma {:induction false} AcceptedAt(cfg: Config, h: History, b: History, e: QueuedMessage, source: bytes)
    requires AcceptedReadable(cfg, h) && Extends(Then(b, Accepted(e, source)), h)
    ensures SessionOf(b).Some? && Says(cfg, SessionOf(b).value, source, e.messageType, e.message)
  {
    if h == Then(b, Accepted(e, source)) {
    } else {
      AcceptedAt(cfg, h.before, b, e, source);
    }
  }

  lemma {:induction false} EveryMessageReceived(cfg: Config, s: State)
    requires Inv(cfg, s)
    ensures MessagesReceived(cfg, s.history)
  {
    forall b, e, source | Extends(Then(b, Accepted(e, source)), s.history)
      ensures SessionOf(b).Some? && Says(cfg, SessionOf(b).value, source, e.messageType, e.message)
    {
      AcceptedAt(cfg, s.history, b, e, source);
    }
  }

  /**
   What becomes of a payload on the events topic, or on the client's own with no request waiting, by what it says: the
   raw-message callback is called with it if it opens, and leaves the client in `mid`; status 1 invalidates the session;
   and exactly what is said under the keys of the session that is open then is put into the queue.
   */
  lemma {:induction false} WhatIsFiled(cfg: Config, s: State, mid: State, topic: string, payload: bytes, luck: Luck,
                                       t: State)
    requires TableOk(mid.table) && GeneralSpec(cfg, s, mid, topic, payload, luck, t)
    ensures !Decode(payload).Opened? ==> t == s
    ensures Decode(payload).Opened? ==> Evolves(Log(s, RawSeen(payload)), mid)
    ensures Decode(payload).Opened? && Decode(payload).envelope.responseStatus == 1 ==> t == InvalidatedSession(mid, luck)
    ensures Decode(payload).Opened? && Decode(payload).envelope.responseStatus != 1 && mid.session == None ==> t == mid
    ensures Decode(payload).Opened? && Decode(payload).envelope.responseStatus > 1 ==> t == mid
    ensures forall code, m | mid.session.Some? && Says(cfg, mid.session.value, payload, code, m) ::
              && t.queue == mid.queue + [QueuedMessage(topic, code, m)]
              && t == Log(mid.(queue := t.queue), Accepted(QueuedMessage(topic, code, m), payload))
    ensures Decode(payload).Opened? && Decode(payload).envelope.responseStatus == 0 && mid.session.Some? && t != mid ==>
              exists code, m :: Says(cfg, mid.session.value, payload, code, m)
  {
    assert STATUS_SUCCESS == 0 && STATUS_INVALID_SESSION == 1 && CALL_EVENTS == 13;
    if Decode(payload).Opened? && Decode(payload).envelope.responseStatus == 0 && mid.session.Some? && t != mid {
      var code := Decode(payload).envelope.messageType;
      var name := ClassFor(code).value;
      var key := if code == 13 then mid.session.value.publicKey else mid.session.value.privateKey;
      assert Says(cfg, mid.session.value, payload, code,
                  Message(name, cfg.parse(name, BodyUnder(cfg.cipher, key, payload)).value));
    }
  }

  /**
   Which way a message takes: on the events topic, and on the client's own topic while no request waits, the general way;
   otherwise on its own topic it goes to the request that waits, which is notified of the content or of what is wrong; on
   any other topic nowhere.
   */
  lemma {:induction false} WhereMessagesGo(cfg: Config, s: State, mid: State, topic: string, payload: bytes, luck: Luck,
                                           t: State)
    requires MessageSpec(cfg, s, mid, topic, payload, luck, t)
    ensures topic == "clients" ==> TableOk(mid.table) && GeneralSpec(cfg, s, mid, topic, payload, luck, t)
    ensures topic != "clients" && topic == cfg.ownTopic && s.expected == None ==>
              TableOk(mid.table) && GeneralSpec(cfg, Log(s, Stray(payload)), mid, topic, payload, luck, t)
    ensures topic != "clients" && topic == cfg.ownTopic && s.expected.Some? ==>
              ToldRequest(cfg, s, mid, s.expected.value, payload, t)
    ensures topic != "clients" && topic != cfg.ownTopic ==> t == s
  {
    if topic != "clients" && topic == cfg.ownTopic && s.expected.Some? {
      var q := mid.requests[s.expected.value];
      JudgeMeans(cfg, q.typeName, q.key, payload);
      GoodMeansAnswer(cfg, q.typeName, q.key, payload);
      if !GoodAnswer(cfg, q.typeName, q.key, payload) {
        FailureJudged(cfg, q.typeName, q.key, payload);
      }
    }
  }

  /** The raw-message callback sees what opens; then the request is notified. */
  ghost predicate ToldRequest(cfg: Config, s: State, mid: State, i: nat, payload: bytes, t: State) {
    && (if Decode(payload).Opened? then Evolves(Log(s, RawSeen(payload)), mid) else mid == s)
    && i < |mid.requests| == |t.requests|
    && t == mid.(requests := t.requests, history := Then(mid.history, Response(i, payload)))
    && var q, r := mid.requests[i], t.requests[i];
    && (forall j | 0 <= j < |mid.requests| && j != i :: t.requests[j] == mid.requests[j])
    && SameExpectation(q, r) && r.notified
    && (forall c | Answers(cfg, q.typeName, q.key, payload, c) :: r.message == Some(c) && r.error == q.error)
    && (!GoodAnswer(cfg, q.typeName, q.key, payload) ==>
          r.message == q.message && r.error == Some(FailureOf(q.typeName, Decode(payload))))
  }

  /** What the gateway seals for the client, under the right key of the session, is what is said to it. */
  lemma {:induction false} WhatIsSealed(cfg: Config, session: SessionInformation, e: Envelope, m: Message)
    requires Fits(e) && e.responseStatus == 0 && ClassFor(e.messageType) == Some(m.typeName)
    requires cfg.parse(m.typeName, e.messageBody) == Some(m.content)
    ensures var key := if e.messageType == 13 then session.publicKey else session.privateKey;
            Says(cfg, session, Encoded(Sealed(cfg.cipher, key, e)), e.messageType, m)
  {
    PeerReadsBody(cfg.cipher, if e.messageType == 13 then session.publicKey else session.privateKey, e);
  }

  /** Nothing from `h0` to `h` opens or resets a session. */
  ghost predicate SessionUndisturbed(h0: History, h: History) {
    h == h0 || (h.Then? && !TouchesSession(h.last) && SessionUndisturbed(h0, h.before))
  }

  /** The session was granted to connect `frame` just after `b`, and nothing has touched it since. */
  ghost predicate GrantedAt(cfg: Config, h: History, b: History, frame: nat, grant: Grant) {
    && SessionUndisturbed(Then(b, Handshake(frame, LoginAccept(grant))), h)
    && PhaseOf(b, frame) == LoginSent(grant.request) && Granted(cfg, b, grant)
  }

  /**
   The session that is open holds exactly the keys of the last answer to the login request of the connect that
   opened it, an answer with status 0 among none that were bad.
   */
  lemma {:induction false} SessionComesFromLogin(cfg: Config, s: State) returns (b: History, frame: nat, grant: Grant)
    requires Inv(cfg, s) && s.session.Some?
    ensures GrantedAt(cfg, s.history, b, frame, grant) && grant.session == s.session.value
    ensures OpenerOf(s.history) == Some(frame)
  {
    b, frame, grant := GrantBehind(cfg, s.history);
  }

  lemma {:induction false} GrantBehind(cfg: Config, h: History) returns (b: History, frame: nat, grant: Grant)
    requires LoginsGranted(cfg, h) && SessionOf(h).Some?
    ensures GrantedAt(cfg, h, b, frame, grant) && grant.session == SessionOf(h).value && OpenerOf(h) == Some(frame)
  {
    if h.last.Handshake? && h.last.step.LoginAccept? {
      b, frame, grant := h.before, h.last.frame, h.last.step.grant;
    } else {
      b, frame, grant := GrantBehind(cfg, h.before);
    }
  }

  ghost predicate SessionGranted(cfg: Config, s: State) {
    s.session.Some? ==>
      exists b, frame, grant :: GrantedAt(cfg, s.history, b, frame, grant) && grant.session == s.session.value
  }

  // ----- delivery

  function SessionEvents(rs: seq<Route>): seq<Message> {
    if rs == [] then []
    else SessionEvents(rs[..|rs| - 1]) + if rs[|rs| - 1].ToSession? then [rs[|rs| - 1].event] else []
  }

  function BusMessages(rs: seq<Route>): seq<Message> {
    if rs == [] then []
    else BusMessages(rs[..|rs| - 1]) + if rs[|rs| - 1].ToBus? then [rs[|rs| - 1].message] else []
  }

  lemma {:induction false} RoutesSplit(rs: seq<Route>)
    ensures |SessionEvents(rs)| + |BusMessages(rs)| == |rs|
  {
    if rs == [] {
    } else {
      RoutesSplit(rs[..|rs| - 1]);
    }
  }

  /** Call events on the client's own topic are for the session handler. */
  predicate IsSessionEvent(ownTopic: string, e: QueuedMessage) { e.topic == ownTopic && e.message.typeName.CallEvents? }

  /** The messages among these that are, or are not, for the session handler. */
  function Chosen(ownTopic: string, es: seq<QueuedMessage>, events: bool): seq<Message> {
    if es == [] then []
    else
      var n := |es| - 1;
      Chosen(ownTopic, es[..n], events) + if IsSessionEvent(ownTopic, es[n]) == events then [es[n].message] else []
  }

  lemma {:induction false} RoutesChosen(ownTopic: string, es: seq<QueuedMessage>)
    ensures SessionEvents(RoutesOf(ownTopic, es)) == Chosen(ownTopic, es, true)
    ensures BusMessages(RoutesOf(ownTopic, es)) == Chosen(ownTopic, es, false)
  {
    if es == [] {
    } else {
      var n := |es| - 1;
      RoutesChosen(ownTopic, es[..n]);
      assert RoutesOf(ownTopic, es)[..n] == RoutesOf(ownTopic, es[..n]);
    }
  }

  /**
   Every accepted message still waits, or the session handler or the bus has been called with it, in order and once:
   a route is recorded by whoever is called. The session handler gets the call events on the client's own topic, and the
   bus all others; its dispatches are for these, one for each.
   */
  ghost predicate DeliveredInOrder(cfg: Config, s: State) {
    var accepted, popped, routed := AcceptedOf(s.history), PoppedOf(s.history), RoutedOf(s.history);
    && accepted == popped + s.queue
    && routed == RoutesOf(cfg.ownTopic, popped)
    && SessionEvents(routed) == Chosen(cfg.ownTopic, popped, true)
    && BusMessages(routed) == Chosen(cfg.ownTopic, popped, false)
    && |accepted| == |SessionEvents(routed)| + |BusMessages(routed)| + |s.queue|
    && MessagesIn(DispatchesOf(s.history)) == BusMessages(routed)
  }

  function MessagesIn(ds: seq<Dispatch>): (ms: seq<Message>)
    ensures |ms| == |ds|
  {
    seq(|ds|, i requires 0 <= i < |ds| => ds[i].message)
  }

  lemma NoMessages()
    ensures MessagesIn([]) == BusMessages([])
  {
  }

  lemma MoreMessages(ds: seq<Dispatch>, d: Dispatch)
    ensures MessagesIn(ds + [d]) == MessagesIn(ds) + [d.message]
  {
  }

  lemma SameMessages(ds: seq<Dispatch>, k: nat)
    ensures MessagesIn(HandedOne(ds, k)) == MessagesIn(ds)
  {
  }

  lemma {:induction false} MoreBusMessages(rs: seq<Route>, r: Route)
    ensures BusMessages(rs + [r]) == BusMessages(rs) + if r.ToBus? then [r.message] else []
  {
    assert (rs + [r])[..|rs|] == rs;
  }

  lemma {:induction false} DispatchesAreBusMessages(h: History)
    ensures MessagesIn(DispatchesOf(h)) == BusMessages(RoutedOf(h))
  {
    hide MessagesIn, BusMessages, Audience, HandedOne;
    match h
    case Start =>
      NoMessages();
    case Then(b, Routed(r)) =>
      DispatchesAreBusMessages(b);
      MoreBusMessages(RoutedOf(b), r);
      if r.ToBus? {
        MoreMessages(DispatchesOf(b), Dispatch(r.message, Audience(SubscriptionsOf(b), r.message), 0));
      }
    case Then(b, Handed(k, _)) =>
      DispatchesAreBusMessages(b);
      SameMessages(DispatchesOf(b), k);
    case Then(b, _) =>
      DispatchesAreBusMessages(b);
  }

  lemma {:induction false} ExactlyOnceInOrder(cfg: Config, s: State)
    requires Inv(cfg, s)
    ensures DeliveredInOrder(cfg, s)
  {
    RoutesSplit(RoutedOf(s.history));
    RoutesChosen(cfg.ownTopic, PoppedOf(s.history));
    DispatchesAreBusMessages(s.history);
  }

  /**
   Between dispatches, each message given to the bus has been handed to each subscriber exactly as often as the
   subscriber was on its lists when the bus was called; and a subscriber has seen what concerns it in order exactly
   when no dispatch that concerns it began while an earlier one had still to be handed to it.
   */
  ghost predicate SubscribersServed(s: State) {
    s.marks.open == [] ==>
      && AllDone(DispatchesOf(s.history))
      && forall who ::
           && multiset(SeenBy(s.history, who)) == multiset(InOrder(DispatchesOf(s.history), who))
           && (SeenBy(s.history, who) == InOrder(DispatchesOf(s.history), who) <==> NeverOvertaken(s.history, who))
  }

  lemma {:induction false} EverySubscriberServed(cfg: Config, s: State)
    requires Inv(cfg, s)
    ensures SubscribersServed(s)
  {
    if s.marks.open == [] {
      forall who
        ensures multiset(SeenBy(s.history, who)) == multiset(InOrder(DispatchesOf(s.history), who))
        ensures SeenBy(s.history, who) == InOrder(DispatchesOf(s.history), who) <==> NeverOvertaken(s.history, who)
      {
        EachExactlyOnce(s.history, who);
        SeenInOrder(s.history, who);
      }
    }
  }

  lemma {:induction false} AcceptedTagged(cfg: Config, h: History)
    requires AcceptedReadable(cfg, h)
    ensures forall i | 0 <= i < |AcceptedOf(h)| :: Tagged(AcceptedOf(h)[i])
  {
    if h.Start? {
    } else {
      AcceptedTagged(cfg, h.before);
    }
  }

  lemma {:induction false} BusMessagesKnown(ownTopic: string, es: seq<QueuedMessage>)
    requires forall i | 0 <= i < |es| :: Tagged(es[i])
    ensures forall i | 0 <= i < |BusMessages(RoutesOf(ownTopic, es))| ::
              MessageTypeFor(BusMessages(RoutesOf(ownTopic, es))[i]) != UNKNOWN
  {
    if es == [] {
    } else {
      var n := |es| - 1;
      BusMessagesKnown(ownTopic, es[..n]);
      assert RoutesOf(ownTopic, es)[..n] == RoutesOf(ownTopic, es[..n]);
      TypeTablesAgree(es[n].message.typeName, es[n].messageType);
      assert Tagged(es[n]);
    }
  }

  /** The client never gives the bus a message of a class without a type code. */
  lemma {:induction false} DispatchesKnown(cfg: Config, s: State)
    requires Inv(cfg, s)
    ensures KnownTypes(DispatchesOf(s.history))
  {
    var popped, ds := PoppedOf(s.history), DispatchesOf(s.history);
    AcceptedTagged(cfg, s.history);
    assert forall i | 0 <= i < |popped| :: popped[i] == AcceptedOf(s.history)[i];
    BusMessagesKnown(cfg.ownTopic, popped);
    DispatchesAreBusMessages(s.history);
    assert forall k | 0 <= k < |ds| :: ds[k].message == MessagesIn(ds)[k];
  }

  /**
   From the broker to the subscriber: one that subscribed once, to a type or to everything, has been handed every
   message of that type dispatched since, each exactly once; and in order exactly when it was never overtaken.
   */
  lemma {:induction false} SubscriberSeesRun(cfg: Config, s: State, b: History, t: byte, who: Subscriber)
    requires Inv(cfg, s) && s.marks.open == []
    requires Extends(Then(b, Enlisted(Subscription(t, who))), s.history)
    requires OnlyOne(SubscriptionsOf(s.history), |SubscriptionsOf(b)|, who)
    ensures var mine := OfTypeFrom(DispatchesOf(s.history), t, |DispatchesOf(b)|);
            && multiset(SeenBy(s.history, who)) == multiset(mine)
            && (SeenBy(s.history, who) == mine <==> NeverOvertaken(s.history, who))
  {
    DispatchesKnown(cfg, s);
    ConcernedFrom(b, s.history, t, who);
    InOrderOfType(DispatchesOf(s.history), who, |DispatchesOf(b)|, t);
    EachExactlyOnce(s.history, who);
    SeenInOrder(s.history, who);
  }

  // ----- delays

  /** `d` lies below min(100 * 2^k, 120000), k being the failures since the last success. */
  ghost predicate DelayBounded(b: History, d: int) {
    0 <= d < Min(100 * Power(2, FailuresOf(b)), 120_000)
  }

  /** At `b`, the delay of the timer with this ticket was drawn for it, below the bound of that moment. */
  ghost predicate DrawnBounded(s: State, k: nat, b: History)
    requires k < |s.table.tickets|
  {
    Extends(Then(b, DelayArmed(Some(k), s.table.tickets[k].delay)), s.history) && DelayBounded(b, s.table.tickets[k].delay)
  }

  /**
   Every reconnect timer started since the client was made is due a delay after it was started that was drawn for it,
   below the bound of that moment; and one that is armed is due within the present bound.
   */
  ghost predicate DelaysBounded(s: State) {
    && (forall k: nat | s.marks.startedBefore <= k < |s.table.tickets| && s.table.tickets[k].callback == ReconnectTimer ::
          exists b :: DrawnBounded(s, k, b))
    && (forall i | 0 <= i < TIMER_COUNT && Holds(s.table, i, ReconnectTimer) ::
          DueWithin(s.table, i, ReconnectBound(FailuresOf(s.history)) * NANOS_PER_MILLI))
  }

  lemma {:induction false} DrawnAt(h: History, k: nat) returns (b: History)
    requires DelaysOk(h) && DrawnFor(h, k).Some?
    ensures Extends(Then(b, DelayArmed(Some(k), DrawnFor(h, k).value)), h) && DelayBounded(b, DrawnFor(h, k).value)
  {
    if h.last.DelayArmed? && h.last.timer == Some(k) {
      b := h.before;
    } else {
      b := DrawnAt(h.before, k);
    }
  }

  lemma {:induction false} EveryDelayBounded(cfg: Config, s: State)
    requires Inv(cfg, s)
    ensures DelaysBounded(s)
  {
    forall k: nat | s.marks.startedBefore <= k < |s.table.tickets| && s.table.tickets[k].callback == ReconnectTimer
      ensures exists b :: DrawnBounded(s, k, b)
    {
      var b := DrawnAt(s.history, k);
      assert DrawnBounded(s, k, b);
    }
    forall i | 0 <= i < TIMER_COUNT && Holds(s.table, i, ReconnectTimer)
      ensures DueWithin(s.table, i, ReconnectBound(FailuresOf(s.history)) * NANOS_PER_MILLI)
    {
      assert TicketOk(s.table, s.table.holder[i]);
    }
  }

  // ----- all of it

  /** What is true of the client at every point between two steps of every run. */
  ghost predicate MainResults(cfg: Config, s: State) {
    && UniqueTimers(s) && AttemptPending(s) && ChainUnbroken(s) && MiscEverySecond(s) && CallbacksOnce(s) && LinkWatched(s)
    && PayloadsReadable(cfg, s.history) && LoginsSent(cfg, s.history)
    && MessagesReceived(cfg, s.history) && SessionGranted(cfg, s)
    && DeliveredInOrder(cfg, s) && SubscribersServed(s)
    && DelaysBounded(s)
  }

  lemma {:induction false} InvariantMeans(cfg: Config, s: State)
    requires Inv(cfg, s)
    ensures MainResults(cfg, s)
  {
    hide Inv, UniqueTimers, AttemptPending, ChainUnbroken, MiscEverySecond, CallbacksOnce, LinkWatched,
         PayloadsReadable, LoginsSent, MessagesReceived, DeliveredInOrder, SubscribersServed, DelaysBounded, GrantedAt;
    TimersAreUnique(cfg, s);
    NoAttemptIsLost(cfg, s);
    KeepAliveNeverDies(cfg, s);
    EveryCallbackOnce(cfg, s);
    LiveLinkWatched(cfg, s);
    EveryPayloadReadable(cfg, s);
    EveryLoginSent(cfg, s);
    EveryMessageReceived(cfg, s);
    ExactlyOnceInOrder(cfg, s);
    EverySubscriberServed(cfg, s);
    EveryDelayBounded(cfg, s);
    if s.session.Some? {
      var b, frame, grant := SessionComesFromLogin(cfg, s);
    }
  }
}
