/** SelectEventLoop::runUntil with the client on it, and every run that starts from a new client. */
module Runtime {
  import opened Wrappers
  import opened Backoff
  import opened Time
  import opened Proto
  import opened MessageBuses
  import opened Histories
  import opened Timers
  import opened Watches
  import opened EventLoops
  import opened Machine
  import opened Invariance
  import opened Clients
  import Dsns
  import opened Theorems

  /** The highest watched descriptor, or -1. */
  method HighestFd(loop: SelectEventLoop) returns (nfds: int)
    requires loop.Valid()
    ensures nfds >= INVALID_FD
    ensures nfds == INVALID_FD <==> forall i | 0 <= i < WATCH_COUNT :: loop.watches[i].socketFd <= INVALID_FD
    ensures forall i | 0 <= i < WATCH_COUNT :: loop.watches[i].socketFd <= nfds
  {
    nfds := INVALID_FD;
    for i := 0 to WATCH_COUNT
      invariant nfds >= INVALID_FD
      invariant nfds == INVALID_FD <==> forall j | 0 <= j < i :: loop.watches[j].socketFd <= INVALID_FD
      invariant forall j | 0 <= j < i :: loop.watches[j].socketFd <= nfds
    {
      if loop.mSocketWatches[i].IsWatching() && loop.mSocketWatches[i].socketFd > nfds {
        nfds := loop.mSocketWatches[i].socketFd;
      }
    }
  }

  // ----- what holds from one point of a run to any later one

  /** Nothing recorded is taken back, and without a connect a client that is down stays down. */
  ghost predicate Onward(s: State, t: State) { Later(s, t) && StaysDown(s, t) }

  lemma OnwardRefl(s: State)
    ensures Onward(s, s)
  {
  }

  lemma {:induction false} OnwardTransitive(a: State, b: State, c: State)
    requires Onward(a, b) && Onward(b, c)
    ensures Onward(a, c)
  {
    LaterTransitive(a, b, c);
  }

  lemma EvolvesOnward(s: State, t: State)
    requires Evolves(s, t) && StaysDown(s, t)
    ensures Onward(s, t) && (AtRest(s) ==> AtRest(t))
  {
  }

  // ----- the firing pass

  /** Reads the clock, and takes the timer out of its slot if it has expired; the invariant then waits for its callback. */
  method Take(c: Client, id: int) returns (callback: Callback, ghost ticket: nat, ghost elapsed: nat)
    requires c.Valid() && AtRest(c.Snap()) && 0 <= id < TIMER_COUNT && c.mLoop.mTimers[id].IsActive()
    modifies c`marks, c.mLoop`mClock, c.mLoop`table, c.mLoop.mTimers
    ensures Later(old(c.Snap()), c.Snap()) && c.mLoop.mClock == old(c.mLoop.mClock) + elapsed
    ensures callback == if old(c.mLoop.mTimers[id].expiresAt) <= c.mLoop.mClock then old(c.mLoop.mTimers[id].callback)
                        else NoCallback
    ensures ticket == old(c.mLoop.table.holder[id])
    ensures if callback == NoCallback then c.Valid() && c.Snap() == ClockRead(old(c.Snap()), elapsed)
            else c.Consistent() && Inv(c.cfg, Called(c.Snap(), ticket)) && c.Snap() == TimerFired(old(c.Snap()), id, elapsed)
    ensures callback == ReconnectTimer ==> c.mReconnecting
    ensures callback == MiscTimer ==> id == c.mMiscTimerId && !Holds(c.mLoop.table, id, ReconnectTimer)
  {
    hide Inv;
    ghost var s := c.Snap();
    ticket := c.mLoop.table.holder[id];
    callback, elapsed := c.mLoop.TakeExpired(id);
    if callback != NoCallback {
      TimerFiredInv(c.cfg, s, id, elapsed);
      c.marks := TimerFired(s, id, elapsed).marks;
    } else {
      ClockReadInv(c.cfg, s, elapsed);
    }
  }

  /** Calls the callback of a timer that has just been taken out of its slot. */
  method Call(c: Client, callback: Callback, ghost ticket: nat)
    requires callback != NoCallback && c.Consistent() && Inv(c.cfg, Called(c.Snap(), ticket)) && !c.mUserData.Context?
    requires c.marks.onStack == (callback == ReconnectTimer) && c.marks.onMisc == (callback == MiscTimer) && c.marks.open == []
    requires callback == ReconnectTimer ==> c.mReconnecting
    requires callback == MiscTimer ==> !Holds(c.mLoop.table, c.mMiscTimerId, ReconnectTimer)
    modifies c, c.mLoop, c.mLoop.mTimers, c.mLoop.mSocketWatches, c.mMessageBus, c.mReconnectDelay
    ensures c.Valid() && AtRest(c.Snap()) && Onward(old(c.Snap()), c.Snap())
    ensures Extends(Called(old(c.Snap()), ticket).history, c.history)
  {
    hide Inv, AttemptSpec, AttemptFailed, MiscHandled, MiscDone;
    match callback {
      case ReconnectTimer =>
        var r, mid, luck := c.Reconnect(ticket);
      case MiscTimer =>
        var rc, luck := c.HandleMisc(ticket);
      case ForeignTimer(_) =>
        c.ForeignCallback(ticket);
    }
  }

  /** Of the tickets of `was` due by `due` in slots below `n`, none is still armed. */
  ghost predicate Settled(was: Table, now: Table, due: int, n: nat) {
    && |was.tickets| <= |now.tickets|
    && forall k | 0 <= k < |was.tickets| ::
         was.tickets[k].status.Armed? && 0 <= was.tickets[k].status.slot < n && was.tickets[k].Due() <= due ==>
           !now.tickets[k].status.Armed?
  }

  /** What has been settled stays settled; a slot just seen adds its own ticket. */
  lemma {:induction false} SettledStep(was: Table, before: Table, after: Table, due: int, n: nat)
    requires TableOk(was) && TableOk(before) && LedgerGrows(was, before) && LedgerGrows(before, after)
    requires n < TIMER_COUNT && Settled(was, before, due, n)
    requires before.timers[n].IsActive() && before.timers[n].expiresAt <= due ==>
               !after.tickets[before.holder[n]].status.Armed?
    ensures Settled(was, after, due, n + 1)
  {
    forall k | 0 <= k < |was.tickets| && was.tickets[k].status.Armed? && 0 <= was.tickets[k].status.slot < n + 1
               && was.tickets[k].Due() <= due
      ensures !after.tickets[k].status.Armed?
    {
      assert TicketGrows(was.tickets[k], before.tickets[k]) && TicketGrows(before.tickets[k], after.tickets[k]);
      if before.tickets[k].status.Armed? {
        assert TicketOk(before, k);
      }
    }
  }

  /**
   The turn of one slot in the firing pass, `elapsed` after the clock was read last: a timer that has expired is fired
   for good and its callback is the next thing called; an unexpired one costs a look at the clock.
   */
  ghost predicate FireTurn(s: State, id: int, elapsed: nat, t: State)
    requires TableOk(s.table) && 0 <= id < TIMER_COUNT
  {
    var timer, ticket, now := s.table.timers[id], s.table.holder[id], s.table.clock + elapsed;
    if !timer.IsActive() then t == s
    else if timer.expiresAt > now then t == ClockRead(s, elapsed)
    else
      && Extends(Called(s, ticket).history, t.history)
      && ticket < |t.table.tickets| && t.table.tickets[ticket].status == Fired(now)
  }

  /** One slot of the firing pass: the slot is released first, then its callback runs. */
  method FireSlot(c: Client, id: int) returns (ghost elapsed: nat)
    requires c.Valid() && AtRest(c.Snap()) && 0 <= id < TIMER_COUNT && c.mLoop.mTimers[id].IsActive()
    modifies c, c.mLoop, c.mLoop.mTimers, c.mLoop.mSocketWatches, c.mMessageBus, c.mReconnectDelay
    ensures c.Valid() && AtRest(c.Snap()) && Onward(old(c.Snap()), c.Snap())
    ensures FireTurn(old(c.Snap()), id, elapsed, c.Snap())
  {
    hide Inv;
    ghost var s := c.Snap();
    var callback;
    ghost var ticket: nat;
    callback, ticket, elapsed := Take(c, id);
    if callback != NoCallback {
      ghost var t := c.Snap();
      FiredForGood(s, id, elapsed);
      Call(c, callback, ticket);
      FiredThenCalled(s, t, id, elapsed, c.Snap());
    }
  }

  lemma {:induction false} FiredForGood(s: State, id: int, elapsed: nat)
    requires TableOk(s.table) && 0 <= id < TIMER_COUNT && s.table.timers[id].IsActive()
    requires s.table.timers[id].expiresAt <= s.table.clock + elapsed
    ensures var t := TimerFired(s, id, elapsed);
            && s.table.holder[id] < |t.table.tickets|
            && t.table.tickets[s.table.holder[id]].status == Fired(s.table.clock + elapsed)
            && t.history == s.history && t.connected == s.connected && t.reconnecting == s.reconnecting
            && t.contexts == s.contexts && LedgerGrows(s.table, t.table)
  {
    ExpireOk(s.table, id, elapsed);
  }

  lemma {:induction false} FiredThenCalled(s: State, t: State, id: int, elapsed: nat, u: State)
    requires TableOk(s.table) && 0 <= id < TIMER_COUNT && s.table.timers[id].IsActive()
    requires s.table.timers[id].expiresAt <= s.table.clock + elapsed && t == TimerFired(s, id, elapsed)
    requires Onward(t, u) && Extends(Called(t, s.table.holder[id]).history, u.history)
    ensures Onward(s, u) && FireTurn(s, id, elapsed, u)
  {
    FiredForGood(s, id, elapsed);
    OnwardTransitive(s, t, u);
    assert TicketGrows(t.table.tickets[s.table.holder[id]], u.table.tickets[s.table.holder[id]]);
  }

  ghost predicate AnyActive(t: Table) {
    exists i | 0 <= i < |t.timers| :: t.timers[i].IsActive()
  }

  /**
   The firing pass: the table may change under it with every callback, and yet no timer that was due when the pass
   began is still armed when it ends. `turns` are the states at which the slots had their turn, `ticks` the times
   that passed until each look at the clock.
   */
  method FirePass(c: Client) returns (activeTimers: bool, ghost turns: seq<State>, ghost ticks: seq<nat>)
    requires c.Valid() && AtRest(c.Snap())
    modifies c, c.mLoop, c.mLoop.mTimers, c.mLoop.mSocketWatches, c.mMessageBus, c.mReconnectDelay
    ensures c.Valid() && AtRest(c.Snap()) && Onward(old(c.Snap()), c.Snap())
    ensures Settled(old(c.mLoop.table), c.mLoop.table, old(c.mLoop.mClock), TIMER_COUNT)
    ensures activeTimers <==> AnyActive(old(c.mLoop.table))
    ensures !activeTimers ==> c.Snap() == old(c.Snap())
    ensures |turns| == TIMER_COUNT + 1 && |ticks| == TIMER_COUNT
    ensures FireTurns(turns, ticks, TIMER_COUNT) && turns[0] == old(c.Snap()) && turns[TIMER_COUNT] == c.Snap()
  {
    hide Inv, FireTurns, FireTurn;
    ghost var s := c.Snap();
    activeTimers := false;
    turns, ticks := [s], [];
    OnwardRefl(s);
    FireTurnsNone(s);
    for i := 0 to TIMER_COUNT
      invariant c.Valid() && AtRest(c.Snap()) && Onward(s, c.Snap())
      invariant TableOk(s.table) && TableOk(c.mLoop.table) && Settled(s.table, c.mLoop.table, s.table.clock, i)
      invariant if activeTimers then AnyActive(s.table)
                else c.Snap() == s && forall j | 0 <= j < i :: !s.table.timers[j].IsActive()
      invariant FireTurns(turns, ticks, i) && |turns| == i + 1 && |ticks| == i && turns[0] == s && turns[i] == c.Snap()
    {
      ghost var t := c.Snap();
      ghost var elapsed: nat := 0;
      if c.mLoop.mTimers[i].IsActive() {
        activeTimers := true;
        elapsed := FireSlot(c, i);
        OnwardTransitive(s, t, c.Snap());
      } else {
        OnwardRefl(t);
        NoTurn(t, i);
      }
      SettledTurn(s.table, t, c.Snap(), elapsed, i);
      FireTurnsStep(turns, ticks, i, elapsed, c.Snap());
      turns, ticks := turns + [c.Snap()], ticks + [elapsed];
    }
  }

  lemma NoTurn(s: State, id: int)
    requires TableOk(s.table) && 0 <= id < TIMER_COUNT && !s.table.timers[id].IsActive()
    ensures FireTurn(s, id, 0, s)
  {
  }

  lemma FireTurnsNone(s: State)
    ensures FireTurns([s], [], 0)
  {
  }

  /** Slot after slot had its turn; an inactive slot's turn is none. */
  ghost predicate FireTurns(turns: seq<State>, ticks: seq<nat>, n: nat) {
    && |turns| == n + 1 && |ticks| == n <= TIMER_COUNT
    && forall i | 0 <= i < n :: TableOk(turns[i].table) && FireTurn(turns[i], i, ticks[i], turns[i + 1])
  }

  lemma {:induction false} FireTurnsStep(turns: seq<State>, ticks: seq<nat>, n: nat, elapsed: nat, t: State)
    requires FireTurns(turns, ticks, n) && n < TIMER_COUNT && TableOk(turns[n].table) && FireTurn(turns[n], n, elapsed, t)
    ensures FireTurns(turns + [t], ticks + [elapsed], n + 1)
  {
    hide FireTurn;
    var us, es := turns + [t], ticks + [elapsed];
    forall i | 0 <= i < n + 1 ensures TableOk(us[i].table) && FireTurn(us[i], i, es[i], us[i + 1]) {
      if i < n {
        assert us[i] == turns[i] && us[i + 1] == turns[i + 1] && es[i] == ticks[i];
      }
    }
  }

  lemma {:induction false} SettledTurn(was: Table, s: State, t: State, elapsed: nat, n: nat)
    requires TableOk(was) && TableOk(s.table) && LedgerGrows(was, s.table) && Later(s, t)
    requires n < TIMER_COUNT && Settled(was, s.table, was.clock, n) && FireTurn(s, n, elapsed, t)
    ensures Settled(was, t.table, was.clock, n + 1)
  {
    SettledStep(was, s.table, t.table, was.clock, n);
  }

  // ----- the second pass

  /**
   The turn of one watch slot: whoever watches is the next to be called and is told what select found for the slot's
   descriptor, and if it is the client, that call is a whole one; an unused slot's turn changes nothing.
   */
  ghost predicate HandleTurn(s: State, i: nat, found: Fds, t: State)
    requires i < |s.watches|
  {
    var watch := s.watches[i];
    var read, write := watch.socketFd in found.toRead, watch.socketFd in found.toWrite;
    if !watch.IsWatching() || watch.handler == NoHandler then t == s
    else
      && Extends(Then(s.history, Notified(watch.handler, read, write)), t.history)
      && (watch.handler == ClientHandler ==> exists h: Handling :: h.read == read && h.write == write && SocketSpec(s, h, t))
  }

  method HandleSlot(c: Client, i: nat, found: Fds)
    requires c.Valid() && AtRest(c.Snap()) && i < WATCH_COUNT
    modifies c, c.mLoop, c.mLoop.mTimers, c.mLoop.mSocketWatches, c.mMessageBus
    ensures c.Valid() && AtRest(c.Snap()) && Onward(old(c.Snap()), c.Snap())
    ensures HandleTurn(old(c.Snap()), i, found, c.Snap())
  {
    ghost var s := c.Snap();
    OnwardRefl(s);
    hide Inv, EvolvesPast, Onward;
    var watch := c.mLoop.mSocketWatches[i];
    if watch.IsWatching() {
      match watch.handler {
        case ClientHandler =>
          ghost var h := c.HandleSocketEvents(watch.socketFd in found.toRead, watch.socketFd in found.toWrite);
          HandledStaysDown(s, h, c.Snap());
          hide SocketSpec;
          EvolvesOnward(s, c.Snap());
        case ForeignHandler(id) =>
          c.ForeignEvents(id, watch.socketFd in found.toRead, watch.socketFd in found.toWrite);
          EvolvesOnward(s, c.Snap());
        case NoHandler =>
      }
    }
  }

  lemma HandledStaysDown(s: State, h: Handling, t: State)
    requires SocketSpec(s, h, t)
    ensures StaysDown(s, t)
  {
  }

  /** The second pass: every watched descriptor's handler, with what select found ready. */
  method HandlePass(c: Client, found: Fds) returns (ghost turns: seq<State>)
    requires c.Valid() && AtRest(c.Snap())
    modifies c, c.mLoop, c.mLoop.mTimers, c.mLoop.mSocketWatches, c.mMessageBus
    ensures c.Valid() && AtRest(c.Snap()) && Onward(old(c.Snap()), c.Snap())
    ensures HandleTurns(turns, found, WATCH_COUNT) && turns[0] == old(c.Snap()) && turns[WATCH_COUNT] == c.Snap()
  {
    hide Inv, HandleTurn;
    ghost var s := c.Snap();
    OnwardRefl(s);
    turns := [s];
    for i := 0 to WATCH_COUNT
      invariant c.Valid() && AtRest(c.Snap()) && Onward(s, c.Snap())
      invariant HandleTurns(turns, found, i) && turns[0] == s && turns[i] == c.Snap()
    {
      ghost var t := c.Snap();
      HandleSlot(c, i, found);
      OnwardTransitive(s, t, c.Snap());
      HandleTurnsStep(turns, found, i, c.Snap());
      turns := turns + [c.Snap()];
    }
  }

  ghost predicate HandleTurns(turns: seq<State>, found: Fds, n: nat) {
    && |turns| == n + 1 && n <= WATCH_COUNT
    && forall i | 0 <= i < n :: |turns[i].watches| == WATCH_COUNT && HandleTurn(turns[i], i, found, turns[i + 1])
  }

  lemma {:induction false} HandleTurnsStep(turns: seq<State>, found: Fds, n: nat, t: State)
    requires HandleTurns(turns, found, n) && n < WATCH_COUNT
    requires |turns[n].watches| == WATCH_COUNT && HandleTurn(turns[n], n, found, t)
    ensures HandleTurns(turns + [t], found, n + 1)
  {
    hide HandleTurn;
    var us := turns + [t];
    forall i | 0 <= i < n + 1 ensures |us[i].watches| == WATCH_COUNT && HandleTurn(us[i], i, found, us[i + 1]) {
      if i < n {
        assert us[i] == turns[i] && us[i + 1] == turns[i + 1];
      }
    }
  }

  // ----- what select is asked for

  /** What the handler of a slot wants to be told of; `wants` is what the library said, if the client asked it. */
  datatype Wish = Wish(read: bool, write: bool, wants: int)

  /** The client wants to read exactly while it is connected, and to write if the library wants to as well. */
  ghost predicate WishMade(s: State, i: nat, w: Wish, t: State)
    requires i < |s.watches|
  {
    var watch := s.watches[i];
    if watch.IsWatching() && watch.handler == ClientHandler then
      t == EventsAsked(s, w.wants) && w.read == s.connected && w.write == (s.connected && w.wants != 0)
    else t == s && (!watch.IsWatching() ==> !w.read && !w.write)
  }

  /** The descriptors of the slots whose handlers want to be told of something. */
  function WishedFor(ws: seq<SocketWatch>, wishes: seq<Wish>): Fds
    requires |wishes| <= |ws|
  {
    Fds(set i | 0 <= i < |wishes| && wishes[i].read :: ws[i].socketFd,
        set i | 0 <= i < |wishes| && wishes[i].write :: ws[i].socketFd)
  }

  /** Slot after slot is asked, and none of that changes the watches. */
  ghost predicate WishesMade(turns: seq<State>, wishes: seq<Wish>, n: nat) {
    && |turns| == n + 1 && |wishes| == n <= WATCH_COUNT
    && (forall i | 0 <= i <= n :: |turns[i].watches| == WATCH_COUNT && turns[i].watches == turns[0].watches)
    && (forall i | 0 <= i < n :: WishMade(turns[i], i, wishes[i], turns[i + 1]))
  }

  lemma {:induction false} WishesStep(turns: seq<State>, wishes: seq<Wish>, n: nat, w: Wish, t: State)
    requires WishesMade(turns, wishes, n) && n < WATCH_COUNT && WishMade(turns[n], n, w, t)
    ensures WishesMade(turns + [t], wishes + [w], n + 1)
    ensures var fds, more := WishedFor(t.watches, wishes), WishedFor(t.watches, wishes + [w]);
            && more.toRead == fds.toRead + (if w.read then {t.watches[n].socketFd} else {})
            && more.toWrite == fds.toWrite + (if w.write then {t.watches[n].socketFd} else {})
  {
    var us, vs := turns + [t], wishes + [w];
    forall i | 0 <= i < n + 1 ensures WishMade(us[i], i, vs[i], us[i + 1]) {
      if i < n {
        assert us[i] == turns[i] && us[i + 1] == turns[i + 1] && vs[i] == wishes[i];
      }
    }
    assert forall i | 0 <= i < n :: vs[i] == wishes[i];
  }

  /** One handler is asked. */
  method AskSlot(c: Client, i: nat) returns (read: bool, write: bool, ghost wants: int)
    requires c.Valid() && AtRest(c.Snap()) && i < WATCH_COUNT
    modifies c`history
    ensures c.Valid() && AtRest(c.Snap()) && Onward(old(c.Snap()), c.Snap())
    ensures WishMade(old(c.Snap()), i, Wish(read, write, wants), c.Snap())
  {
    hide Inv, EvolvesPast;
    ghost var s := c.Snap();
    OnwardRefl(s);
    read, write, wants := false, false, 0;
    if c.mLoop.mSocketWatches[i].IsWatching() {
      if c.mLoop.mSocketWatches[i].handler == ClientHandler {
        read, write, wants := c.SocketEvents();
        EventsAskedInv(c.cfg, s, wants);
        EvolvesOnward(s, c.Snap());
      } else {
        read, write := *, *;
      }
    }
  }

  /** FD_SET for everything that the handlers want to be told of. */
  method Collect(c: Client) returns (asked: Fds, ghost turns: seq<State>, ghost wishes: seq<Wish>)
    requires c.Valid() && AtRest(c.Snap())
    modifies c`history
    ensures c.Valid() && AtRest(c.Snap()) && Onward(old(c.Snap()), c.Snap())
    ensures WishesMade(turns, wishes, WATCH_COUNT) && turns[0] == old(c.Snap()) && turns[WATCH_COUNT] == c.Snap()
    ensures asked == WishedFor(c.mLoop.watches, wishes)
    ensures forall fd :: fd in asked.toRead <==>
              exists i | 0 <= i < WATCH_COUNT :: wishes[i].read && c.mLoop.watches[i].socketFd == fd
    ensures forall fd :: fd in asked.toWrite <==>
              exists i | 0 <= i < WATCH_COUNT :: wishes[i].write && c.mLoop.watches[i].socketFd == fd
  {
    hide Inv, WishMade;
    ghost var s := c.Snap();
    OnwardRefl(s);
    var toRead: set<int>, toWrite: set<int> := {}, {};
    turns, wishes := [s], [];
    for i := 0 to WATCH_COUNT
      invariant c.Valid() && AtRest(c.Snap()) && Onward(s, c.Snap())
      invariant WishesMade(turns, wishes, i) && turns[0] == s && turns[i] == c.Snap()
      invariant Fds(toRead, toWrite) == WishedFor(c.mLoop.watches, wishes)
    {
      ghost var t := c.Snap();
      var read, write;
      ghost var wants: int;
      read, write, wants := AskSlot(c, i);
      OnwardTransitive(s, t, c.Snap());
      WishesStep(turns, wishes, i, Wish(read, write, wants), c.Snap());
      turns, wishes := turns + [c.Snap()], wishes + [Wish(read, write, wants)];
      toRead := toRead + if read then {c.mLoop.mSocketWatches[i].socketFd} else {};
      toWrite := toWrite + if write then {c.mLoop.mSocketWatches[i].socketFd} else {};
    }
    asked := Fds(toRead, toWrite);
  }

  // ----- rounds of the loop

  /** Why the loop is left, if it is; select may fail by itself or refuse its timeout. */
  datatype Ending = Unfinished | StopCalled | DeadlinePassed | NothingLeft | SelectFailed(rc: int)

  /**
   What one round of the loop did: the state in which it had looked at the clock, the turns of the timer slots with the
   times that passed, the states in which the watch slots were asked and what they wished for, the timeout of select,
   what it found, the state in which it returned, the turns of the watch slots, and how the round ended.
   */
  datatype Round = Round(begun: State, fired: seq<State>, ticks: seq<nat>, asking: seq<State>, wishes: seq<Wish>,
                         timeout: Timeval, found: Fds, polled: State, handled: seq<State>, why: Ending)

  /** Nothing is watched, and no timer ran when the round began. */
  ghost predicate NothingToDo(begun: State, fired: State) {
    !AnyActive(begun.table) && forall i | 0 <= i < |fired.watches| :: fired.watches[i].socketFd <= INVALID_FD
  }

  /** The deadline or an armed timer is overdue by a microsecond, so select refuses the timeout. */
  ghost predicate Overdue(t: Table, deadline: int) { !QuietFor(t, deadline, 1 - NANOS_PER_MICRO) }

  /** For so many nanoseconds neither the deadline nor any timer is reached. */
  ghost predicate QuietFor(t: Table, deadline: int, nanos: int) {
    && t.clock + nanos <= deadline
    && forall i | 0 <= i < |t.timers| && t.timers[i].IsActive() :: t.clock + nanos <= t.timers[i].expiresAt
  }

  /** With nothing overdue, the timeout reaches no deadline and no timer, and a microsecond more would reach one. */
  ghost predicate TimeoutFits(t: Table, deadline: int, timeout: Timeval) {
    QuietFor(t, deadline, 0) ==>
      && QuietFor(t, deadline, Micros(timeout) * NANOS_PER_MICRO)
      && !QuietFor(t, deadline, (Micros(timeout) + 1) * NANOS_PER_MICRO)
  }

  /** The firing pass of a round: every slot has its turn, and nothing that was due is still armed afterwards. */
  ghost predicate Fires(r: Round) {
    && FireTurns(r.fired, r.ticks, TIMER_COUNT) && r.fired[0] == r.begun
    && Settled(r.begun.table, r.fired[TIMER_COUNT].table, r.begun.table.clock, TIMER_COUNT)
  }

  /** Every handler is asked what it wants to be told of. */
  ghost predicate Asks(r: Round) {
    && |r.fired| == TIMER_COUNT + 1
    && WishesMade(r.asking, r.wishes, WATCH_COUNT) && r.asking[0] == r.fired[TIMER_COUNT]
  }

  /** select is asked for exactly that, for a timeout that fits, after a look at the clock, in `s`. */
  ghost predicate Polls(s: State, deadline: int, wishes: seq<Wish>, timeout: Timeval, found: Fds, rc: int, t: State) {
    && |wishes| <= |s.watches| && TimeoutFits(t.table, deadline, timeout)
    && exists elapsed: nat :: t == Log(ClockRead(s, elapsed), Polled(WishedFor(s.watches, wishes), timeout, found, rc))
  }

  /** The client in `s` goes through one round of a loop with this deadline, and comes out in `t`. */
  ghost predicate RoundMade(s: State, deadline: int, r: Round, t: State) {
    && (exists elapsed: nat :: r.begun == ClockRead(s, elapsed))
    && (r.why.DeadlinePassed? <==> r.begun.table.clock > deadline)
    && if r.why.DeadlinePassed? then t == r.begun
       else
         && Fires(r) && Asks(r)
         && (r.why.NothingLeft? <==> NothingToDo(r.begun, r.asking[WATCH_COUNT]))
         && if r.why.NothingLeft? then t == r.asking[WATCH_COUNT]
            else
              match r.why
              case SelectFailed(rc) =>
                && Polls(r.asking[WATCH_COUNT], deadline, r.wishes, r.timeout, r.found, rc, r.polled) && t == r.polled
                && (rc < 0 || Overdue(r.polled.table, deadline))
              case Unfinished =>
                && (exists rc: int ::
                      rc >= 0 && Polls(r.asking[WATCH_COUNT], deadline, r.wishes, r.timeout, r.found, rc, r.polled))
                && !Overdue(r.polled.table, deadline)
                && HandleTurns(r.handled, r.found, WATCH_COUNT) && r.handled[0] == r.polled && t == r.handled[WATCH_COUNT]
              case _ => false
  }

  /** Clock::now() in the loop. */
  method LookAtClock(c: Client) returns (now: int)
    requires c.Valid() && AtRest(c.Snap())
    modifies c.mLoop`mClock, c.mLoop`table
    ensures c.Valid() && AtRest(c.Snap()) && Onward(old(c.Snap()), c.Snap()) && now == c.mLoop.table.clock
    ensures exists elapsed: nat :: c.Snap() == ClockRead(old(c.Snap()), elapsed)
  {
    hide Inv;
    ghost var s := c.Snap();
    ghost var elapsed: nat;
    now, elapsed := c.mLoop.Now();
    ClockReadInv(c.cfg, s, elapsed);
    assert c.Snap() == ClockRead(s, elapsed);
  }

  /** select over what is asked for, until the deadline or the next expiry. */
  method Ask(c: Client, deadline: TimePoint, asked: Fds, ghost wishes: seq<Wish>)
    returns (why: Ending, timeout: Timeval, found: Fds, ghost rc: int)
    requires c.Valid() && AtRest(c.Snap()) && |wishes| == WATCH_COUNT && asked == WishedFor(c.mLoop.watches, wishes)
    modifies c`history, c.mLoop`mClock, c.mLoop`table
    ensures c.Valid() && AtRest(c.Snap()) && Onward(old(c.Snap()), c.Snap())
    ensures Polls(old(c.Snap()), deadline, wishes, timeout, found, rc, c.Snap())
    ensures found.toRead <= asked.toRead && found.toWrite <= asked.toWrite
    ensures why == if rc < 0 || Overdue(c.mLoop.table, deadline) then SelectFailed(rc) else Unfinished
  {
    hide Inv, EvolvesPast, Onward, WishedFor;
    ghost var s := c.Snap();
    var now := LookAtClock(c);
    ghost var l := c.Snap();
    timeout := c.mLoop.SelectTimeout(deadline, now);
    assert forall n :: c.mLoop.QuietFor(deadline, now, n) <==> QuietFor(c.mLoop.table, deadline, n);
    var code;
    code, found := c.Select(asked, timeout);
    rc := code;
    NotedInv(c.cfg, l, Polled(asked, timeout, found, rc));
    PolledOnward(l, Polled(asked, timeout, found, rc));
    OnwardTransitive(s, l, c.Snap());
    why := if code < 0 || !Selectable(timeout) then SelectFailed(code) else Unfinished;
  }

  lemma PolledOnward(s: State, e: Event)
    requires Evolves(s, Log(s, e))
    ensures Onward(s, Log(s, e))
  {
  }

  /** One round of a loop that has not been stopped; anything but `Unfinished` means that the loop is left. */
  method RunRound(c: Client, deadline: TimePoint) returns (why: Ending, ghost r: Round)
    requires c.Valid() && AtRest(c.Snap()) && c.mLoop.mRun
    modifies c, c.mLoop, c.mLoop.mTimers, c.mLoop.mSocketWatches, c.mMessageBus, c.mReconnectDelay
    ensures c.Valid() && AtRest(c.Snap()) && Onward(old(c.Snap()), c.Snap())
    ensures RoundMade(old(c.Snap()), deadline, r, c.Snap()) && why == r.why && !why.StopCalled?
  {
    hide Inv, Settled, FireTurns, HandleTurns, WishesMade, Onward, ClockRead, Overdue, Polls;
    ghost var s := c.Snap();
    var now := LookAtClock(c);
    ghost var o := c.Snap();
    r := Round(o, [], [], [], [], Timeval(0, 0), Fds({}, {}), o, [], DeadlinePassed);
    if now > deadline {
      return DeadlinePassed, r;
    }
    var activeTimers;
    ghost var fired: seq<State>, ticks: seq<nat>;
    activeTimers, fired, ticks := FirePass(c);
    OnwardTransitive(s, o, c.Snap());
    r := r.(fired := fired, ticks := ticks);
    ghost var f := c.Snap();
    why, r := FinishRound(c, deadline, activeTimers, r);
    OnwardTransitive(s, f, c.Snap());
  }

  /** The round after its firing pass. */
  method FinishRound(c: Client, deadline: TimePoint, activeTimers: bool, ghost r: Round)
    returns (why: Ending, ghost t: Round)
    requires c.Valid() && AtRest(c.Snap())
    requires |r.fired| == TIMER_COUNT + 1 && r.fired[TIMER_COUNT] == c.Snap() && Fires(r)
    requires activeTimers <==> AnyActive(r.begun.table)
    modifies c, c.mLoop, c.mLoop.mTimers, c.mLoop.mSocketWatches, c.mMessageBus, c.mReconnectDelay
    ensures c.Valid() && AtRest(c.Snap()) && Onward(old(c.Snap()), c.Snap())
    ensures t.begun == r.begun && t.fired == r.fired && t.ticks == r.ticks && Fires(t) && Asks(t)
    ensures why == t.why && (why.NothingLeft? <==> NothingToDo(t.begun, t.asking[WATCH_COUNT]))
    ensures match why
            case NothingLeft => c.Snap() == t.asking[WATCH_COUNT]
            case SelectFailed(rc) =>
              && Polls(t.asking[WATCH_COUNT], deadline, t.wishes, t.timeout, t.found, rc, t.polled) && c.Snap() == t.polled
              && (rc < 0 || Overdue(t.polled.table, deadline))
            case Unfinished =>
              && (exists rc: int ::
                    rc >= 0 && Polls(t.asking[WATCH_COUNT], deadline, t.wishes, t.timeout, t.found, rc, t.polled))
              && !Overdue(t.polled.table, deadline)
              && HandleTurns(t.handled, t.found, WATCH_COUNT)
              && t.handled[0] == t.polled && c.Snap() == t.handled[WATCH_COUNT]
            case _ => false
  {
    hide Inv, Settled, FireTurns, HandleTurns, WishedFor, Onward, ClockRead, Overdue, Polls;
    ghost var f := c.Snap();
    var asked;
    ghost var asking: seq<State>, wishes: seq<Wish>;
    asked, asking, wishes := Collect(c);
    ghost var a := c.Snap();
    t := r.(asking := asking, wishes := wishes);
    var nfds := HighestFd(c.mLoop);
    FiredSome(r.begun, a, activeTimers, nfds);
    if nfds == INVALID_FD && !activeTimers {
      why, t := NothingLeft, t.(why := NothingLeft);
      return;
    }
    var timeout, found;
    ghost var rc: int;
    why, timeout, found, rc := Ask(c, deadline, asked, wishes);
    ghost var p := c.Snap();
    OnwardTransitive(f, a, p);
    t := t.(timeout := timeout, found := found, polled := p, why := why);
    if why.Unfinished? {
      ghost var handled := HandlePass(c, found);
      OnwardTransitive(f, p, c.Snap());
      t := t.(handled := handled);
    }
  }

  lemma FiredSome(o: State, f: State, activeTimers: bool, nfds: int)
    requires activeTimers <==> AnyActive(o.table)
    requires nfds == INVALID_FD <==> forall i | 0 <= i < |f.watches| :: f.watches[i].socketFd <= INVALID_FD
    ensures NothingToDo(o, f) <==> nfds == INVALID_FD && !activeTimers
  {
  }

  /** Round after round, each but the last going on to the next. */
  ghost predicate RoundsMade(deadline: int, rounds: seq<Round>, points: seq<State>) {
    && |points| == |rounds| + 1
    && forall i | 0 <= i < |rounds| ::
         RoundMade(points[i], deadline, rounds[i], points[i + 1]) && (i + 1 < |rounds| ==> rounds[i].why.Unfinished?)
  }

  lemma {:induction false} RoundsStep(deadline: int, rounds: seq<Round>, points: seq<State>, r: Round, t: State)
    requires RoundsMade(deadline, rounds, points) && (rounds != [] ==> rounds[|rounds| - 1].why.Unfinished?)
    requires RoundMade(points[|rounds|], deadline, r, t)
    ensures RoundsMade(deadline, rounds + [r], points + [t])
  {
    hide RoundMade;
    var rs, ps := rounds + [r], points + [t];
    forall i | 0 <= i < |rs|
      ensures RoundMade(ps[i], deadline, rs[i], ps[i + 1]) && (i + 1 < |rs| ==> rs[i].why.Unfinished?)
    {
      if i < |rounds| {
        assert rs[i] == rounds[i] && ps[i] == points[i] && ps[i + 1] == points[i + 1];
      }
    }
  }

  /** The loop goes on as long as its last round says so, and is left for the reason that round gives, or when stopped. */
  ghost predicate Justified(why: Ending, running: bool, rounds: seq<Round>, most: nat) {
    match why
    case Unfinished => running && |rounds| == most && (rounds != [] ==> rounds[most - 1].why.Unfinished?)
    case StopCalled => !running && (rounds != [] ==> rounds[|rounds| - 1].why.Unfinished?)
    case _ => rounds != [] && rounds[|rounds| - 1].why == why
  }

  /**
   runUntil, observed for a given number of rounds: every round is a whole one. The loop ends when it is stopped, the
   deadline has passed, nothing is left to wait for, or select fails; an overdue timer makes select fail.
   */
  method RunUntil(c: Client, deadline: TimePoint, most: nat)
    returns (why: Ending, ghost rounds: seq<Round>, ghost points: seq<State>)
    requires c.Valid() && AtRest(c.Snap())
    modifies c, c.mLoop, c.mLoop.mTimers, c.mLoop.mSocketWatches, c.mMessageBus, c.mReconnectDelay
    ensures c.Valid() && AtRest(c.Snap()) && Onward(old(c.Snap()), c.Snap())
    ensures RoundsMade(deadline, rounds, points) && points[0] == old(c.Snap()) && points[|rounds|] == c.Snap()
    ensures |rounds| <= most && Justified(why, c.mLoop.mRun, rounds, most)
  {
    hide Inv, RoundMade, Onward;
    ghost var s := c.Snap();
    OnwardRefl(s);
    why, rounds, points := Unfinished, [], [s];
    var left := most;
    while left > 0 && why.Unfinished? && c.mLoop.mRun
      invariant c.Valid() && AtRest(c.Snap()) && Onward(s, c.Snap())
      invariant RoundsMade(deadline, rounds, points) && points[0] == s && points[|rounds|] == c.Snap()
      invariant |rounds| + left == most && !why.StopCalled?
      invariant if rounds == [] then why.Unfinished? else rounds[|rounds| - 1].why == why
      decreases left
    {
      ghost var t := c.Snap();
      ghost var round: Round;
      why, round := RunRound(c, deadline);
      OnwardTransitive(s, t, c.Snap());
      RoundsStep(deadline, rounds, points, round, c.Snap());
      rounds, points := rounds + [round], points + [c.Snap()];
      left := left - 1;
    }
    if why.Unfinished? && !c.mLoop.mRun {
      why := StopCalled;
    }
  }

  // ----- whole runs

  /** What happens next in a run: a call by the user, or the loop for some rounds; callbacks may make so many calls. */
  datatype Move = UserMoves(calls: nat) | LoopRuns(deadline: TimePoint, most: nat, calls: nat)

  /** What became of it. */
  datatype Made = UserMoved | LoopRan(why: Ending, running: bool, rounds: seq<Round>, points: seq<State>)

  ghost predicate MoveMade(move: Move, made: Made, s: State, t: State) {
    match (move, made)
    case (UserMoves(calls), UserMoved) => Evolves(s.(reentries := calls + 1), t) && t.reentries <= calls
    case (LoopRuns(deadline, most, calls), LoopRan(why, running, rounds, points)) =>
      && RoundsMade(deadline, rounds, points) && points[0] == s.(reentries := calls) && points[|rounds|] == t
      && |rounds| <= most && Justified(why, running, rounds, most)
    case _ => false
  }

  /** How many calls the user is going to make in the next step, callbacks included. */
  method AllowCalls(c: Client, reentries: nat)
    requires c.Valid() && AtRest(c.Snap())
    modifies c`mReentries
    ensures c.Valid() && AtRest(c.Snap()) && c.Snap() == old(c.Snap()).(reentries := reentries)
    ensures Onward(old(c.Snap()), c.Snap())
  {
    CallsAllowed(c.cfg, c.Snap(), reentries);
    c.mReentries := reentries;
  }

  method TakeStep(c: Client, move: Move) returns (ghost made: Made)
    requires c.Valid() && AtRest(c.Snap())
    modifies c, c.mLoop, c.mLoop.mTimers, c.mLoop.mSocketWatches, c.mMessageBus, c.mReconnectDelay
    ensures c.Valid() && AtRest(c.Snap()) && Onward(old(c.Snap()), c.Snap())
    ensures MoveMade(move, made, old(c.Snap()), c.Snap())
  {
    hide Inv, EvolvesPast, Onward, RoundsMade, Justified;
    ghost var s := c.Snap();
    match move {
      case UserMoves(calls) =>
        AllowCalls(c, calls + 1);
        ghost var t := c.Snap();
        c.UserStep();
        EvolvesOnward(t, c.Snap());
        OnwardTransitive(s, t, c.Snap());
        made := UserMoved;
      case LoopRuns(deadline, most, calls) =>
        AllowCalls(c, calls);
        ghost var t := c.Snap();
        var why;
        ghost var rounds: seq<Round>, points: seq<State>;
        why, rounds, points := RunUntil(c, deadline, most);
        OnwardTransitive(s, t, c.Snap());
        made := LoopRan(why, c.mLoop.mRun, rounds, points);
    }
  }

  /** The points between the first `n` moves of a run: all main results hold at each, and each is onward of those before. */
  ghost predicate RunMade(cfg: Config, moves: seq<Move>, made: seq<Made>, points: seq<State>, n: nat) {
    && |points| == n + 1 && |made| == n <= |moves|
    && (forall i | 0 <= i < n :: MoveMade(moves[i], made[i], points[i], points[i + 1]))
    && (forall i | 0 <= i <= n :: MainResults(cfg, points[i]) && AtRest(points[i]))
    && (forall i, j | 0 <= i <= j <= n :: Onward(points[i], points[j]))
  }

  lemma {:induction false} RunStep(cfg: Config, moves: seq<Move>, made: seq<Made>, points: seq<State>, n: nat,
                                   m: Made, t: State)
    requires RunMade(cfg, moves, made, points, n) && n < |moves|
    requires MoveMade(moves[n], m, points[n], t) && MainResults(cfg, t) && AtRest(t) && Onward(points[n], t)
    ensures RunMade(cfg, moves, made + [m], points + [t], n + 1)
  {
    hide MoveMade, MainResults, Onward;
    var ms, ps := made + [m], points + [t];
    OnwardRefl(t);
    forall i | 0 <= i < n + 1 ensures MoveMade(moves[i], ms[i], ps[i], ps[i + 1]) {
      if i < n {
        assert ms[i] == made[i] && ps[i] == points[i] && ps[i + 1] == points[i + 1];
      }
    }
    forall i | 0 <= i <= n + 1 ensures MainResults(cfg, ps[i]) && AtRest(ps[i]) {
      if i <= n {
        assert ps[i] == points[i];
      }
    }
    forall i, j | 0 <= i <= j <= n + 1 ensures Onward(ps[i], ps[j]) {
      if j <= n {
        assert ps[i] == points[i] && ps[j] == points[j];
      } else if i <= n {
        assert ps[i] == points[i];
        OnwardTransitive(points[i], points[n], t);
      }
    }
  }

  lemma {:induction false} RunBegins(cfg: Config, moves: seq<Move>, s: State)
    requires Inv(cfg, s) && AtRest(s)
    ensures RunMade(cfg, moves, [], [s], 0)
  {
    InvariantMeans(cfg, s);
    OnwardRefl(s);
  }

  /**
   Any run at all: a new client on a new loop, and any moves one after the other, with any answers from outside. Each
   move is made in full. At every point between two moves everything the invariant means holds; from each point to any
   later one nothing recorded is taken back, and a client that is down stays down until it is told to connect.
   */
  method EveryRun(cfg: Config, keepAlive: Option<Message>, dsn: Dsns.Dsn, connectTimeout: int, responseTimeout: int,
                  moves: seq<Move>)
    returns (c: Client, ghost made: seq<Made>, ghost points: seq<State>)
    requires cfg.loginRequest.typeName.LoginRequest?
    ensures c.Valid() && c.cfg == cfg
    ensures RunMade(cfg, moves, made, points, |moves|) && points[0] == InitialState() && points[|moves|] == c.Snap()
  {
    hide Inv, MoveMade, Onward, MainResults;
    var loop := new SelectEventLoop();
    c := new Client(cfg, keepAlive, dsn, connectTimeout, responseTimeout, loop);
    NewClientRests(cfg, loop.table, loop.watches);
    made, points := [], [c.Snap()];
    RunBegins(cfg, moves, c.Snap());
    for i := 0 to |moves|
      invariant c.Valid() && c.cfg == cfg && fresh(c) && fresh(c.mLoop) && fresh(c.mLoop.mTimers)
      invariant fresh(c.mLoop.mSocketWatches) && fresh(c.mMessageBus) && fresh(c.mReconnectDelay)
      invariant RunMade(cfg, moves, made, points, i) && points[0] == InitialState() && points[i] == c.Snap()
    {
      ghost var m := TakeStep(c, moves[i]);
      InvariantMeans(cfg, c.Snap());
      RunStep(cfg, moves, made, points, i, m, c.Snap());
      made, points := made + [m], points + [c.Snap()];
    }
  }

  lemma NewClientRests(cfg: Config, table: Table, watches: seq<SocketWatch>)
    requires TableOk(table)
    ensures AtRest(NewClient(table, watches))
  {
  }
}
