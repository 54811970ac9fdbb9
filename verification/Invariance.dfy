/** Every step of the client keeps the invariant, and leaves alone what belongs to the calls around it. */
module Invariance {
  import opened Wrappers
  import opened Bytes
  import opened Envelopes
  import opened Proto
  import opened MessageBuses
  import opened Histories
  import opened Backoff
  import opened Time
  import opened Timers
  import opened Watches
  import opened Machine

  // ----- what any stretch of execution inside a call leaves alone

  lemma {:induction false} LaterTransitive(a: State, b: State, c: State)
    requires Later(a, b) && Later(b, c)
    ensures Later(a, c)
  {
    LedgerTransitive(a.table, b.table, c.table);
    ExtendsTransitive(a.history, b.history, c.history);
  }

  lemma LaterRefl(s: State)
    ensures Later(s, s)
  {
  }

  lemma EvolvesRefl(s: State)
    ensures Evolves(s, s)
  {
  }

  lemma PastRefl(n: nat, s: State)
    requires n <= |s.contexts|
    ensures EvolvesPast(n, s, s)
  {
  }

  lemma FramesTransitive(n: nat, a: State, b: State, c: State)
    requires FramesKept(n, a, b) && FramesKept(n, b, c)
    ensures FramesKept(n, a, c)
  {
  }

  lemma {:induction false} RequestsTransitive(a: State, b: State, c: State)
    requires RequestsKept(a, b) && RequestsKept(b, c)
    ensures RequestsKept(a, c)
  {
    forall i | 0 <= i < |a.requests| ensures SameExpectation(a.requests[i], c.requests[i]) {
      assert SameExpectation(a.requests[i], b.requests[i]) && SameExpectation(b.requests[i], c.requests[i]);
    }
  }

  lemma BusTransitive(a: State, b: State, c: State)
    requires BusKept(a, b) && BusKept(b, c)
    ensures BusKept(a, c)
  {
  }

  lemma LinkTransitive(a: State, b: State, c: State)
    requires LinkKept(a, b) && LinkKept(b, c)
    ensures LinkKept(a, c)
  {
  }

  lemma {:induction false} UndisturbedTransitive(n: nat, a: State, b: State, c: State)
    requires Undisturbed(n, a, b) && Undisturbed(n, b, c)
    ensures Undisturbed(n, a, c)
  {
    FramesTransitive(n, a, b, c);
    RequestsTransitive(a, b, c);
    LinkTransitive(a, b, c);
    BusTransitive(a, b, c);
    LedgerTransitive(a.table, b.table, c.table);
    ExtendsTransitive(a.history, b.history, c.history);
  }

  /** Stretches of execution compose. */
  lemma {:induction false} PastTransitive(n: nat, a: State, b: State, c: State)
    requires EvolvesPast(n, a, b) && EvolvesPast(n, b, c)
    ensures EvolvesPast(n, a, c)
  {
    UndisturbedTransitive(n, a, b, c);
    assert LinkKept(a, b) && LinkKept(b, c);
  }

  lemma UndisturbedNarrow(n: nat, m: nat, a: State, b: State)
    requires n <= m && Undisturbed(m, a, b)
    ensures Undisturbed(n, a, b)
  {
  }

  /** A call made later knows more frames, so it also leaves the earlier ones alone. */
  lemma {:induction false} PastNarrow(n: nat, m: nat, a: State, b: State)
    requires n <= m && EvolvesPast(m, a, b)
    ensures EvolvesPast(n, a, b)
  {
    UndisturbedNarrow(n, m, a, b);
  }

  lemma {:induction false} EvolvesTransitive(a: State, b: State, c: State)
    requires Evolves(a, b) && Evolves(b, c)
    ensures Evolves(a, c)
  {
    PastNarrow(|a.contexts|, |b.contexts|, b, c);
    PastTransitive(|a.contexts|, a, b, c);
  }

  lemma EvolvesExtends(s: State, t: State)
    requires Evolves(s, t)
    ensures Extends(s.history, t.history)
  {
  }

  // ----- what a step does not touch

  predicate AboutQueue(e: Event) { e.Accepted? || e.Popped? || e.Routed? }

  predicate AboutBus(e: Event) { (e.Routed? && e.route.ToBus?) || e.Enlisted? || e.Handed? }

  predicate AboutWire(e: Event) {
    e.SessionReset? || e.Published? || e.Accepted? || (e.Handshake? && (e.step.LoginPublish? || e.step.LoginAccept?))
  }

  predicate AboutBackoff(e: Event) { e.ReconnectFailed? || e.ReconnectSucceeded? || e.DelayArmed? }

  /** The parts of the invariant that an event says nothing about, over fields that stay the same. */
  lemma Bystanders(cfg: Config, s: State, t: State, e: Event)
    requires t.history == Then(s.history, e)
    ensures QueueInv(cfg, s) && t.queue == s.queue && !AboutQueue(e) ==> QueueInv(cfg, t)
    ensures BusInv(s) && t.marks.open == s.marks.open && t.subscriptions == s.subscriptions && !AboutBus(e) ==> BusInv(t)
    ensures WireInv(cfg, s) && t.session == s.session && !AboutWire(e) ==> WireInv(cfg, t)
    ensures BackoffInv(s) && t.delay == s.delay && !AboutBackoff(e) ==> BackoffInv(t)
    ensures CallsInv(s) && t.table == s.table && t.marks.firedBefore == s.marks.firedBefore && !e.TimerCalled? ==> CallsInv(t)
    ensures !e.DelayArmed? ==>
              (TermsInv(s) && t.table == s.table && t.delay == s.delay && t.marks.startedBefore == s.marks.startedBefore ==>
                 TermsInv(t))
    ensures RequestsInv(cfg, s) && t.requests == s.requests && t.expected == s.expected && !e.Response? ==> RequestsInv(cfg, t)
    ensures ContextsInv(s) && t.contexts == s.contexts && t.userData == s.userData && !e.Handshake? ==> ContextsInv(t)
  {
  }

  /** The same for two events. */
  lemma {:induction false} BystandersTwice(cfg: Config, s: State, t: State, e: Event, f: Event)
    requires t.history == Then(Then(s.history, e), f)
    ensures QueueInv(cfg, s) && t.queue == s.queue && !AboutQueue(e) && !AboutQueue(f) ==> QueueInv(cfg, t)
    ensures !AboutBus(e) && !AboutBus(f) ==>
              (BusInv(s) && t.marks.open == s.marks.open && t.subscriptions == s.subscriptions ==> BusInv(t))
    ensures WireInv(cfg, s) && t.session == s.session && !AboutWire(e) && !AboutWire(f) ==> WireInv(cfg, t)
    ensures BackoffInv(s) && t.delay == s.delay && !AboutBackoff(e) && !AboutBackoff(f) ==> BackoffInv(t)
    ensures !e.TimerCalled? && !f.TimerCalled? ==>
              (CallsInv(s) && t.table == s.table && t.marks.firedBefore == s.marks.firedBefore ==> CallsInv(t))
    ensures !e.DelayArmed? && !f.DelayArmed? ==>
              (TermsInv(s) && t.table == s.table && t.delay == s.delay && t.marks.startedBefore == s.marks.startedBefore ==>
                 TermsInv(t))
    ensures !e.Response? && !f.Response? ==>
              (RequestsInv(cfg, s) && t.requests == s.requests && t.expected == s.expected ==> RequestsInv(cfg, t))
    ensures !e.Handshake? && !f.Handshake? ==>
              (ContextsInv(s) && t.contexts == s.contexts && t.userData == s.userData ==> ContextsInv(t))
  {
    hide QueueInv, BusInv, WireInv, BackoffInv, CallsInv, TermsInv, RequestsInv, ContextsInv;
    var m := t.(history := Then(s.history, e));
    Bystanders(cfg, s, m, e);
    Bystanders(cfg, m, t, f);
  }

  /** The same for a step that records nothing. */
  lemma Unrecorded(cfg: Config, s: State, t: State)
    requires t.history == s.history
    ensures QueueInv(cfg, s) && t.queue == s.queue ==> QueueInv(cfg, t)
    ensures BusInv(s) && t.marks.open == s.marks.open && t.subscriptions == s.subscriptions ==> BusInv(t)
    ensures WireInv(cfg, s) && t.session == s.session ==> WireInv(cfg, t)
    ensures BackoffInv(s) && t.delay == s.delay ==> BackoffInv(t)
    ensures CallsInv(s) && t.table == s.table && t.marks.firedBefore == s.marks.firedBefore ==> CallsInv(t)
    ensures TermsInv(s) && t.table == s.table && t.delay == s.delay && t.marks.startedBefore == s.marks.startedBefore ==>
              TermsInv(t)
    ensures RequestsInv(cfg, s) && t.requests == s.requests && t.expected == s.expected ==> RequestsInv(cfg, t)
    ensures ContextsInv(s) && t.contexts == s.contexts && t.userData == s.userData ==> ContextsInv(t)
  {
  }

  lemma SameLink(s: State, t: State)
    requires LinkInv(s)
    requires t.table == s.table && t.reconnectId == s.reconnectId && t.miscId == s.miscId && t.watches == s.watches
    requires t.connected == s.connected && t.reconnecting == s.reconnecting && t.marks.linkUp == s.marks.linkUp
    requires t.marks.onStack == s.marks.onStack && t.marks.onMisc == s.marks.onMisc && t.marks.ready == s.marks.ready
    requires t.socket == s.socket && t.marks.room == s.marks.room
    requires t.userData == s.userData || !t.userData.Context?
    requires t.marks.disciplined ==> s.marks.disciplined
    ensures LinkInv(t)
  {
  }

  /** A step that is about neither frames nor requests nor dispatches. */
  lemma {:induction false} StepEvolves(s: State, t: State, e: Event)
    requires t.history == Then(s.history, e)
    requires !e.Handshake? && !e.Response? && !e.Stray? && !e.Handed?
    requires t.contexts == s.contexts && t.userData == s.userData && t.requests == s.requests && t.expected == s.expected
    requires t.marks.open == s.marks.open && (s.marks.open != [] ==> t.subscriptions == s.subscriptions)
    requires LinkKept(s, t) && LedgerGrows(s.table, t.table) && t.reentries <= s.reentries
    ensures Evolves(s, t)
  {
    Unrelated(s.history, e);
  }

  lemma SilentEvolves(s: State, t: State)
    requires t.history == s.history
    requires t.contexts == s.contexts && t.userData == s.userData && t.requests == s.requests && t.expected == s.expected
    requires t.marks.open == s.marks.open && t.subscriptions == s.subscriptions
    requires LinkKept(s, t) && LedgerGrows(s.table, t.table) && t.reentries <= s.reentries
    ensures Evolves(s, t)
  {
  }

  /** An event that says nothing about handshakes or answers leaves those readings as they were. */
  lemma Unrelated(h: History, e: Event)
    requires !e.Handshake? && !e.Response?
    ensures forall t :: PhaseOf(Then(h, e), t) == PhaseOf(h, t)
    ensures forall i :: ResponsesTo(Then(h, e), i) == ResponsesTo(h, i)
    ensures !e.Stray? ==> StraysOf(Then(h, e)) == StraysOf(h)
    ensures !e.Popped? ==> PoppedOf(Then(h, e)) == PoppedOf(h)
  {
  }

  // ----- the steps keep the invariant

  lemma {:induction false} NewClientInv(cfg: Config, table: Table, watches: seq<SocketWatch>)
    requires TableOk(table) && |watches| == WATCH_COUNT && Distinct(watches)
    requires forall i | 0 <= i < TIMER_COUNT :: table.timers[i].callback.NoCallback? || table.timers[i].callback.ForeignTimer?
    ensures Inv(cfg, NewClient(table, watches)) && AtRest(NewClient(table, watches))
  {
    var s := NewClient(table, watches);
    assert SessionOf(s.history) == None && AcceptedOf(s.history) == PoppedOf(s.history) == [];
    assert RoutesOf(cfg.ownTopic, []) == [];
  }

  /** Every slot that is taken was taken by the client, if the rules are kept; so there is room. */
  ghost predicate OwnTimersOnly(t: Table)
    requires TableOk(t)
  {
    forall i | 0 <= i < TIMER_COUNT :: !t.timers[i].callback.ForeignTimer?
  }

  ghost function OffStack(s: State): State { s.(marks := s.marks.(onStack := false)) }

  /** With only the client's own timers on the loop, two slots are taken at most. */
  lemma {:induction false} RoomForTimer(s: State)
    requires TimersInv(s)
    requires forall i | 0 <= i < TIMER_COUNT :: !s.table.timers[i].callback.ForeignTimer?
    ensures StartId(s.table) != INVALID_TIMER
  {
    assert !s.table.timers[0].IsActive() || !s.table.timers[1].IsActive() || !s.table.timers[2].IsActive();
  }

  /** The timers after arming the reconnect timer when none is armed. */
  lemma {:induction false} ArmedLink(s: State, t: State, elapsed: nat, delay: int)
    requires TimersInv(OffStack(s)) && (s.marks.disciplined ==> OwnTimersOnly(s.table))
    requires forall i | 0 <= i < TIMER_COUNT :: s.table.timers[i].callback != ReconnectTimer
    requires t.table == Started(s.table, elapsed, delay, ReconnectTimer)
    requires t.reconnectId == StartId(s.table) && t.miscId == s.miscId
    requires t.reconnecting && !t.marks.onStack && t.marks.disciplined == s.marks.disciplined
    requires t.marks.disciplined ==> !t.marks.ready && (t.marks.linkUp ==> t.connected)
    ensures TimersInv(t) && RulesInv(t) && LedgerGrows(s.table, t.table)
  {
    hide TableOk, Started, LedgerGrows;
    if s.marks.disciplined {
      RoomForTimer(OffStack(s));
    }
    Starting(s.table, elapsed, delay, ReconnectTimer);
  }

  // ----- the terms on which the client's timers are started

  /** Starting one of the client's timers, or somebody else's. */
  lemma {:induction false} TermsStart(h: History, t: Table, bound: int, from: nat,
                                      elapsed: nat, delay: int, callback: Callback, h1: History)
    requires TableOk(t) && TermsOk(h, t, bound, from) && callback != NoCallback
    requires forall k: nat | Some(k) != NextTicket(t) :: DrawnFor(h1, k) == DrawnFor(h, k)
    requires callback == MiscTimer ==> delay == MISC_PERIOD
    requires callback == ReconnectTimer ==> 0 <= delay < bound && DrawnFor(h1, |t.tickets|) == Some(delay)
    ensures TableOk(Started(t, elapsed, delay, callback)) && TermsOk(h1, Started(t, elapsed, delay, callback), bound, from)
  {
    StartOk(t, elapsed, delay, callback);
    var u := Started(t, elapsed, delay, callback);
    assert forall k | 0 <= k < |t.tickets| :: u.tickets[k] == t.tickets[k];
    assert forall i | 0 <= i < TIMER_COUNT && i != StartId(t) :: u.timers[i] == t.timers[i] && u.holder[i] == t.holder[i];
  }

  lemma {:induction false} TermsStop(h: History, t: Table, bound: int, from: nat, id: int)
    requires TableOk(t) && TermsOk(h, t, bound, from)
    ensures TableOk(Cancelled(t, id)) && TermsOk(h, Cancelled(t, id), bound, from)
  {
    ReleaseOk(t, id, Stopped);
  }

  lemma {:induction false} TermsFire(h: History, t: Table, bound: int, from: nat, id: int, elapsed: nat)
    requires TableOk(t) && TermsOk(h, t, bound, from)
    requires 0 <= id < TIMER_COUNT && t.timers[id].IsActive() && t.timers[id].expiresAt <= t.clock + elapsed
    ensures TableOk(Expired(t, id, elapsed)) && TermsOk(h, Expired(t, id, elapsed), bound, from)
  {
    ExpireOk(t, id, elapsed);
  }

  /** With no reconnect timer armed, the bound may change. */
  lemma TermsRebound(h: History, t: Table, bound: int, from: nat, other: int)
    requires TableOk(t) && TermsOk(h, t, bound, from)
    requires forall i | 0 <= i < TIMER_COUNT :: t.timers[i].callback != ReconnectTimer
    ensures TermsOk(h, t, other, from)
  {
  }

  /** Drawing a delay and starting the reconnect timer, whatever else is recorded on the way. */
  lemma {:induction false} TermsArm(h: History, t: Table, bound: int, from: nat, elapsed: nat, delay: int)
    requires TableOk(t) && TermsOk(h, t, bound, from) && 0 <= delay < bound
    ensures TableOk(Started(t, elapsed, delay, ReconnectTimer))
    ensures TermsOk(Then(h, DelayArmed(NextTicket(t), delay)), Started(t, elapsed, delay, ReconnectTimer), bound, from)
  {
    var h1 := Then(h, DelayArmed(NextTicket(t), delay));
    if NextTicket(t).None? {
      assert forall k: nat :: DrawnFor(h1, k) == DrawnFor(h, k);
    } else {
      TermsStart(h, t, bound, from, elapsed, delay, ReconnectTimer, h1);
    }
  }

  lemma {:induction false} DroppedInv(cfg: Config, s: State, closed: bool)
    requires Inv(cfg, s)
    ensures Inv(cfg, Dropped(s, closed)) && Evolves(s, Dropped(s, closed))
  {
    Unrecorded(cfg, s, Dropped(s, closed));
    SilentEvolves(s, Dropped(s, closed));
  }

  lemma {:induction false} AbandonedInv(cfg: Config, s: State, rc: int, closed: bool)
    requires Inv(cfg, s) && !s.userData.Context?
    ensures Inv(cfg, Abandoned(s, rc, closed)) && Evolves(s, Abandoned(s, rc, closed))
  {
    var t := Abandoned(s, rc, closed);
    LedgerRefl(s.table);
    Bystanders(cfg, s, t, Library(LeaveBroker, rc));
    StepEvolves(s, t, Library(LeaveBroker, rc));
  }

  lemma {:induction false} SessionCutInv(cfg: Config, s: State)
    requires Inv(cfg, s)
    ensures Inv(cfg, SessionCut(s)) && Evolves(s, SessionCut(s))
  {
    var t := SessionCut(s);
    Bystanders(cfg, s, t, SessionReset);
    SameLink(s, t);
    StepEvolves(s, t, SessionReset);
  }

  lemma {:induction false} LostEvolves(s: State, luck: Luck)
    requires TableOk(s.table) && !s.reconnecting && (s.marks.disciplined ==> !s.marks.linkUp)
    ensures Evolves(s, LostConnection(s, luck))
  {
    var t := LostConnection(s, luck);
    var m := ReconnectArmed(s, luck.elapsed, luck.delay).(connected := false, marks := s.marks.(ready := false));
    Starting(s.table, luck.elapsed, luck.delay, ReconnectTimer);
    hide TableOk, Started, LedgerGrows, Unwatch, NextTicket;
    LedgerRefl(t.table);
    StepEvolves(s, m, DelayArmed(NextTicket(s.table), luck.delay));
    StepEvolves(m, t, SessionReset);
    EvolvesTransitive(s, m, t);
  }

  lemma {:induction false} LostRecord(cfg: Config, s: State, t: State, delay: int)
    requires WireInv(cfg, s) && BackoffInv(s) && 0 <= delay < s.delay
    requires t.history == Then(Then(s.history, DelayArmed(NextTicket(s.table), delay)), SessionReset)
    requires t.session == None && t.delay == s.delay
    ensures WireInv(cfg, t) && BackoffInv(t)
  {
    var m := s.(history := Then(s.history, DelayArmed(NextTicket(s.table), delay)));
    Bystanders(cfg, s, m, DelayArmed(NextTicket(s.table), delay));
    Bystanders(cfg, m, t, SessionReset);
  }

  lemma {:induction false} LostTerms(s: State, luck: Luck)
    requires TermsInv(s) && !s.reconnecting && 0 <= luck.delay < s.delay
    ensures TermsInv(LostConnection(s, luck))
  {
    TermsArm(s.history, s.table, s.delay, s.marks.startedBefore, luck.elapsed, luck.delay);
    var h := Then(s.history, DelayArmed(NextTicket(s.table), luck.delay));
    assert forall k: nat :: DrawnFor(Then(h, SessionReset), k) == DrawnFor(h, k);
  }

  lemma {:induction false} LostCalls(s: State, luck: Luck)
    requires TableOk(s.table) && CallsInv(s) && !s.reconnecting
    ensures CallsInv(LostConnection(s, luck))
  {
    CallsStart(CallsOf(s), s.table, luck.elapsed, luck.delay, ReconnectTimer);
    assert CalledOf(LostConnection(s, luck).history.before) == CalledOf(s.history);
  }

  lemma LostPopsNothing(s: State, luck: Luck)
    requires TableOk(s.table)
    ensures var t := LostConnection(s, luck);
            t.reconnecting && t.marks.linkUp == s.marks.linkUp && PoppedOf(t.history) == PoppedOf(s.history)
  {
  }

  lemma {:induction false} LostConnectionInv(cfg: Config, s: State, luck: Luck)
    requires Inv(cfg, s) && !s.marks.linkUp && 0 <= luck.delay < s.delay
    ensures Inv(cfg, LostConnection(s, luck)) && Evolves(s, LostConnection(s, luck))
  {
    hide TableOk, CallsOk, TermsOk, Started, Distinct, WatchMap, NextTicket, LedgerGrows;
    if s.reconnecting {
      EvolvesRefl(s);
    } else {
      var t := LostConnection(s, luck);
      LostEvolves(s, luck);
      ArmedLink(s, t, luck.elapsed, luck.delay);
      UnwatchRefinesMap(s.watches, s.socket);
      LostCalls(s, luck);
      LostTerms(s, luck);
      LostRecord(cfg, s, t, luck.delay);
      BystandersTwice(cfg, s, t.(table := s.table), DelayArmed(NextTicket(s.table), luck.delay), SessionReset);
      Unrecorded(cfg, t.(table := s.table), t);
    }
  }

  /** Stopping the timers of a client that is not reconnecting. */
  lemma {:induction false} ClearedLink(s: State, t: State)
    requires TimersInv(s) && RulesInv(s) && (s.marks.disciplined ==> !s.reconnecting)
    requires t.table == Cleared(s) && t.reconnectId == s.reconnectId && t.miscId == s.miscId
    requires t.reconnecting == s.reconnecting && t.marks.onStack == s.marks.onStack && t.marks.disciplined == s.marks.disciplined
    requires !t.marks.ready && !t.marks.linkUp
    ensures TimersInv(t) && RulesInv(t)
  {
    hide TableOk, Cancelled, LedgerGrows;
    Stopping(s.table, s.reconnectId);
    Stopping(Cancelled(s.table, s.reconnectId), s.miscId);
  }

  lemma {:induction false} ClearedCalls(s: State)
    requires CallsInv(s) && TableOk(s.table)
    ensures CallsOk(CallsOf(s), Cleared(s))
  {
    Stopping(s.table, s.reconnectId);
    CallsStop(CallsOf(s), s.table, s.reconnectId);
    CallsStop(CallsOf(s), Cancelled(s.table, s.reconnectId), s.miscId);
  }

  lemma {:induction false} ClearedTerms(s: State)
    requires TermsInv(s)
    ensures TableOk(Cleared(s)) && TermsOk(s.history, Cleared(s), s.delay, s.marks.startedBefore)
  {
    TermsStop(s.history, s.table, s.delay, s.marks.startedBefore, s.reconnectId);
    TermsStop(s.history, Cancelled(s.table, s.reconnectId), s.delay, s.marks.startedBefore, s.miscId);
  }

  lemma {:induction false} ClosedInv(cfg: Config, s: State, rc: int, closed: bool)
    requires Inv(cfg, s) && (s.marks.disciplined ==> !s.reconnecting)
    ensures Inv(cfg, Closed(s, rc, closed)) && Evolves(s, Closed(s, rc, closed))
  {
    var t, e := Closed(s, rc, closed), Library(LeaveBroker, rc);
    var m := t.(history := s.history);
    ClearedLink(s, t);
    ClearedCalls(s);
    ClearedTerms(s);
    UnwatchRefinesMap(s.watches, s.socket);
    Unrecorded(cfg, s, m);
    Bystanders(cfg, m, t, e);
    DisconnectedTable(s, rc, closed);
    StepEvolves(s, t, e);
  }

  lemma {:induction false} DisconnectedInv(cfg: Config, s: State, rc: int, closed: bool)
    requires Inv(cfg, s) && (s.marks.disciplined ==> !s.reconnecting)
    ensures Inv(cfg, Disconnected(s, rc, closed)) && Evolves(s, Disconnected(s, rc, closed))
  {
    assert TableOk(s.table);
    hide Inv, EvolvesPast;
    SessionCutInv(cfg, s);
    if s.connected {
      ClosedInv(cfg, SessionCut(s), rc, closed);
      EvolvesTransitive(s, SessionCut(s), Disconnected(s, rc, closed));
    }
  }

  /** The state after a disconnect, as far as arming the next timer needs it. */
  lemma {:induction false} DisconnectedFacts(cfg: Config, s: State, rc: int, closed: bool)
    requires Inv(cfg, s) && !s.reconnecting
    ensures TableOk(Disconnected(s, rc, closed).table)
    ensures var d := Disconnected(s, rc, closed);
            && !d.reconnecting && d.delay == s.delay && d.contexts == s.contexts
            && (d.marks.disciplined ==> !d.marks.linkUp && !d.marks.ready)
  {
    DisconnectedTable(s, rc, closed);
    hide TableOk, Cleared, Unwatch;
  }

  lemma {:induction false} ArmedTables(s: State, elapsed: nat, delay: int)
    requires CallsInv(s) && TermsInv(s) && 0 <= delay < s.delay
    ensures CallsInv(ReconnectArmed(s, elapsed, delay)) && TermsInv(ReconnectArmed(s, elapsed, delay))
  {
    CallsStart(CallsOf(s), s.table, elapsed, delay, ReconnectTimer);
    TermsArm(s.history, s.table, s.delay, s.marks.startedBefore, elapsed, delay);
  }

  lemma {:induction false} ReconnectArmedInv(cfg: Config, s: State, elapsed: nat, delay: int)
    requires Inv(cfg, s) && !s.reconnecting && 0 <= delay < s.delay
    requires s.marks.disciplined ==> !s.marks.linkUp && !s.marks.ready
    ensures Inv(cfg, ReconnectArmed(s, elapsed, delay)) && Evolves(s, ReconnectArmed(s, elapsed, delay))
  {
    hide CallsInv, TermsInv, QueueInv, BusInv, WireInv, RequestsInv, ContextsInv, Started, LedgerGrows, Distinct, WatchMap;
    var t, e := ReconnectArmed(s, elapsed, delay), DelayArmed(NextTicket(s.table), delay);
    ArmedLink(s, t, elapsed, delay);
    ArmedTables(s, elapsed, delay);
    Bystanders(cfg, s, t, e);
    StepEvolves(s, t, e);
  }

  lemma {:induction false} InvalidatedSessionInv(cfg: Config, s: State, luck: Luck)
    requires Inv(cfg, s) && 0 <= luck.delay < s.delay
    ensures Inv(cfg, InvalidatedSession(s, luck)) && Evolves(s, InvalidatedSession(s, luck))
  {
    if s.reconnecting {
      EvolvesRefl(s);
    } else {
      hide Inv, EvolvesPast, Disconnected;
      var d := Disconnected(s, luck.left, luck.closed);
      DisconnectedInv(cfg, s, luck.left, luck.closed);
      DisconnectedFacts(cfg, s, luck.left, luck.closed);
      ReconnectArmedInv(cfg, d, luck.elapsed, luck.delay);
      EvolvesTransitive(s, d, ReconnectArmed(d, luck.elapsed, luck.delay));
    }
  }

  /** The timers after the misc timer has been scheduled anew, when its old id does not hit a pending reconnect. */
  lemma {:induction false} MiscLink(s: State, elapsed: nat)
    requires LinkInv(s)
    requires s.marks.disciplined && s.reconnecting ==> !Holds(s.table, s.miscId, ReconnectTimer)
    ensures LinkInv(MiscScheduled(s, elapsed)) && LedgerGrows(s.table, MiscScheduled(s, elapsed).table)
    ensures s.marks.disciplined ==> Holds(MiscScheduled(s, elapsed).table, MiscScheduled(s, elapsed).miscId, MiscTimer)
  {
    hide TableOk, Cancelled, Started, LedgerGrows;
    var c := Cancelled(s.table, s.miscId);
    Stopping(s.table, s.miscId);
    if s.marks.disciplined {
      RoomForTimer(s.(table := c));
    }
    Starting(c, elapsed, MISC_PERIOD, MiscTimer);
    LedgerTransitive(s.table, c, Started(c, elapsed, MISC_PERIOD, MiscTimer));
  }

  lemma {:induction false} MiscCalls(s: State, elapsed: nat)
    requires TableOk(s.table) && CallsInv(s)
    ensures CallsOk(CallsOf(s), MiscScheduled(s, elapsed).table)
  {
    Stopping(s.table, s.miscId);
    CallsStop(CallsOf(s), s.table, s.miscId);
    CallsStart(CallsOf(s), Cancelled(s.table, s.miscId), elapsed, MISC_PERIOD, MiscTimer);
  }

  lemma {:induction false} MiscTerms(s: State, elapsed: nat)
    requires TermsInv(s)
    ensures TermsInv(MiscScheduled(s, elapsed))
  {
    var c := Cancelled(s.table, s.miscId);
    TermsStop(s.history, s.table, s.delay, s.marks.startedBefore, s.miscId);
    TermsStart(s.history, c, s.delay, s.marks.startedBefore, elapsed, MISC_PERIOD, MiscTimer, s.history);
  }

  /** The misc timer's id may be stale; the step must not be taken when a pending reconnect sits there. */
  lemma {:induction false} MiscScheduledInv(cfg: Config, s: State, elapsed: nat)
    requires Inv(cfg, s)
    requires s.marks.disciplined && s.reconnecting ==> !Holds(s.table, s.miscId, ReconnectTimer)
    ensures Inv(cfg, MiscScheduled(s, elapsed)) && Evolves(s, MiscScheduled(s, elapsed))
    ensures s.marks.disciplined ==> Holds(MiscScheduled(s, elapsed).table, MiscScheduled(s, elapsed).miscId, MiscTimer)
  {
    MiscLink(s, elapsed);
    MiscCalls(s, elapsed);
    MiscTerms(s, elapsed);
    Unrecorded(cfg, s, MiscScheduled(s, elapsed));
    SilentEvolves(s, MiscScheduled(s, elapsed));
  }

  /** The connection is in use, and its misc timer is armed. */
  lemma {:induction false} ReadyInv(cfg: Config, s: State, ready: bool)
    requires Inv(cfg, s)
    requires s.marks.disciplined && ready ==>
               s.connected && !s.reconnecting && (s.marks.onMisc || Holds(s.table, s.miscId, MiscTimer))
    ensures Inv(cfg, Ready(s, ready)) && Evolves(s, Ready(s, ready))
  {
    Unrecorded(cfg, s, Ready(s, ready));
    SilentEvolves(s, Ready(s, ready));
  }

  /** handleMisc returns, with its timer armed again or the connection gone. */
  lemma {:induction false} MiscDoneInv(cfg: Config, s: State)
    requires Inv(cfg, s) && (s.marks.disciplined && s.marks.ready ==> Holds(s.table, s.miscId, MiscTimer))
    ensures Inv(cfg, MiscDone(s)) && Later(s, MiscDone(s))
  {
    Unrecorded(cfg, s, MiscDone(s));
  }

  lemma MiscLeaves(s: State, rc: int, luck: Luck)
    requires TableOk(s.table)
    ensures var t := MiscDone(MiscHandled(s, rc, luck));
            && !t.marks.onMisc && t.marks.onStack == s.marks.onStack && t.marks.open == s.marks.open
            && t.userData == s.userData && StaysDown(s, t)
  {
  }

  /** A new connect's frame is its own. */
  lemma {:induction false} ContextOpenedFrames(s: State, rc: int)
    requires ContextsInv(s)
    ensures ContextsInv(ContextOpened(s, rc)) && Evolves(s, ContextOpened(s, rc))
    ensures PhaseOf(ContextOpened(s, rc).history, |s.contexts|) == if rc == 0 then Dialled(None) else Halted(Dial(rc))
  {
    LedgerRefl(s.table);
  }

  lemma {:induction false} ContextOpenedInv(cfg: Config, s: State, rc: int)
    requires Inv(cfg, s)
    ensures Inv(cfg, ContextOpened(s, rc)) && Evolves(s, ContextOpened(s, rc))
    ensures PhaseOf(ContextOpened(s, rc).history, |s.contexts|) == if rc == 0 then Dialled(None) else Halted(Dial(rc))
  {
    var t, e := ContextOpened(s, rc), Handshake(|s.contexts|, Dial(rc));
    ContextOpenedFrames(s, rc);
    hide LinkInv, ContextsInv, EvolvesPast, QueueInv, BusInv, WireInv, BackoffInv, CallsInv, RequestsInv;
    Bystanders(cfg, s, t, e);
    SameLink(s, t);
  }

  /** Watching a descriptor for the client works exactly when there is room for it. */
  lemma {:induction false} OwnWatchTaken(ws: seq<SocketWatch>, fd: int)
    requires Distinct(ws)
    ensures Distinct(Watch(ws, fd, ClientHandler))
    ensures fd in WatchMap(Watch(ws, fd, ClientHandler)) && WatchMap(Watch(ws, fd, ClientHandler))[fd] == ClientHandler
            <==> RoomToWatch(ws, fd)
  {
    WatchRefinesMap(ws, fd, ClientHandler);
    if |LiveFds(ws) - {fd}| == |ws| {
      FullMeansAbsent(ws, fd);
      assert fd !in WatchMap(ws) - {fd};
    }
  }

  /** What is watched on another descriptor makes no difference. */
  lemma {:induction false} OtherWatch(ws: seq<SocketWatch>, fd: int, handler: Handler, own: int)
    requires Distinct(ws) && fd != own
    ensures Distinct(Watch(ws, fd, handler)) && Distinct(Unwatch(ws, fd))
    ensures own in WatchMap(Watch(ws, fd, handler)) <==> own in WatchMap(ws)
    ensures own in WatchMap(ws) ==> WatchMap(Watch(ws, fd, handler))[own] == WatchMap(ws)[own]
    ensures own in WatchMap(Unwatch(ws, fd)) <==> own in WatchMap(ws)
    ensures own in WatchMap(ws) ==> WatchMap(Unwatch(ws, fd))[own] == WatchMap(ws)[own]
  {
    WatchRefinesMap(ws, fd, handler);
    UnwatchRefinesMap(ws, fd);
    hide WatchMap, Watch, Unwatch;
  }

  lemma {:induction false} LinkOpenedInv(cfg: Config, s: State, frame: nat, fd: int)
    requires Inv(cfg, s) && (s.marks.disciplined && s.reconnecting ==> s.marks.onStack)
    requires frame < |s.contexts| && PhaseOf(s.history, frame).Dialled?
    ensures Inv(cfg, LinkOpened(s, frame, fd))
  {
    OwnWatchTaken(s.watches, fd);
    hide Watch, Distinct, WatchMap, RoomToWatch, TableOk, CallsOk, TermsOk;
    Unrecorded(cfg, s, LinkOpened(s, frame, fd));
  }

  /** The contexts that existed before a dial are untouched by it. */
  lemma {:induction false} DialledOutLeaves(s: State, rc: int, fd: int)
    requires s.marks.disciplined && s.reconnecting ==> s.marks.onStack
    requires Evolves(s, ContextOpened(s, rc))
    ensures Undisturbed(|s.contexts|, s, DialledOut(s, rc, fd)) && (rc != 0 ==> Evolves(s, DialledOut(s, rc, fd)))
  {
  }

  /** Dialling: the contexts that existed before are untouched, whatever becomes of this one. */
  lemma {:induction false} DialledOutInv(cfg: Config, s: State, rc: int, fd: int)
    requires Inv(cfg, s) && (s.marks.disciplined && s.reconnecting ==> s.marks.onStack)
    ensures Inv(cfg, DialledOut(s, rc, fd)) && Undisturbed(|s.contexts|, s, DialledOut(s, rc, fd))
    ensures rc != 0 ==> Evolves(s, DialledOut(s, rc, fd)) && DialledOut(s, rc, fd).connected == s.connected
    ensures PhaseOf(DialledOut(s, rc, fd).history, |s.contexts|) == if rc == 0 then Dialled(None) else Halted(Dial(rc))
    ensures rc == 0 ==> DialledOut(s, rc, fd).userData == Context(|s.contexts|)
    ensures |DialledOut(s, rc, fd).contexts| == |s.contexts| + 1
  {
    hide Inv, Undisturbed, CallbacksKept;
    ContextOpenedInv(cfg, s, rc);
    DialledOutLeaves(s, rc, fd);
    if rc == 0 {
      LinkOpenedInv(cfg, ContextOpened(s, rc), |s.contexts|, fd);
    }
  }

  lemma DialledOnStack(s: State, rc: int, fd: int)
    ensures DialledOut(s, rc, fd).marks.onStack == s.marks.onStack
    ensures rc == 0 ==> DialledOut(s, rc, fd).socket == fd
  {
  }

  /** A dial and the wait that follows, once the callbacks no longer look for its context. */
  lemma {:induction false} DialReturned(s: State, d: State, t: State)
    requires Undisturbed(|s.contexts|, s, d) && EvolvesPast(|s.contexts|, d, t) && !t.userData.Context?
    requires s.marks.disciplined && s.reconnecting ==> !s.userData.Context?
    ensures Evolves(s, t)
  {
    UndisturbedTransitive(|s.contexts|, s, d, t);
    assert LinkKept(s, d) && LinkKept(d, t);
  }

  /**
   After the wait for an acknowledgement the callbacks find its connect or none at all; and an attempt's connect is
   still connected, by the rules.
   */
  lemma AfterAcknowledgement(cfg: Config, s: State, frame: nat, t: State)
    requires Inv(cfg, s) && s.userData == Context(frame) && frame < |s.contexts|
    requires Inv(cfg, t) && Evolves(s, t)
    ensures t.userData.Context? ==> t.userData == Context(frame)
    ensures PhaseOf(s.history, frame).Dialled? ==> frame < |t.contexts| && PhaseOf(t.history, frame).Dialled?
    ensures s.marks.onStack && t.marks.disciplined ==> t.connected
  {
  }

  lemma ContextIsKnown(cfg: Config, s: State)
    requires Inv(cfg, s)
    ensures s.userData.Context? ==> s.userData.frame < |s.contexts|
  {
  }

  /** Once the user has called connect by the rules, no attempt of reconnect is under way. */
  lemma NoAttemptUnderWay(cfg: Config, s: State, t: State)
    requires Inv(cfg, s) && Evolves(UserSteps(s), t)
    ensures t.marks.disciplined ==> !t.marks.onStack
  {
  }

  lemma {:induction false} AcknowledgedInv(cfg: Config, s: State, code: int)
    requires Inv(cfg, s) && s.userData.Context?
    ensures Inv(cfg, Acknowledged(s, s.userData.frame, code)) && Evolves(s, Acknowledged(s, s.userData.frame, code))
  {
    var t, e := Acknowledged(s, s.userData.frame, code), Handshake(s.userData.frame, Connack(code));
    Bystanders(cfg, s, t, e);
    SameLink(s, t);
  }

  lemma {:induction false} ContextGoneInv(cfg: Config, s: State, frame: nat)
    requires Inv(cfg, s) && frame < |s.contexts|
    ensures Inv(cfg, ContextGone(s, frame)) && EvolvesPast(frame, s, ContextGone(s, frame))
  {
    hide TableOk, CallsOk, TermsOk, Distinct, WatchMap;
    Unrecorded(cfg, s, ContextGone(s, frame));
    SameLink(s, ContextGone(s, frame));
  }

  /** A connect's own step, other than its dial: it changes the connect's phase and no caller's. */
  lemma {:induction false} OwnStep(s: State, t: State, frame: nat, step: Step)
    requires t.history == Then(s.history, Handshake(frame, step))
    requires ContextsInv(s) && s.userData != Context(frame) && frame < |s.contexts| && !step.Dial? && !step.Connack?
    requires PhaseOf(s.history, frame).Dialled? ==> !Advance(PhaseOf(s.history, frame), step).Dialled?
    requires t.contexts == s.contexts && t.userData == s.userData && t.requests == s.requests && t.expected == s.expected
    requires t.marks.open == s.marks.open && t.subscriptions == s.subscriptions
    requires LinkKept(s, t) && t.table == s.table && t.reentries == s.reentries
    ensures ContextsInv(t) && EvolvesPast(frame, s, t)
    ensures PhaseOf(t.history, frame) == Advance(PhaseOf(s.history, frame), step)
  {
    LedgerRefl(s.table);
  }

  /** A connect's own subscription moves its phase on and leaves its callers' frames alone. */
  lemma {:induction false} SubscribedInv(cfg: Config, s: State, frame: nat, step: Step)
    requires Inv(cfg, s) && s.userData != Context(frame) && frame < |s.contexts|
    requires step.JoinOwn? || step.JoinEvents?
    ensures Inv(cfg, Subscribed(s, frame, step)) && EvolvesPast(frame, s, Subscribed(s, frame, step))
    ensures PhaseOf(Subscribed(s, frame, step).history, frame) == Advance(PhaseOf(s.history, frame), step)
  {
    hide TableOk, CallsOk, TermsOk, Distinct, WatchMap;
    var t := Subscribed(s, frame, step);
    Bystanders(cfg, s, t, Handshake(frame, step));
    SameLink(s, t);
    OwnStep(s, t, frame, step);
  }

  lemma OpenedWire(cfg: Config, s: State, frame: nat, grant: Grant)
    requires WireInv(cfg, s) && PhaseOf(s.history, frame) == LoginSent(grant.request) && Granted(cfg, s.history, grant)
    ensures WireInv(cfg, SessionOpened(s, frame, grant))
  {
  }

  lemma {:induction false} SessionOpenedInv(cfg: Config, s: State, frame: nat, grant: Grant)
    requires Inv(cfg, s) && s.userData != Context(frame) && frame < |s.contexts|
    requires PhaseOf(s.history, frame) == LoginSent(grant.request) && Granted(cfg, s.history, grant)
    ensures Inv(cfg, SessionOpened(s, frame, grant)) && EvolvesPast(frame, s, SessionOpened(s, frame, grant))
    ensures PhaseOf(SessionOpened(s, frame, grant).history, frame) == LoggedIn(grant)
  {
    hide TableOk, CallsOk, TermsOk, Distinct, WatchMap;
    var t := SessionOpened(s, frame, grant);
    OpenedWire(cfg, s, frame, grant);
    Bystanders(cfg, s, t, Handshake(frame, LoginAccept(grant)));
    SameLink(s, t);
    OwnStep(s, t, frame, LoginAccept(grant));
  }

  lemma PublishedWire(cfg: Config, s: State, m: Message, time: int, payload: bytes)
    requires WireInv(cfg, s) && Carries(cfg, s.session, m, time, payload)
    requires s.history.Then? && s.history.last == Library(ReadTime, time)
    ensures WireInv(cfg, Log(s, Published(m, payload)))
  {
  }

  /** A publish directly follows the reading of the time that it carries. */
  lemma {:induction false} OnTheWireInv(cfg: Config, s: State, m: Message, time: int, payload: bytes)
    requires Inv(cfg, s) && Carries(cfg, s.session, m, time, payload)
    requires s.history.Then? && s.history.last == Library(ReadTime, time)
    ensures Inv(cfg, Log(s, Published(m, payload))) && Evolves(s, Log(s, Published(m, payload)))
  {
    hide Carries, WireInv, QueueInv, BusInv, BackoffInv, CallsInv, TermsInv, RequestsInv, ContextsInv;
    var t, e := Log(s, Published(m, payload)), Published(m, payload);
    PublishedWire(cfg, s, m, time, payload);
    Bystanders(cfg, s, t, e);
    SameLink(s, t);
    StepEvolves(s, t, e);
  }

  lemma LoginPublishedWire(cfg: Config, s: State, frame: nat, rc: int, request: nat)
    requires WireInv(cfg, s) && LoginJustPublished(cfg, s.history)
    ensures WireInv(cfg, Log(s, Handshake(frame, LoginPublish(rc, request))))
  {
  }

  lemma {:induction false} LoginPublishedInv(cfg: Config, s: State, frame: nat, rc: int, request: nat)
    requires Inv(cfg, s) && s.userData != Context(frame) && frame < |s.contexts| && LoginJustPublished(cfg, s.history)
    ensures var t := Log(s, Handshake(frame, LoginPublish(rc, request)));
            && Inv(cfg, t) && EvolvesPast(frame, s, t)
            && PhaseOf(t.history, frame) == Advance(PhaseOf(s.history, frame), LoginPublish(rc, request))
  {
    hide TableOk, CallsOk, TermsOk, Distinct, WatchMap;
    var e := Handshake(frame, LoginPublish(rc, request));
    Bystanders(cfg, s, Log(s, e), e);
    LoginPublishedWire(cfg, s, frame, rc, request);
    SameLink(s, Log(s, e));
    OwnStep(s, Log(s, e), frame, LoginPublish(rc, request));
  }

  lemma {:induction false} PublishedInv(cfg: Config, s: State, m: Message, time: int, payload: bytes, frame: Option<nat>,
                                        rc: int)
    requires Inv(cfg, s) && Carries(cfg, s.session, m, time, payload)
    requires s.history.Then? && s.history.last == Library(ReadTime, time)
    requires frame.Some? ==> s.userData != Context(frame.value) && frame.value < |s.contexts| && m == cfg.loginRequest
    ensures Inv(cfg, PublishedTo(s, m, payload, frame, rc))
    ensures EvolvesPast(CallersOf(s, frame), s, PublishedTo(s, m, payload, frame, rc))
    ensures frame.Some? ==> PhaseOf(PublishedTo(s, m, payload, frame, rc).history, frame.value)
                            == Advance(PhaseOf(s.history, frame.value), LoginPublish(rc, |s.requests|))
  {
    hide Inv, EvolvesPast, Carries;
    var t := Log(s, Published(m, payload));
    OnTheWireInv(cfg, s, m, time, payload);
    Unrelated(s.history, Published(m, payload));
    if frame.Some? {
      LoginPublishedInv(cfg, t, frame.value, rc, |s.requests|);
      PastNarrow(frame.value, |s.contexts|, s, t);
      PastTransitive(frame.value, s, t, PublishedTo(s, m, payload, frame, rc));
    }
  }

  /** The time is read, and then the payload published. */
  lemma {:induction false} TimedPublishInv(cfg: Config, s: State, m: Message, time: int, payload: bytes, frame: Option<nat>,
                                           rc: int)
    requires Inv(cfg, s) && Carries(cfg, s.session, m, time, payload)
    requires frame.Some? ==> s.userData != Context(frame.value) && frame.value < |s.contexts| && m == cfg.loginRequest
    ensures Inv(cfg, PublishedTo(Timed(s, time), m, payload, frame, rc))
    ensures EvolvesPast(CallersOf(s, frame), s, PublishedTo(Timed(s, time), m, payload, frame, rc))
  {
    hide Inv, EvolvesPast, Carries;
    var n := Timed(s, time);
    NotedInv(cfg, s, Library(ReadTime, time));
    PublishedInv(cfg, n, m, time, payload, frame, rc);
    PastNarrow(CallersOf(s, frame), |s.contexts|, s, n);
    PastTransitive(CallersOf(s, frame), s, n, PublishedTo(n, m, payload, frame, rc));
  }

  lemma {:induction false} SendInv(cfg: Config, s: State, m: Message, time: int, payload: bytes, frame: Option<nat>,
                                   rc: int, r: Result, t: State)
    requires Inv(cfg, s) && SendSpec(cfg, s, m, time, payload, frame, rc, r, t)
    requires frame.Some? ==> s.userData != Context(frame.value) && frame.value < |s.contexts| && m == cfg.loginRequest
    ensures Inv(cfg, t) && EvolvesPast(CallersOf(s, frame), s, t)
  {
    hide Inv, EvolvesPast, Carries;
    if t == s {
      PastRefl(CallersOf(s, frame), s);
    } else if t == Timed(s, time) {
      NotedInv(cfg, s, Library(ReadTime, time));
      PastNarrow(CallersOf(s, frame), |s.contexts|, s, t);
    } else {
      TimedPublishInv(cfg, s, m, time, payload, frame, rc);
    }
  }

  lemma {:induction false} SentExtends(cfg: Config, s: State, m: Message, time: int, payload: bytes, frame: Option<nat>,
                                       rc: int, r: Result, t: State)
    requires SendSpec(cfg, s, m, time, payload, frame, rc, r, t)
    ensures Extends(s.history, t.history) && PoppedOf(t.history) == PoppedOf(s.history) && OnlyRecorded(s, t)
  {
    assert Extends(s.history, s.history);
    assert Extends(s.history, Timed(s, time).history);
    assert PoppedOf(Timed(s, time).history) == PoppedOf(s.history);
  }

  /** Recording that a message had no request waiting. */
  lemma {:induction false} StrayInv(cfg: Config, s: State, payload: bytes)
    requires Inv(cfg, s) && s.expected == None
    ensures Inv(cfg, Log(s, Stray(payload))) && Evolves(s, Log(s, Stray(payload)))
  {
    var t, e := Log(s, Stray(payload)), Stray(payload);
    Bystanders(cfg, s, t, e);
    SameLink(s, t);
    Unrelated(s.history, e);
    LedgerRefl(s.table);
  }

  /** Recording that a handler of the loop or a callback of the user, or the library or select was called. */
  lemma {:induction false} NotedInv(cfg: Config, s: State, e: Event)
    requires Inv(cfg, s) && (e.Notified? || e.RawSeen? || e.ExpiryTold? || e.Library? || e.Polled?)
    ensures Inv(cfg, Log(s, e)) && Evolves(s, Log(s, e))
  {
    Bystanders(cfg, s, Log(s, e), e);
    SameLink(s, Log(s, e));
    StepEvolves(s, Log(s, e), e);
  }

  /** Opening a request: the one that was waiting, if any, stops waiting. */
  lemma {:induction false} RequestOpenedInv(cfg: Config, s: State, name: TypeName, key: bytes)
    requires Inv(cfg, s)
    ensures Inv(cfg, RequestOpened(s, name, key))
    ensures ResponsesTo(RequestOpened(s, name, key).history, |s.requests|) == []
  {
    var t := RequestOpened(s, name, key);
    assert RequestOk(cfg, t.requests[|s.requests|], ResponsesTo(t.history, |s.requests|));
  }

  /** From before a request was opened to after it was closed again. */
  lemma {:induction false} RequestClosedInv(cfg: Config, n: nat, s: State, name: TypeName, key: bytes, t: State)
    requires Inv(cfg, t) && n <= |s.contexts| && EvolvesPast(n, RequestOpened(s, name, key), t)
    ensures Inv(cfg, t.(expected := None)) && EvolvesPast(n, s, t.(expected := None))
  {
    var o := RequestOpened(s, name, key);
    forall i | 0 <= i < |s.requests| ensures SameExpectation(s.requests[i], t.requests[i]) {
      assert SameExpectation(o.requests[i], t.requests[i]);
    }
  }

  /** Reading the request's own record gives the outcome of its payloads. */
  lemma RecordIsOutcome(cfg: Config, r: ExpectedResponse, ps: seq<bytes>)
    requires RequestOk(cfg, r, ps)
    ensures Outcome(cfg, r.typeName, r.key, ps)
            == if !r.notified then Err(ResponseTimeout) else match r.error case Some(c) => Err(c) case None => Ok
    ensures r.notified && r.error == None ==>
              ps != [] && r.message.Some? && Judge(cfg, r.typeName, r.key, ps[|ps| - 1]) == Good(r.message.value)
  {
  }

  lemma {:induction false} SentFacts(s: State, m: Message, time: int, payload: bytes, frame: Option<nat>, rc: int)
    ensures var t := PublishedTo(Timed(s, time), m, payload, frame, rc);
            && t.requests == s.requests && t.contexts == s.contexts && t.userData == s.userData
            && StraysOf(t.history) == StraysOf(s.history)
            && (forall i: nat :: ResponsesTo(t.history, i) == ResponsesTo(s.history, i))
            && (frame.Some? ==>
                  PhaseOf(t.history, frame.value)
                  == Advance(PhaseOf(s.history, frame.value), LoginPublish(rc, |s.requests|)))
  {
    hide PhaseOf, ResponsesTo, StraysOf, PoppedOf;
    var n := Timed(s, time);
    var p := Then(n.history, Published(m, payload));
    Unrelated(s.history, Library(ReadTime, time));
    Unrelated(n.history, Published(m, payload));
    if frame.Some? {
      PublishStep(p, frame.value, LoginPublish(rc, |s.requests|));
    }
  }

  lemma PublishStep(h: History, frame: nat, step: Step)
    ensures var h1 := Then(h, Handshake(frame, step));
            && PhaseOf(h1, frame) == Advance(PhaseOf(h, frame), step) && StraysOf(h1) == StraysOf(h)
            && forall i: nat :: ResponsesTo(h1, i) == ResponsesTo(h, i)
  {
  }

  lemma RequestRefused(cfg: Config, s: State, m: Message, frame: Option<nat>, t: State, name: TypeName, key: bytes,
                       timeout: int, x: RequestRun, r: Result, response: Option<Content>)
    requires x.refused && !r.Ok? && SendSpec(cfg, s, m, x.time, x.payload, frame, x.rc, r, t)
    ensures RequestMade(cfg, s, m, name, key, frame, timeout, x, r, response, t)
  {
  }

  /** A request sent, then answered. */
  lemma {:induction false} RequestComposed(cfg: Config, s: State, m: Message, frame: Option<nat>, t: State,
                                           name: TypeName, key: bytes, timeout: int, x: RequestRun,
                                           r: Result, response: Option<Content>, u: State)
    requires Inv(cfg, s) && !x.refused && SendSpec(cfg, s, m, x.time, x.payload, frame, x.rc, Ok, t)
    requires frame.Some? ==> !s.userData.Context? && frame.value < |s.contexts| && m == cfg.loginRequest
    requires Evolves(t, u) && AnswerSpec(cfg, t, name, key, r, response, u)
    requires AnswerAwaited(t, name, key, timeout, x.wait, r, x.luck, u)
    ensures EvolvesPast(CallersOf(s, frame), s, u)
    ensures RequestMade(cfg, s, m, name, key, frame, timeout, x, r, response, u)
    ensures frame.Some? ==>
              && PhaseOf(u.history, frame.value) == Advance(PhaseOf(s.history, frame.value), LoginPublish(0, |s.requests|))
              && !u.userData.Context?
  {
    hide Inv, EvolvesPast, Outcome, Judge, RequestComesTo, Answers, AnswerAwaited, Carries, PublishedTo, Timed;
    SentFacts(s, m, x.time, x.payload, frame, x.rc);
    SendInv(cfg, s, m, x.time, x.payload, frame, x.rc, Ok, t);
    PastNarrow(CallersOf(s, frame), |t.contexts|, t, u);
    PastTransitive(CallersOf(s, frame), s, t, u);
    CallbacksStay(t, u);
  }

  /** What a nested call leaves of the callbacks, of a connect that is past its wait, and of the record. */
  lemma CallbacksStay(s: State, t: State)
    requires Evolves(s, t)
    ensures !s.userData.Context? ==>
              !t.userData.Context? && forall f: nat | f < |s.contexts| :: PhaseOf(t.history, f) == PhaseOf(s.history, f)
    ensures Extends(s.history, t.history)
  {
  }

  /** An invalid session touches neither the queue nor any request. */
  lemma {:induction false} InvalidatedHistory(s: State, luck: Luck)
    requires TableOk(s.table)
    ensures var t := InvalidatedSession(s, luck);
            && t.reconnecting && PoppedOf(t.history) == PoppedOf(s.history) && t.queue == s.queue
            && t.requests == s.requests && t.expected == s.expected
            && StraysOf(t.history) == StraysOf(s.history)
            && forall i: nat :: ResponsesTo(t.history, i) == ResponsesTo(s.history, i)
  {
    if s.reconnecting {
    } else {
      DisconnectedTable(s, luck.left, luck.closed);
      hide PhaseOf, ResponsesTo, StraysOf, PoppedOf, Cleared, Unwatch, TableOk, Started;
      var h, d := Then(s.history, SessionReset), Disconnected(s, luck.left, luck.closed);
      Unrelated(s.history, SessionReset);
      Unrelated(h, Library(LeaveBroker, luck.left));
      Unrelated(d.history, DelayArmed(NextTicket(d.table), luck.delay));
    }
  }

  lemma AnsweredRequests(cfg: Config, s: State, i: nat, payload: bytes)
    requires RequestsInv(cfg, s) && i < |s.requests|
    ensures RequestsInv(cfg, Answered(cfg, s, i, payload))
  {
  }

  lemma {:induction false} AnsweredEvolves(cfg: Config, s: State, i: nat, payload: bytes)
    requires i < |s.requests| && (s.expected == Some(i) || s.expected == None)
    ensures Evolves(s, Answered(cfg, s, i, payload))
  {
    LedgerRefl(s.table);
  }

  lemma {:induction false} AnsweredInv(cfg: Config, s: State, i: nat, payload: bytes)
    requires Inv(cfg, s) && i < |s.requests| && (s.expected == Some(i) || s.expected == None)
    ensures Inv(cfg, Answered(cfg, s, i, payload)) && Evolves(s, Answered(cfg, s, i, payload))
  {
    var t := Answered(cfg, s, i, payload);
    AnsweredRequests(cfg, s, i, payload);
    Bystanders(cfg, s, t, Response(i, payload));
    SameLink(s, t);
    AnsweredEvolves(cfg, s, i, payload);
  }

  /** A request that was waiting when its message came is still the one to take it, whatever the callback did. */
  lemma {:induction false} StillWaiting(cfg: Config, s: State, i: nat, t: State)
    requires Inv(cfg, s) && Inv(cfg, t) && Evolves(s, t) && s.expected == Some(i)
    ensures i < |t.requests| && t.requests[i].messageType == TypeFor(t.requests[i].typeName)
    ensures t.expected == Some(i) || t.expected == None
  {
    assert RequestOk(cfg, t.requests[i], ResponsesTo(t.history, i));
  }

  /** The request that waited, when its wait is over. */
  lemma {:induction false} WaitedFor(s: State, name: TypeName, key: bytes, t: State)
    requires Evolves(RequestOpened(s, name, key), t)
    ensures var me := |s.requests|;
            && me < |t.requests| && t.requests[me].typeName == name && t.requests[me].key == key
            && (|t.requests| == me + 1 ==> OnlyAnswers(me, s.history, t.history))
  {
    assert SameExpectation(RequestOpened(s, name, key).requests[|s.requests|], t.requests[|s.requests|]);
  }

  /** A waiting connect's context says what its phase says. */
  lemma ContextRead(cfg: Config, s: State, frame: nat)
    requires Inv(cfg, s) && frame < |s.contexts| && PhaseOf(s.history, frame).Dialled?
    ensures s.contexts[frame] == ContextFor(PhaseOf(s.history, frame).ack)
  {
  }

  lemma ReadyMeans(cfg: Config, s: State)
    requires Inv(cfg, s) && s.marks.disciplined && s.marks.ready
    ensures s.connected && !s.reconnecting
  {
  }

  /** A connect whose login has been sent has published its request. */
  lemma {:induction false} OnWireWhenSent(cfg: Config, s: State, frame: nat, request: nat)
    requires Inv(cfg, s) && PhaseOf(s.history, frame) == LoginSent(request)
    ensures LoginOnWire(cfg, s.history, frame, request)
  {
    LoginWasPublished(cfg, s.history, frame, request);
  }

  lemma TableIsOk(cfg: Config, s: State)
    requires Inv(cfg, s)
    ensures TableOk(s.table)
  {
  }

  lemma {:induction false} FiledInv(cfg: Config, s: State, topic: string, payload: bytes)
    requires Inv(cfg, s) && s.session.Some? && Decode(payload).Opened?
    requires Decode(payload).envelope.responseStatus == STATUS_SUCCESS
    ensures Inv(cfg, Filed(cfg, s, topic, payload)) && Evolves(s, Filed(cfg, s, topic, payload))
  {
    var t := Filed(cfg, s, topic, payload);
    if t == s {
      EvolvesRefl(s);
    } else {
      EnqueuedInv(cfg, s, t.queue[|s.queue|], payload);
    }
  }

  lemma {:induction false} EnqueuedQueue(cfg: Config, s: State, e: QueuedMessage, source: bytes)
    requires QueueInv(cfg, s) && Tagged(e)
    ensures QueueInv(cfg, Enqueued(s, e, source))
  {
    var q := s.queue + [e];
    assert PoppedOf(s.history) + q == PoppedOf(s.history) + s.queue + [e];
  }

  lemma {:induction false} EnqueuedInv(cfg: Config, s: State, e: QueuedMessage, source: bytes)
    requires Inv(cfg, s) && s.session.Some? && ReceivedUnder(cfg, s.session.value, e, source)
    ensures Inv(cfg, Enqueued(s, e, source)) && Evolves(s, Enqueued(s, e, source))
  {
    var t := Enqueued(s, e, source);
    EnqueuedQueue(cfg, s, e, source);
    Bystanders(cfg, s, t, Accepted(e, source));
    SameLink(s, t);
    StepEvolves(s, t, Accepted(e, source));
  }

  // ----- dispatching

  lemma {:induction false} TakenQueue(cfg: Config, s: State)
    requires QueueInv(cfg, s) && s.queue != []
    ensures QueueInv(cfg, RoutedTo(Taken(s), RouteOf(cfg.ownTopic, s.queue[0])))
  {
    var p, e := PoppedOf(s.history), s.queue[0];
    assert p + s.queue == p + [e] + s.queue[1..];
    assert RoutesOf(cfg.ownTopic, p + [e]) == RoutesOf(cfg.ownTopic, p) + [RouteOf(cfg.ownTopic, e)];
  }

  lemma {:induction false} OpenedOk(open: seq<nat>, ds: seq<Dispatch>, d: Dispatch)
    requires OpenOk(open, ds) && d.handed <= |d.audience|
    ensures OpenOk(open + [|ds|], ds + [d])
  {
    var wider, es := open + [|ds|], ds + [d];
    assert wider[|open|] == |ds|;
    forall k | k in open ensures k in wider {
      var i :| 0 <= i < |open| && open[i] == k;
      assert wider[i] == k;
    }
  }

  lemma {:induction false} OpenedBus(s: State, message: Message)
    requires BusInv(s)
    ensures BusInv(BusOpened(s, message))
  {
    OpenedOk(s.marks.open, DispatchesOf(s.history), Dispatch(message, Audience(s.subscriptions, message), 0));
  }

  lemma {:induction false} TakenBus(cfg: Config, s: State, route: Route)
    requires BusInv(s) && s.queue != []
    ensures BusInv(RoutedTo(Taken(s), route))
  {
    Bystanders(cfg, s, Taken(s), Popped(s.queue[0]));
    if route.ToBus? {
      OpenedBus(Taken(s), route.message);
    } else {
      Bystanders(cfg, Taken(s), RoutedTo(Taken(s), route), Routed(route));
    }
  }

  lemma {:induction false} TakenEvolves(s: State)
    requires s.queue != []
    ensures Evolves(s, Taken(s))
  {
    LedgerRefl(s.table);
    StepEvolves(s, Taken(s), Popped(s.queue[0]));
  }

  /**
   Taking a message out of the queue: the invariant holds again when the handler or the bus that the message
   belongs to has been called with it.
   */
  lemma {:induction false} TakenInv(cfg: Config, s: State)
    requires Inv(cfg, s) && s.queue != []
    ensures Inv(cfg, RoutedTo(Taken(s), RouteOf(cfg.ownTopic, s.queue[0]))) && Tagged(s.queue[0])
  {
    var route := RouteOf(cfg.ownTopic, s.queue[0]);
    var t := RoutedTo(Taken(s), route);
    TakenQueue(cfg, s);
    TakenBus(cfg, s, route);
    BystandersTwice(cfg, s, t, Popped(s.queue[0]), Routed(route));
    SameLink(s, t);
  }

  lemma DispatchedNone(ownTopic: string, s: State)
    ensures OnlyDispatched(ownTopic, s, s)
  {
  }

  /** One message more. */
  lemma {:induction false} DispatchedOn(ownTopic: string, s: State, t: State, u: State)
    requires OnlyDispatched(ownTopic, s, t) && t.queue != [] && u.reentries <= t.reentries
    requires u.reentries == t.reentries ==> u.queue == t.queue[1..]
    requires u.reentries == t.reentries && !EndsSession(ownTopic, t.queue[0]) ==> OnlyRecorded(t.(queue := u.queue), u)
    ensures OnlyDispatched(ownTopic, s, u)
  {
  }

  /** With nothing queued, everything accepted has been popped and routed. */
  lemma {:induction false} NothingQueued(cfg: Config, s: State)
    requires Inv(cfg, s) && s.queue == []
    ensures PoppedOf(s.history) == AcceptedOf(s.history)
    ensures RoutedOf(s.history) == RoutesOf(cfg.ownTopic, AcceptedOf(s.history))
  {
    assert PoppedOf(s.history) + [] == PoppedOf(s.history);
  }

  lemma {:induction false} RoutedEvolves(s: State, event: Message)
    ensures Evolves(s, Log(s, Routed(ToSession(event))))
  {
    LedgerRefl(s.table);
    StepEvolves(s, Log(s, Routed(ToSession(event))), Routed(ToSession(event)));
  }

  lemma {:induction false} ListedBoth(subscriptions: seq<Subscription>, message: Message)
    ensures Listed(subscriptions, MessageTypeFor(message), message, 0)
    ensures Listed(subscriptions, UNKNOWN, message, |SubscribedTo(subscriptions, MessageTypeFor(message))|)
  {
    var typed, all := SubscribedTo(subscriptions, MessageTypeFor(message)), SubscribedTo(subscriptions, UNKNOWN);
    assert (typed + all)[0..|typed|] == typed && (typed + all)[|typed|..|typed| + |all|] == all;
  }

  lemma DeliveredInFull(d: State, message: Message, t: State)
    requires Dispatching(d, message, |Audience(d.subscriptions, message)|, t)
    ensures Delivered(d, message, BusClosed(t))
  {
  }

  lemma {:induction false} DispatchBegins(cfg: Config, d: State, message: Message)
    requires Inv(cfg, BusOpened(d, message))
    ensures Dispatching(d, message, 0, BusOpened(d, message))
  {
    Unrelated(d.history, Routed(ToBus(message)));
  }

  lemma {:induction false} HandedBus(s: State, who: Subscriber)
    requires BusInv(s) && s.marks.open != []
    requires var k, ds := s.marks.open[|s.marks.open| - 1], DispatchesOf(s.history);
             k < |ds| && ds[k].handed < |ds[k].audience| && ds[k].audience[ds[k].handed] == who
    ensures BusInv(HandedOver(s, who))
  {
    var k, ds := s.marks.open[|s.marks.open| - 1], DispatchesOf(s.history);
    assert NextInTurn(ds, k, who) by {
      forall j | k < j < |ds| ensures ds[j].Done() {
        assert j !in s.marks.open;
      }
    }
  }

  lemma {:induction false} HandedOverInv(cfg: Config, s: State, who: Subscriber)
    requires Inv(cfg, s) && s.marks.open != []
    requires var k, ds := s.marks.open[|s.marks.open| - 1], DispatchesOf(s.history);
             k < |ds| && ds[k].handed < |ds[k].audience| && ds[k].audience[ds[k].handed] == who
    ensures Inv(cfg, HandedOver(s, who))
  {
    var t, e := HandedOver(s, who), Handed(s.marks.open[|s.marks.open| - 1], who);
    HandedBus(s, who);
    Bystanders(cfg, s, t, e);
    SameLink(s, t);
  }

  /** One delivery leaves alone everything outside its own dispatch. */
  lemma {:induction false} HandedAlong(d: State, message: Message, n: nat, t: State, who: Subscriber)
    requires Dispatching(d, message, n, t)
    ensures Dispatching(d, message, n + 1, HandedOver(t, who))
  {
    Unrelated(t.history, Handed(t.marks.open[|t.marks.open| - 1], who));
  }

  /** A stretch of execution inside a dispatch is one outside it, too. */
  lemma {:induction false} EvolvesOutside(t: State, u: State, open: seq<nat>)
    requires Evolves(t, u) && t.marks.open != []
    ensures Evolves(WithOpen(t, open), WithOpen(u, open))
  {
    assert FramesKept(|t.contexts|, WithOpen(t, open), WithOpen(u, open));
    assert RequestsKept(WithOpen(t, open), WithOpen(u, open));
  }

  /** What a subscriber does during its turn keeps the dispatch where it was. */
  lemma {:induction false} DispatchingPast(d: State, message: Message, n: nat, t: State, u: State)
    requires Dispatching(d, message, n, t) && Evolves(t, u)
    ensures Dispatching(d, message, n, u)
  {
    EvolvesOutside(t, u, d.marks.open);
    EvolvesTransitive(d, WithOpen(t, d.marks.open), WithOpen(u, d.marks.open));
    ExtendsTransitive(Then(d.history, Routed(ToBus(message))), t.history, u.history);
  }

  lemma {:induction false} ClosedOk(open: seq<nat>, ds: seq<Dispatch>)
    requires OpenOk(open, ds) && open != [] && ds[open[|open| - 1]].Done()
    ensures OpenOk(open[..|open| - 1], ds)
  {
    var n := |open| - 1;
    forall k | k in open && k != open[n] ensures k in open[..n] {
      var i :| 0 <= i < |open| && open[i] == k;
      assert open[..n][i] == k;
    }
  }

  lemma {:induction false} BusClosedInv(cfg: Config, s: State)
    requires Inv(cfg, s) && s.marks.open != []
    requires DispatchesOf(s.history)[s.marks.open[|s.marks.open| - 1]].Done()
    ensures Inv(cfg, BusClosed(s))
  {
    ClosedOk(s.marks.open, DispatchesOf(s.history));
    Unrecorded(cfg, s, BusClosed(s));
    SameLink(s, BusClosed(s));
  }

  lemma {:induction false} DispatchEnds(d: State, message: Message, t: State)
    requires Dispatching(d, message, |Audience(d.subscriptions, message)|, t)
    ensures Evolves(d, BusClosed(t)) && Extends(Then(d.history, Routed(ToBus(message))), BusClosed(t).history)
    ensures DispatchesOf(t.history)[t.marks.open[|t.marks.open| - 1]].Done()
  {
    assert BusClosed(t) == WithOpen(t, d.marks.open);
  }

  /** Between dispatches anyone may subscribe. */
  lemma {:induction false} SubscriptionMadeInv(cfg: Config, s: State, subscription: Subscription)
    requires Inv(cfg, s) && s.marks.open == []
    ensures Inv(cfg, SubscriptionMade(s, subscription)) && Evolves(s, SubscriptionMade(s, subscription))
  {
    var t, e := SubscriptionMade(s, subscription), Enlisted(subscription);
    Bystanders(cfg, s, t, e);
    SameLink(s, t);
    StepEvolves(s, t, e);
  }

  // ----- timers and attempts

  lemma {:induction false} FailedBackoff(s: State, t: State, delay: int)
    requires BackoffInv(s) && t.delay == Min(s.delay * RECONNECT_FACTOR, RECONNECT_MAX) && 0 <= delay < t.delay
    requires t.history == Then(Then(s.history, ReconnectFailed), DelayArmed(NextTicket(s.table), delay))
    ensures BackoffInv(t)
  {
    CappedStep(RECONNECT_BASE, RECONNECT_FACTOR, RECONNECT_MAX, FailuresOf(s.history));
    assert FailuresOf(Then(s.history, ReconnectFailed)) == FailuresOf(s.history) + 1;
  }

  lemma {:induction false} FailedTerms(s: State, elapsed: nat, delay: int)
    requires TermsInv(s) && TimersInv(s) && s.marks.onStack && 0 <= delay < Min(s.delay * RECONNECT_FACTOR, RECONNECT_MAX)
    ensures TermsInv(AttemptFailed(s, elapsed, delay))
  {
    var bound, h := Min(s.delay * RECONNECT_FACTOR, RECONNECT_MAX), Then(s.history, ReconnectFailed);
    assert forall k: nat :: DrawnFor(h, k) == DrawnFor(s.history, k);
    TermsRebound(h, s.table, s.delay, s.marks.startedBefore, bound);
    TermsArm(h, s.table, bound, s.marks.startedBefore, elapsed, delay);
  }

  lemma {:induction false} AttemptFailedInv(cfg: Config, s: State, elapsed: nat, delay: int)
    requires Inv(cfg, s) && s.marks.onStack && !s.userData.Context?
    requires 0 <= delay < Min(s.delay * RECONNECT_FACTOR, RECONNECT_MAX)
    ensures Inv(cfg, AttemptFailed(s, elapsed, delay))
    ensures s.marks.disciplined ==>
              Holds(AttemptFailed(s, elapsed, delay).table, AttemptFailed(s, elapsed, delay).reconnectId, ReconnectTimer)
  {
    var m, t := Log(s, ReconnectFailed), AttemptFailed(s, elapsed, delay);
    ArmedLink(s, t, elapsed, delay);
    CallsStart(CallsOf(s), s.table, elapsed, delay, ReconnectTimer);
    FailedTerms(s, elapsed, delay);
    FailedBackoff(s, t, delay);
    Bystanders(cfg, s, m, ReconnectFailed);
    Bystanders(cfg, m, t, DelayArmed(NextTicket(s.table), delay));
  }

  lemma {:induction false} AttemptFailedLater(s: State, elapsed: nat, delay: int)
    requires TableOk(s.table)
    ensures Later(s, AttemptFailed(s, elapsed, delay))
    ensures FailuresOf(AttemptFailed(s, elapsed, delay).history) == FailuresOf(s.history) + 1
  {
    assert Extends(s.history, Then(s.history, ReconnectFailed));
    StartOk(s.table, elapsed, delay, ReconnectTimer);
  }

  lemma {:induction false} AttemptSucceededInv(cfg: Config, s: State, dialled: bool)
    requires Inv(cfg, s) && s.marks.onStack
    requires s.marks.disciplined && dialled ==> s.connected && Holds(s.table, s.miscId, MiscTimer)
    ensures Inv(cfg, AttemptSucceeded(s, dialled)) && Later(s, AttemptSucceeded(s, dialled))
  {
    var t := AttemptSucceeded(s, dialled);
    Bystanders(cfg, s, t, ReconnectSucceeded);
    TermsRebound(s.history, s.table, s.delay, s.marks.startedBefore, t.delay);
    assert forall k: nat :: DrawnFor(t.history, k) == DrawnFor(s.history, k);
  }

  /** The timers after an expired slot has been released. */
  lemma {:induction false} FiredLink(s: State, id: int, elapsed: nat)
    requires LinkInv(s) && CallsInv(s) && AtRest(s)
    requires 0 <= id < TIMER_COUNT && s.table.timers[id].IsActive() && s.table.timers[id].expiresAt <= s.table.clock + elapsed
    ensures LinkInv(TimerFired(s, id, elapsed)) && LedgerGrows(s.table, TimerFired(s, id, elapsed).table)
    ensures CallsOk(CallsOf(s) + multiset{s.table.holder[id]}, TimerFired(s, id, elapsed).table)
  {
    ExpireOk(s.table, id, elapsed);
    CallsFire(CallsOf(s), s.table, id, elapsed);
  }

  /** Releasing an expired slot: the invariant holds again when the timer's callback has been called. */
  lemma {:induction false} TimerFiredInv(cfg: Config, s: State, id: int, elapsed: nat)
    requires Inv(cfg, s) && AtRest(s)
    requires 0 <= id < TIMER_COUNT && s.table.timers[id].IsActive() && s.table.timers[id].expiresAt <= s.table.clock + elapsed
    ensures Inv(cfg, Called(TimerFired(s, id, elapsed), s.table.holder[id])) && Later(s, TimerFired(s, id, elapsed))
    ensures s.table.timers[id].callback == MiscTimer ==>
              id == s.miscId && !Holds(TimerFired(s, id, elapsed).table, s.miscId, ReconnectTimer)
    ensures s.table.timers[id].callback == ReconnectTimer ==> s.reconnecting
  {
    var m := TimerFired(s, id, elapsed);
    var t, e := Called(m, s.table.holder[id]), TimerCalled(s.table.holder[id]);
    FiredLink(s, id, elapsed);
    SameLink(m, t);
    Bystanders(cfg, s, t, e);
    TermsFire(s.history, s.table, s.delay, s.marks.startedBefore, id, elapsed);
    assert forall k: nat :: DrawnFor(t.history, k) == DrawnFor(s.history, k);
  }

  /** Reading the clock. */
  lemma {:induction false} ClockReadInv(cfg: Config, s: State, elapsed: nat)
    requires Inv(cfg, s)
    ensures Inv(cfg, ClockRead(s, elapsed)) && Later(s, ClockRead(s, elapsed))
  {
    TickOk(s.table, elapsed);
    Unrecorded(cfg, s, ClockRead(s, elapsed));
  }

  lemma CalledLater(s: State, ticket: nat)
    ensures Later(s, Called(s, ticket))
  {
  }

  /** What somebody else does to the timers cannot break more than the rules. */
  lemma {:induction false} ForeignStartedInv(cfg: Config, s: State, elapsed: nat, delay: int, id: nat)
    requires Inv(cfg, s)
    ensures Inv(cfg, ForeignStarted(s, elapsed, delay, id)) && Evolves(s, ForeignStarted(s, elapsed, delay, id))
  {
    hide TableOk, Started, LedgerGrows, CallsOk, TermsOk;
    var t := ForeignStarted(s, elapsed, delay, id);
    CallsStart(CallsOf(s), s.table, elapsed, delay, ForeignTimer(id));
    TermsStart(s.history, s.table, s.delay, s.marks.startedBefore, elapsed, delay, ForeignTimer(id), s.history);
    Starting(s.table, elapsed, delay, ForeignTimer(id));
    Unrecorded(cfg, s, t);
    SilentEvolves(s, t);
  }

  lemma {:induction false} ForeignStoppedInv(cfg: Config, s: State, id: int)
    requires Inv(cfg, s)
    ensures Inv(cfg, ForeignStopped(s, id)) && Evolves(s, ForeignStopped(s, id))
  {
    hide TableOk, Cancelled, LedgerGrows, CallsOk, TermsOk;
    var t := ForeignStopped(s, id);
    CallsStop(CallsOf(s), s.table, id);
    TermsStop(s.history, s.table, s.delay, s.marks.startedBefore, id);
    Stopping(s.table, id);
    Unrecorded(cfg, s, t);
    SilentEvolves(s, t);
  }

  /** What somebody else watches or unwatches is not the client's socket, or breaks the rules. */
  lemma {:induction false} ForeignWatchedInv(cfg: Config, s: State, fd: int, id: nat, ws: seq<SocketWatch>)
    requires Inv(cfg, s) && (ws == Unwatch(s.watches, fd) || ws == Watch(s.watches, fd, ForeignHandler(id)))
    ensures Inv(cfg, ForeignWatched(s, fd, ws)) && Evolves(s, ForeignWatched(s, fd, ws))
  {
    hide Watch, Unwatch, WatchMap, Distinct, TableOk, CallsOk, TermsOk;
    var t := ForeignWatched(s, fd, ws);
    WatchRefinesMap(s.watches, fd, ForeignHandler(id));
    UnwatchRefinesMap(s.watches, fd);
    if fd != s.socket {
      OtherWatch(s.watches, fd, ForeignHandler(id), s.socket);
    }
    Unrecorded(cfg, s, t);
    SilentEvolves(s, t);
  }

  lemma {:induction false} AdoptedInv(cfg: Config, s: State, frame: nat)
    requires Inv(cfg, s) && frame < |s.contexts| && (s.userData.Context? ==> s.userData == Context(frame))
    ensures Inv(cfg, Adopted(s)) && EvolvesPast(frame, s, Adopted(s))
  {
    hide TableOk, CallsOk, TermsOk, Distinct, WatchMap;
    Unrecorded(cfg, s, Adopted(s));
    SameLink(s, Adopted(s));
  }

  lemma {:induction false} UserStepsInv(cfg: Config, s: State)
    requires Inv(cfg, s)
    ensures Inv(cfg, UserSteps(s)) && Evolves(s, UserSteps(s))
  {
    hide TableOk, CallsOk, TermsOk, Distinct, WatchMap;
    Unrecorded(cfg, s, UserSteps(s));
    SameLink(s, UserSteps(s));
    SilentEvolves(s, UserSteps(s));
  }

  lemma {:induction false} CallsAllowed(cfg: Config, s: State, reentries: nat)
    requires Inv(cfg, s)
    ensures Inv(cfg, s.(reentries := reentries)) && Later(s, s.(reentries := reentries))
  {
    Unrecorded(cfg, s, s.(reentries := reentries));
    SameLink(s, s.(reentries := reentries));
    LaterRefl(s);
  }

  /** One call less is left to the user's callbacks. */
  lemma {:induction false} CallSpent(cfg: Config, s: State)
    requires Inv(cfg, s) && s.reentries > 0
    ensures Inv(cfg, s.(reentries := s.reentries - 1)) && Evolves(s, s.(reentries := s.reentries - 1))
  {
    var u := s.(reentries := s.reentries - 1);
    Unrecorded(cfg, s, u);
    SameLink(s, u);
    LedgerRefl(s.table);
    SilentEvolves(s, u);
  }

  /** Calls of the library leave everything but the record as it was. */
  lemma {:induction false} RecordedInv(cfg: Config, s: State, calls: seq<(LibraryCall, int)>)
    requires Inv(cfg, s)
    ensures Inv(cfg, Recorded(s, calls)) && Evolves(s, Recorded(s, calls))
  {
    if calls == [] {
      EvolvesRefl(s);
    } else {
      var n := |calls| - 1;
      var m := Recorded(s, calls[..n]);
      RecordedInv(cfg, s, calls[..n]);
      hide Inv, EvolvesPast;
      NotedInv(cfg, m, Library(calls[n].0, calls[n].1));
      EvolvesTransitive(s, m, Recorded(s, calls));
    }
  }

  /** Recording what goes in front also comes in front. */
  lemma {:induction false} RecordedTogether(s: State, calls: seq<(LibraryCall, int)>, more: seq<(LibraryCall, int)>)
    ensures Recorded(Recorded(s, calls), more) == Recorded(s, calls + more)
  {
    if more == [] {
      assert calls + more == calls;
    } else {
      var n := |more| - 1;
      RecordedTogether(s, calls, more[..n]);
      assert (calls + more)[..|calls| + n] == calls + more[..n];
    }
  }

  // ----- receiving and waiting, one after the other

  lemma {:induction false} BatchBegins(cfg: Config, s: State, packets: seq<Packet>, x: Reception,
                                       xs: seq<Reception>, points: seq<State>)
    requires packets != [] && BatchReceived(cfg, packets[1..], xs, points)
    requires x.packet == packets[0] && ReceivedAs(cfg, s, x, points[0])
    ensures BatchReceived(cfg, packets, [x] + xs, [s] + points)
  {
    hide ReceivedAs;
    var ys, ps := [x] + xs, [s] + points;
    forall i | 0 <= i < |packets| ensures ys[i].packet == packets[i] && ReceivedAs(cfg, ps[i], ys[i], ps[i + 1]) {
      if i > 0 {
        assert ys[i] == xs[i - 1] && packets[i] == packets[1..][i - 1] && ps[i] == points[i - 1] && ps[i + 1] == points[i];
      }
    }
  }

  /** One round more. */
  ghost function WaitOn(w: WaitRun, turn: WaitTurn, t: State): WaitRun { WaitRun(w.turns + [turn], w.points + [t], t) }

  lemma SameLeft(timeout: int, w: WaitRun, turn: WaitTurn, t: State)
    ensures forall i | 0 <= i <= |w.turns| ::
              LeftAfter(timeout, WaitOn(w, turn, t).turns, i) == LeftAfter(timeout, w.turns, i)
  {
  }

  lemma {:induction false} WaitsStep(c: Condition, fd: int, timeout: int, s: State, w: WaitRun, turn: WaitTurn, t: State)
    requires WaitsMade(c, fd, timeout, s, w) && !SelectFailedIn(w) && Pending(w.after, c)
    requires turn.left == LeftAfter(timeout, w.turns, |w.turns|) && !UsedUp(turn.left) && WaitMade(w.after, fd, turn, t)
    ensures WaitsMade(c, fd, timeout, s, WaitOn(w, turn, t))
  {
    hide WaitMade, Pending, UsedUp, LeftAfter;
    SameLeft(timeout, w, turn, t);
    var u, n := WaitOn(w, turn, t), |w.turns|;
    forall i | 0 <= i < n + 1
      ensures Pending(u.points[i], c) && u.turns[i].left == LeftAfter(timeout, u.turns, i) && !UsedUp(u.turns[i].left)
      ensures WaitMade(u.points[i], fd, u.turns[i], u.points[i + 1])
    {
      assert u.points[i] == w.points[i] && (i > 0 ==> u.turns[i - 1] == w.turns[i - 1]);
      assert LeftAfter(timeout, u.turns, i) == LeftAfter(timeout, w.turns, i);
      if i < n {
        assert u.turns[i] == w.turns[i] && u.points[i + 1] == w.points[i + 1];
      } else {
        assert u.turns[i] == turn && u.points[i + 1] == t;
      }
    }
  }

  /** Asking the client what to wait for. */
  lemma {:induction false} EventsAskedInv(cfg: Config, s: State, wants: int)
    requires Inv(cfg, s)
    ensures Inv(cfg, EventsAsked(s, wants)) && Evolves(s, EventsAsked(s, wants))
  {
    hide Inv, EvolvesPast;
    EvolvesRefl(s);
    NotedInv(cfg, s, Library(WantWrite, wants));
  }

  /** Asking what to wait for, and waiting for it. */
  lemma {:induction false} PolledInv(cfg: Config, s: State, wants: int, asked: Fds, timeout: Timeval, found: Fds, rc: int)
    requires Inv(cfg, s)
    ensures var p := Log(EventsAsked(s, wants), Polled(asked, timeout, found, rc)); Inv(cfg, p) && Evolves(s, p)
  {
    hide Inv, EvolvesPast;
    var e := EventsAsked(s, wants);
    EvolvesRefl(s);
    NotedInv(cfg, s, Library(WantWrite, wants));
    NotedInv(cfg, e, Polled(asked, timeout, found, rc));
    EvolvesTransitive(s, e, Log(e, Polled(asked, timeout, found, rc)));
  }

  // ----- what connect leaves behind

  /** Before its login is accepted, no connect is the one that opened the session. */
  lemma {:induction false} EndsEarly(cfg: Config, frame: nat, r: Result, t: State)
    requires Explained(t.history, frame, r) && !r.Ok? && !EventsRefused(PhaseOf(t.history, frame))
    ensures ConnectSpec(cfg, frame, r, t)
  {
    if OpenerOf(t.history) == Some(frame) {
      OpenersLoggedIn(t.history, frame);
    }
  }

  lemma {:induction false} OwnTopicJoined(cfg: Config, frame: nat, rc: int, left: int, s: State, t: State)
    requires PhaseOf(s.history, frame) == Dialled(Some(0))
    requires var h := Then(s.history, Handshake(frame, JoinOwn(rc)));
             t.history == if rc == 0 then h else Then(h, Library(LeaveBroker, left))
    ensures PhaseOf(t.history, frame).Joined? <==> rc == 0
    ensures rc != 0 ==> ConnectSpec(cfg, frame, Err(Transport), t)
  {
    if rc != 0 {
      Unrelated(Then(s.history, Handshake(frame, JoinOwn(rc))), Library(LeaveBroker, left));
      EndsEarly(cfg, frame, Err(Transport), t);
    }
  }

  lemma {:induction false} EventsTopicJoined(cfg: Config, frame: nat, rc: int, left: int, s: State, t: State)
    requires LoggedInSpec(cfg, frame, s) && t.session == s.session
    requires var h := Then(s.history, Handshake(frame, JoinEvents(rc)));
             t.history == if rc == 0 then h else Then(h, Library(LeaveBroker, left))
    ensures ConnectSpec(cfg, frame, if rc == 0 then Ok else Err(Transport), t)
  {
    var m := t.(history := Then(s.history, Handshake(frame, JoinEvents(rc))));
    assert ConnectSpec(cfg, frame, if rc == 0 then Ok else Err(Transport), m);
    if rc != 0 {
      ConnectSpecKept(cfg, frame, Err(Transport), m, t, Library(LeaveBroker, left));
    }
  }

  lemma LoginAccepted(cfg: Config, frame: nat, s: State, request: nat, content: Content)
    requires PhaseOf(s.history, frame) == LoginSent(request) && LoginAnswer(cfg, s.history, request, content)
    requires content.loginStatus == 0 && LoginOnWire(cfg, s.history, frame, request)
    ensures Granted(cfg, s.history, GrantFor(s.history, request, content))
    ensures LoggedInSpec(cfg, frame, SessionOpened(s, frame, GrantFor(s.history, request, content)))
  {
  }

  /** What happens to a session after connect has looked at it: nothing that any of these events says. */
  lemma ConnectSpecKept(cfg: Config, frame: nat, r: Result, s: State, t: State, e: Event)
    requires ConnectSpec(cfg, frame, r, s) && t.session == s.session && t.history == Then(s.history, e)
    requires !e.Handshake? && !e.Response? && !e.SessionReset?
    ensures ConnectSpec(cfg, frame, r, t)
  {
  }

  /** What a request comes to, and the content of the last payload when it succeeds. */
  lemma {:induction false} AnswerJudged(cfg: Config, name: TypeName, key: bytes, ps: seq<bytes>,
                                        r: Result, response: Option<Content>)
    requires r == Outcome(cfg, name, key, ps)
    requires r.Ok? ==> ps != [] && response.Some? && Judge(cfg, name, key, ps[|ps| - 1]) == Good(response.value)
    ensures RequestComesTo(cfg, name, key, ps, r)
    ensures r.Ok? ==> Answers(cfg, name, key, ps[|ps| - 1], response.value)
  {
    OutcomeComesTo(cfg, name, key, ps);
    if r.Ok? {
      JudgeMeans(cfg, name, key, ps[|ps| - 1]);
    }
  }

  /** Only silence makes a request time out. */
  lemma {:induction false} TimesOutUnanswered(cfg: Config, name: TypeName, key: bytes, ps: seq<bytes>)
    ensures Outcome(cfg, name, key, ps) == Err(ResponseTimeout) <==> ps == []
  {
    var i := LastBadFound(cfg, name, key, ps);
  }

  /** What an attempt's connect brought is still so after the attempt has been counted. */
  lemma {:induction false} AttemptEnds(cfg: Config, s: State, t: State, r: Result, u: State, luck: Luck)
    requires TableOk(t.table) && Evolves(s, t) && s.marks.onStack
    requires s.connected ==> r.Ok? && t == s
    requires !s.connected ==> ConnectSpec(cfg, |s.contexts|, r, t) && (!r.Ok? ==> FailedConnect(s, r, t))
    requires r.Ok? ==> (t.session.Some? <==> !s.connected || s.session.Some?)
    requires !s.connected && r.Ok? && t.marks.disciplined ==>
               t.connected && t.marks.linkUp && Holds(t.table, t.miscId, MiscTimer)
    requires u == if r.Ok? then AttemptSucceeded(t, !s.connected) else AttemptFailed(t, luck.elapsed, luck.delay)
    requires !r.Ok? && t.marks.disciplined ==> Holds(u.table, u.reconnectId, ReconnectTimer)
    ensures AttemptSpec(cfg, s, r, u)
  {
    hide Outcome, Judge, Explains, Started;
    if !s.connected {
      if r.Ok? {
        ConnectSpecKept(cfg, |s.contexts|, r, t, u, ReconnectSucceeded);
      } else {
        var m := t.(history := Then(t.history, ReconnectFailed));
        assert FailuresOf(m.history) == FailuresOf(s.history) + 1;
        ConnectSpecKept(cfg, |s.contexts|, r, t, m, ReconnectFailed);
        ConnectSpecKept(cfg, |s.contexts|, r, m, u, DelayArmed(NextTicket(t.table), luck.delay));
      }
    }
  }

  /** When a session is open after a failed connect: its own, from a refused events topic, or one it found or others opened. */
  lemma {:induction false} SessionAfterFailure(cfg: Config, frame: nat, r: Result, s: State, t: State)
    requires Inv(cfg, s) && Inv(cfg, t) && Extends(s.history, t.history)
    requires PhaseOf(s.history, frame).Untouched? && ConnectSpec(cfg, frame, r, t) && !r.Ok?
    ensures t.session.Some? <==> EventsRefused(PhaseOf(t.history, frame)) || OpenElsewhere(s.history, t.history, frame)
  {
    OpenersKnown(s.history, t.history, frame);
  }
}
