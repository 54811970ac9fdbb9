/**
 The slot tables of SelectEventLoop as values: what starting, stopping and firing a timer does to them,
 and a ledger that gives every started timer a ticket of its own.
 */
module Timers {
  import opened Time

  /** What a timer calls: the client's two callbacks, or some other user of the loop. */
  datatype Callback = NoCallback | ReconnectTimer | MiscTimer | ForeignTimer(id: nat)

  /** A timer slot; times are nanoseconds of the steady clock. */
  datatype Timer = Timer(expiresAt: int, callback: Callback) {
    predicate IsActive() { callback != NoCallback }
    predicate HasExpired(now: int) { expiresAt <= now }
  }

  const TIMER_COUNT: nat := 64
  const INVALID_TIMER: int := -1
  const RELEASED: Timer := Timer(0, NoCallback)

  datatype Status = Armed(slot: int) | Fired(at: int) | Stopped

  /** The terms on which a timer was started: what the clock showed, the delay in milliseconds, and the callback. */
  datatype Ticket = Ticket(startedAt: int, delay: int, callback: Callback, status: Status) {
    function Due(): int { startedAt + delay * NANOS_PER_MILLI }
  }

  /** The slots, the tickets handed out so far, for each active slot its ticket, and what the steady clock showed last. */
  datatype Table = Table(timers: seq<Timer>, tickets: seq<Ticket>, holder: seq<nat>, clock: int)

  ghost predicate TableOk(t: Table) {
    && |t.timers| == |t.holder| == TIMER_COUNT
    && (forall i | 0 <= i < TIMER_COUNT && t.timers[i].IsActive() ::
          && t.holder[i] < |t.tickets|
          && t.tickets[t.holder[i]].callback == t.timers[i].callback
          && t.tickets[t.holder[i]].Due() == t.timers[i].expiresAt
          && t.tickets[t.holder[i]].status == Armed(i))
    && (forall k | 0 <= k < |t.tickets| :: TicketOk(t, k))
  }

  ghost predicate TicketOk(t: Table, k: nat)
    requires |t.timers| == |t.holder| == TIMER_COUNT && k < |t.tickets|
  {
    && t.tickets[k].startedAt <= t.clock
    && match t.tickets[k].status
       case Armed(i) => 0 <= i < TIMER_COUNT && t.timers[i].IsActive() && t.holder[i] == k
       case Fired(at) => t.tickets[k].Due() <= at <= t.clock
       case Stopped => true
  }

  /** The clock is read again, `elapsed` nanoseconds after it was read last. */
  ghost function Ticked(t: Table, elapsed: nat): Table { t.(clock := t.clock + elapsed) }

  function FirstFree(ts: seq<Timer>, from: nat): (id: int)
    requires from <= |ts|
    ensures id == INVALID_TIMER <==> forall j | from <= j < |ts| :: ts[j].IsActive()
    ensures id != INVALID_TIMER ==> from <= id < |ts| && !ts[id].IsActive()
    ensures id != INVALID_TIMER ==> forall j | from <= j < id :: ts[j].IsActive()
    decreases |ts| - from
  {
    if from == |ts| then INVALID_TIMER
    else if !ts[from].IsActive() then from
    else FirstFree(ts, from + 1)
  }

  function StartId(t: Table): int { FirstFree(t.timers, 0) }

  /** With a slot free, the clock is read and the timer takes the first such slot; otherwise nothing happens. */
  ghost function Started(t: Table, elapsed: nat, delay: int, callback: Callback): Table
    requires |t.timers| == |t.holder|
  {
    var id, now := StartId(t), t.clock + elapsed;
    if id == INVALID_TIMER then t
    else if callback == NoCallback then
      t.(timers := t.timers[id := Timer(now + delay * NANOS_PER_MILLI, callback)], clock := now)
    else Table(
      t.timers[id := Timer(now + delay * NANOS_PER_MILLI, callback)],
      t.tickets + [Ticket(now, delay, callback, Armed(id))],
      t.holder[id := |t.tickets|],
      now)
  }

  /** Clears a slot; if it was active its ticket ends with the given status. */
  ghost function Release(t: Table, id: int, status: Status): Table
    requires TableOk(t)
  {
    if !(0 <= id < TIMER_COUNT) then t
    else if !t.timers[id].IsActive() then t.(timers := t.timers[id := RELEASED])
    else t.(timers := t.timers[id := RELEASED],
            tickets := t.tickets[t.holder[id] := t.tickets[t.holder[id]].(status := status)])
  }

  ghost function Cancelled(t: Table, id: int): Table
    requires TableOk(t)
  {
    Release(t, id, Stopped)
  }

  /** The slot of a timer that is due when the clock is read. */
  ghost function Expired(t: Table, id: int, elapsed: nat): Table
    requires TableOk(t)
  {
    TickOk(t, elapsed);
    Release(Ticked(t, elapsed), id, Fired(t.clock + elapsed))
  }

  /** Tickets are never forgotten, one that fired or was stopped stays so, and the clock does not go back. */
  ghost predicate LedgerGrows(t0: Table, t1: Table) {
    && |t0.tickets| <= |t1.tickets| && t0.clock <= t1.clock
    && forall k | 0 <= k < |t0.tickets| :: TicketGrows(t0.tickets[k], t1.tickets[k])
  }

  predicate TicketGrows(a: Ticket, b: Ticket) {
    && a.startedAt == b.startedAt && a.delay == b.delay && a.callback == b.callback
    && (!a.status.Armed? ==> b.status == a.status)
    && (a.status.Armed? && b.status.Armed? ==> b.status == a.status)
  }

  lemma {:induction false} TickOk(t: Table, elapsed: nat)
    requires TableOk(t)
    ensures TableOk(Ticked(t, elapsed)) && LedgerGrows(t, Ticked(t, elapsed))
  {
    forall k | 0 <= k < |t.tickets| ensures TicketOk(Ticked(t, elapsed), k) {
      assert TicketOk(t, k);
    }
  }

  lemma {:induction false} StartOk(t: Table, elapsed: nat, delay: int, callback: Callback)
    requires TableOk(t)
    ensures TableOk(Started(t, elapsed, delay, callback)) && LedgerGrows(t, Started(t, elapsed, delay, callback))
  {
    var id := StartId(t);
    if id != INVALID_TIMER && callback != NoCallback {
      var u := Started(t, elapsed, delay, callback);
      forall k | 0 <= k < |u.tickets| ensures TicketOk(u, k) {
        if k < |t.tickets| {
          assert TicketOk(t, k);
        }
      }
    } else if id != INVALID_TIMER {
      var u := Started(t, elapsed, delay, callback);
      forall k | 0 <= k < |u.tickets| ensures TicketOk(u, k) {
        assert TicketOk(t, k);
      }
    }
  }

  lemma {:induction false} ReleaseOk(t: Table, id: int, status: Status)
    requires TableOk(t) && !status.Armed?
    requires status.Fired? && 0 <= id < TIMER_COUNT && t.timers[id].IsActive() ==>
               t.timers[id].expiresAt <= status.at <= t.clock
    ensures TableOk(Release(t, id, status)) && LedgerGrows(t, Release(t, id, status))
  {
    var u := Release(t, id, status);
    if 0 <= id < TIMER_COUNT {
      forall k | 0 <= k < |u.tickets| ensures TicketOk(u, k) {
        assert TicketOk(t, k);
      }
    }
  }

  /** A timer that is due when the clock is read ends as fired. */
  lemma {:induction false} ExpireOk(t: Table, id: int, elapsed: nat)
    requires TableOk(t) && 0 <= id < TIMER_COUNT && t.timers[id].IsActive() && t.timers[id].expiresAt <= t.clock + elapsed
    ensures TableOk(Expired(t, id, elapsed)) && LedgerGrows(t, Expired(t, id, elapsed))
    ensures t.holder[id] < |t.tickets| && Expired(t, id, elapsed).tickets[t.holder[id]].status == Fired(t.clock + elapsed)
  {
    TickOk(t, elapsed);
    ReleaseOk(Ticked(t, elapsed), id, Fired(t.clock + elapsed));
    LedgerTransitive(t, Ticked(t, elapsed), Expired(t, id, elapsed));
  }

  /** What starting does to the slots: the first free one, if any, takes the timer. */
  lemma {:induction false} Starting(t: Table, elapsed: nat, delay: int, callback: Callback)
    requires TableOk(t)
    ensures TableOk(Started(t, elapsed, delay, callback)) && LedgerGrows(t, Started(t, elapsed, delay, callback))
    ensures |t.timers| == |Started(t, elapsed, delay, callback).timers| == TIMER_COUNT && INVALID_TIMER <= StartId(t) < TIMER_COUNT
    ensures StartId(t) != INVALID_TIMER ==> !t.timers[StartId(t)].IsActive()
    ensures forall i | 0 <= i < TIMER_COUNT ::
              Started(t, elapsed, delay, callback).timers[i]
              == if i == StartId(t) then Timer(t.clock + elapsed + delay * NANOS_PER_MILLI, callback) else t.timers[i]
  {
    StartOk(t, elapsed, delay, callback);
  }

  /** What stopping does to the slots: the one with the id, if it is in range, is free. */
  lemma {:induction false} Stopping(t: Table, id: int)
    requires TableOk(t)
    ensures TableOk(Cancelled(t, id)) && LedgerGrows(t, Cancelled(t, id))
    ensures |t.timers| == |Cancelled(t, id).timers| == TIMER_COUNT
    ensures forall i | 0 <= i < TIMER_COUNT :: Cancelled(t, id).timers[i] == if i == id then RELEASED else t.timers[i]
  {
    ReleaseOk(t, id, Stopped);
  }

  lemma LedgerRefl(t: Table)
    ensures LedgerGrows(t, t)
  {
  }

  lemma {:induction false} LedgerTransitive(a: Table, b: Table, c: Table)
    requires LedgerGrows(a, b) && LedgerGrows(b, c)
    ensures LedgerGrows(a, c)
  {
    forall k | 0 <= k < |a.tickets| ensures TicketGrows(a.tickets[k], c.tickets[k]) {
      assert TicketGrows(a.tickets[k], b.tickets[k]) && TicketGrows(b.tickets[k], c.tickets[k]);
    }
  }

  // ----- callbacks called

  /** Exactly the tickets that fired have had their callback called, once each. */
  ghost predicate CallsOk(calls: multiset<nat>, t: Table) {
    forall k: nat :: calls[k] == if k < |t.tickets| && t.tickets[k].status.Fired? then 1 else 0
  }

  lemma {:induction false} CallsStart(calls: multiset<nat>, t: Table, elapsed: nat, delay: int, callback: Callback)
    requires TableOk(t) && CallsOk(calls, t)
    ensures CallsOk(calls, Started(t, elapsed, delay, callback))
  {
    var u := Started(t, elapsed, delay, callback);
    assert forall k: nat | k < |t.tickets| :: u.tickets[k] == t.tickets[k];
  }

  lemma {:induction false} CallsStop(calls: multiset<nat>, t: Table, id: int)
    requires TableOk(t) && CallsOk(calls, t)
    ensures CallsOk(calls, Cancelled(t, id))
  {
    assert 0 <= id < TIMER_COUNT && t.timers[id].IsActive() ==> t.tickets[t.holder[id]].status.Armed?;
  }

  lemma {:induction false} CallsFire(calls: multiset<nat>, t: Table, id: int, elapsed: nat)
    requires TableOk(t) && CallsOk(calls, t) && 0 <= id < TIMER_COUNT && t.timers[id].IsActive()
    ensures CallsOk(calls + multiset{t.holder[id]}, Expired(t, id, elapsed))
  {
    assert t.tickets[t.holder[id]].status.Armed?;
  }

  // ----- conservation

  ghost function WithStatus(t: Table, armed: bool, fired: bool): set<nat> {
    set k: nat | k < |t.tickets| && t.tickets[k].status.Armed? == armed && t.tickets[k].status.Fired? == fired
  }

  ghost function ArmedTickets(t: Table): set<nat> { WithStatus(t, true, false) }
  ghost function FiredTickets(t: Table): set<nat> { WithStatus(t, false, true) }
  ghost function StoppedTickets(t: Table): set<nat> { WithStatus(t, false, false) }

  ghost function ActiveSlots(t: Table, n: nat): set<nat>
    requires n <= |t.timers|
  {
    set i: nat | i < n && t.timers[i].IsActive()
  }

  ghost function HeldBy(t: Table, slots: set<nat>): set<nat>
    requires forall i | i in slots :: i < |t.holder|
  {
    set i | i in slots :: t.holder[i]
  }

  lemma {:induction false} HoldersAreDistinct(t: Table, slots: set<nat>)
    requires TableOk(t)
    requires forall i | i in slots :: i < TIMER_COUNT && t.timers[i].IsActive()
    ensures |HeldBy(t, slots)| == |slots|
  {
    if slots == {} {
      assert HeldBy(t, slots) == {};
    } else {
      var i :| i in slots;
      var rest := slots - {i};
      HoldersAreDistinct(t, rest);
      assert HeldBy(t, slots) == HeldBy(t, rest) + {t.holder[i]};
      assert t.holder[i] !in HeldBy(t, rest) by {
        assert t.tickets[t.holder[i]].status == Armed(i);
      }
    }
  }

  /** The first `n` naturals. */
  ghost function Below(n: nat): (s: set<nat>)
    ensures |s| == n && forall k: nat :: k in s <==> k < n
  {
    if n == 0 then {} else Below(n - 1) + {n - 1}
  }

  lemma {:induction false} ArmedAreHeld(t: Table)
    requires TableOk(t)
    ensures ArmedTickets(t) == HeldBy(t, ActiveSlots(t, |t.timers|))
  {
    var slots := ActiveSlots(t, |t.timers|);
    forall k | k in ArmedTickets(t) ensures k in HeldBy(t, slots) {
      assert TicketOk(t, k);
      var i: nat := t.tickets[k].status.slot;
      assert i in slots;
    }
  }

  lemma DisjointUnionSize(a: set<nat>, b: set<nat>, c: set<nat>)
    requires a !! b !! c
    ensures |a + b + c| == |a| + |b| + |c|
  {
  }

  /**
   Every ticket ever handed out is in exactly one of three places; the armed ones are
   exactly the active slots' holders, so nothing is lost or counted twice.
   */
  lemma {:induction false} Conservation(t: Table)
    requires TableOk(t)
    ensures ArmedTickets(t) !! FiredTickets(t) !! StoppedTickets(t)
    ensures ArmedTickets(t) + FiredTickets(t) + StoppedTickets(t) == Below(|t.tickets|)
    ensures ArmedTickets(t) == HeldBy(t, ActiveSlots(t, |t.timers|))
    ensures |t.tickets| == |ActiveSlots(t, |t.timers|)| + |FiredTickets(t)| + |StoppedTickets(t)|
  {
    ArmedAreHeld(t);
    HoldersAreDistinct(t, ActiveSlots(t, |t.timers|));
    DisjointUnionSize(ArmedTickets(t), FiredTickets(t), StoppedTickets(t));
  }

  // ----- the slots seen as a map from id to timer

  function ArmedMap(ts: seq<Timer>): map<nat, Timer> {
    map i: nat | i < |ts| && ts[i].IsActive() :: ts[i]
  }

  /** Every id below the answer is taken; there is no answer exactly when all ids are. */
  lemma {:induction false} FullTable(ts: seq<Timer>)
    ensures FirstFree(ts, 0) == INVALID_TIMER <==> |ArmedMap(ts)| == |ts|
  {
    var keys, all := ArmedMap(ts).Keys, Below(|ts|);
    assert |ArmedMap(ts)| == |keys|;
    if FirstFree(ts, 0) == INVALID_TIMER {
      assert keys == all;
    } else {
      Fewer(keys, all, FirstFree(ts, 0));
    }
  }

  /** Starting a timer is a map update at the least free id, and fails exactly when all ids are taken. */
  lemma {:induction false} StartRefinesMap(t: Table, elapsed: nat, delay: int, callback: Callback)
    requires TableOk(t) && callback != NoCallback
    ensures StartId(t) == INVALID_TIMER <==> |ArmedMap(t.timers)| == |t.timers|
    ensures StartId(t) == INVALID_TIMER ==> Started(t, elapsed, delay, callback) == t
    ensures StartId(t) != INVALID_TIMER ==>
              && StartId(t) !in ArmedMap(t.timers)
              && (forall j: nat | j < StartId(t) :: j in ArmedMap(t.timers))
              && ArmedMap(Started(t, elapsed, delay, callback).timers)
                 == ArmedMap(t.timers)[StartId(t) := Timer(t.clock + elapsed + delay * NANOS_PER_MILLI, callback)]
  {
    FullTable(t.timers);
  }

  lemma {:induction false} Fewer(a: set<nat>, b: set<nat>, x: nat)
    requires a <= b && x in b && x !in a
    ensures |a| < |b|
  {
    Within(a, b - {x});
  }

  lemma {:induction false} Within(a: set<nat>, b: set<nat>)
    requires a <= b
    ensures |a| <= |b|
  {
    if a == {} {
    } else {
      var x :| x in a;
      Within(a - {x}, b - {x});
    }
  }

  lemma StopRefinesMap(t: Table, id: int)
    requires TableOk(t)
    ensures ArmedMap(Cancelled(t, id).timers) == map i | i in ArmedMap(t.timers) && i != id :: ArmedMap(t.timers)[i]
  {
  }
}
