/** SelectEventLoop: fixed slot tables with first-fit allocation, updated in place. */
module EventLoops {
  import opened Time
  import opened Timers
  import opened Watches

  class SelectEventLoop {
    const mTimers: array<Timer>
    const mSocketWatches: array<SocketWatch>
    var mRun: bool
    /** What the steady clock has shown last. */
    var mClock: int

    /** The timer slots together with the ledger of every timer ever started. */
    ghost var table: Table
    /** The watch slots. */
    ghost var watches: seq<SocketWatch>

    ghost predicate Valid()
      reads this, mTimers, mSocketWatches
    {
      && mTimers[..] == table.timers && mClock == table.clock && TableOk(table)
      && mSocketWatches[..] == watches && |watches| == WATCH_COUNT && Distinct(watches)
    }

    constructor ()
      ensures Valid() && mRun && fresh(mTimers) && fresh(mSocketWatches)
      ensures table == Table(seq(TIMER_COUNT, _ => RELEASED), [], seq(TIMER_COUNT, _ => 0), 0)
      ensures watches == seq(WATCH_COUNT, _ => UNUSED)
    {
      mTimers := new Timer[TIMER_COUNT](_ => RELEASED);
      mSocketWatches := new SocketWatch[WATCH_COUNT](_ => UNUSED);
      mRun, mClock := true, 0;
      table := Table(seq(TIMER_COUNT, _ => RELEASED), [], seq(TIMER_COUNT, _ => 0), 0);
      watches := seq(WATCH_COUNT, _ => UNUSED);
    }

    method Stop()
      requires Valid()
      modifies this`mRun
      ensures Valid() && !mRun
    {
      mRun := false;
    }

    /** Clock::now(): the steady clock never goes back. */
    method Now() returns (now: int, ghost elapsed: nat)
      requires Valid()
      modifies this`mClock, this`table
      ensures Valid() && table == Ticked(old(table), elapsed) && now == table.clock
    {
      var reading: int := *;
      TickOk(table, if reading < mClock then 0 else reading - mClock);
      elapsed := if reading < mClock then 0 else reading - mClock;
      mClock := if reading < mClock then mClock else reading;
      table := Ticked(table, elapsed);
      now := mClock;
    }

    /** The clock is read once a free slot has been found; `delay` is in milliseconds. */
    method StartTimer(delay: int, callback: Callback) returns (id: int, ghost elapsed: nat)
      requires Valid()
      modifies this`mClock, this`table, mTimers
      ensures Valid()
      ensures id == StartId(old(table))
      ensures table == Started(old(table), elapsed, delay, callback)
    {
      ghost var was := table;
      for i := 0 to TIMER_COUNT
        invariant mTimers[..] == was.timers && table == was && mClock == was.clock
        invariant FirstFree(was.timers, 0) == FirstFree(was.timers, i)
      {
        if mTimers[i].callback != NoCallback {
          continue;
        }
        var now;
        now, elapsed := Now();
        StartOk(was, elapsed, delay, callback);
        mTimers[i] := Timer(now + delay * NANOS_PER_MILLI, callback);
        table := Started(was, elapsed, delay, callback);
        return i, elapsed;
      }
      return INVALID_TIMER, 0;
    }

    method StopTimer(id: int)
      requires Valid()
      modifies this`table, mTimers
      ensures Valid()
      ensures table == Cancelled(old(table), id)
    {
      ReleaseOk(table, id, Stopped);
      if id > INVALID_TIMER && id < TIMER_COUNT {
        mTimers[id] := RELEASED;
      }
      table := Cancelled(table, id);
    }

    /** One step of the firing pass: an expired slot is released, and its callback handed out to be called. */
    method TakeExpired(id: int) returns (callback: Callback, ghost elapsed: nat)
      requires Valid() && 0 <= id < TIMER_COUNT && mTimers[id].IsActive()
      modifies this`mClock, this`table, mTimers
      ensures Valid()
      ensures callback == if old(mTimers[id].expiresAt) <= mClock then old(mTimers[id].callback) else NoCallback
      ensures mClock == old(mClock) + elapsed
      ensures table == if callback == NoCallback then Ticked(old(table), elapsed) else Expired(old(table), id, elapsed)
    {
      ghost var was := table;
      callback := NoCallback;
      var now;
      now, elapsed := Now();
      if mTimers[id].HasExpired(now) {
        callback := mTimers[id].callback;
        ExpireOk(was, id, elapsed);
        mTimers[id] := RELEASED;
        table := Expired(was, id, elapsed);
      }
    }

    method UnwatchSocket(socketFd: int)
      requires Valid()
      modifies this`watches, mSocketWatches
      ensures Valid() && watches == Unwatch(old(watches), socketFd)
    {
      UnwatchRefinesMap(watches, socketFd);
      for i := 0 to WATCH_COUNT
        invariant mSocketWatches[..] == watches == old(watches)
        invariant Find(watches, socketFd, 0) == Find(watches, socketFd, i)
      {
        if socketFd == mSocketWatches[i].socketFd {
          watches := Unwatch(watches, socketFd);
          mSocketWatches[i] := UNUSED;
          return;
        }
      }
    }

    method WatchSocket(socketFd: int, handler: Handler)
      requires Valid()
      modifies this`watches, mSocketWatches
      ensures Valid() && watches == Watch(old(watches), socketFd, handler)
    {
      WatchRefinesMap(watches, socketFd, handler);
      ghost var was := watches;
      UnwatchSocket(socketFd);
      for i := 0 to WATCH_COUNT
        invariant mSocketWatches[..] == watches == Unwatch(was, socketFd)
        invariant Find(watches, INVALID_FD, 0) == Find(watches, INVALID_FD, i)
      {
        if INVALID_FD == mSocketWatches[i].socketFd {
          watches := Watch(was, socketFd, handler);
          mSocketWatches[i] := SocketWatch(socketFd, handler);
          return;
        }
      }
    }

    /** Neither the deadline nor any expiry is reached within `nanos` nanoseconds from `now`. */
    ghost predicate QuietFor(deadline: int, now: int, nanos: int)
      requires Valid()
      reads this, mTimers, mSocketWatches
    {
      && nanos <= deadline - now
      && forall i | 0 <= i < TIMER_COUNT && mTimers[i].IsActive() :: nanos <= mTimers[i].expiresAt - now
    }

    /**
     The timeout for select, looking at the slots as they are after the firing pass. When nothing is
     overdue it never reaches past the deadline or an expiry, and a microsecond more would; select
     refuses it exactly when something is overdue by a whole microsecond.
     */
    method SelectTimeout(deadline: int, now: int) returns (timeout: Timeval)
      requires Valid() && deadline <= MAX_TIME
      ensures Selectable(timeout) <==> QuietFor(deadline, now, 1 - NANOS_PER_MICRO)
      ensures QuietFor(deadline, now, 0) ==>
                && QuietFor(deadline, now, Micros(timeout) * NANOS_PER_MICRO)
                && !QuietFor(deadline, now, (Micros(timeout) + 1) * NANOS_PER_MICRO)
    {
      var nextExpiration := MAX_TIME;
      for i := 0 to TIMER_COUNT
        invariant nextExpiration <= MAX_TIME
        invariant forall j | 0 <= j < i && mTimers[j].IsActive() :: nextExpiration <= mTimers[j].expiresAt
        invariant nextExpiration == MAX_TIME
                  || exists j | 0 <= j < i :: mTimers[j].IsActive() && mTimers[j].expiresAt == nextExpiration
      {
        if mTimers[i].IsActive() && mTimers[i].expiresAt < nextExpiration {
          nextExpiration := mTimers[i].expiresAt;
        }
      }
      var timerDelay := if nextExpiration - now < deadline - now then nextExpiration - now else deadline - now;
      TimevalBounds(timerDelay);
      assert forall n :: QuietFor(deadline, now, n) <==> n <= timerDelay;
      timeout := ToTimeval(timerDelay);
    }
  }
}
