/** The socket-watch slots of SelectEventLoop as values, and the map from descriptor to handler they stand for. */
module Watches {

  /** Who is told about socket events: the client, or some other user of the loop. */
  datatype Handler = NoHandler | ClientHandler | ForeignHandler(id: nat)

  datatype SocketWatch = SocketWatch(socketFd: int, handler: Handler) {
    predicate IsWatching() { socketFd != INVALID_FD }
  }

  const WATCH_COUNT: nat := 32
  const INVALID_FD: int := -1
  const UNUSED: SocketWatch := SocketWatch(INVALID_FD, NoHandler)

  /** The first slot from `from` on that holds this descriptor, or the number of slots. */
  function Find(ws: seq<SocketWatch>, fd: int, from: nat): (i: nat)
    requires from <= |ws|
    ensures from <= i <= |ws|
    ensures forall j | from <= j < i :: ws[j].socketFd != fd
    ensures i < |ws| ==> ws[i].socketFd == fd
    decreases |ws| - from
  {
    if from == |ws| || ws[from].socketFd == fd then from else Find(ws, fd, from + 1)
  }

  function Unwatch(ws: seq<SocketWatch>, fd: int): (r: seq<SocketWatch>)
    ensures |r| == |ws|
  {
    var i := Find(ws, fd, 0);
    if i == |ws| then ws else ws[i := UNUSED]
  }

  function Watch(ws: seq<SocketWatch>, fd: int, handler: Handler): (r: seq<SocketWatch>)
    ensures |r| == |ws|
  {
    var u := Unwatch(ws, fd);
    var i := Find(u, INVALID_FD, 0);
    if i == |u| then u else u[i := SocketWatch(fd, handler)]
  }

  /** No live descriptor sits in two slots. */
  ghost predicate Distinct(ws: seq<SocketWatch>) {
    forall i, j | 0 <= i < j < |ws| && ws[i].IsWatching() :: ws[i].socketFd != ws[j].socketFd
  }

  ghost function LiveFds(ws: seq<SocketWatch>): set<int> {
    set i | 0 <= i < |ws| && ws[i].IsWatching() :: ws[i].socketFd
  }

  /** The handler of each live descriptor. */
  ghost function WatchMap(ws: seq<SocketWatch>): map<int, Handler> {
    map fd | fd in LiveFds(ws) :: ws[Find(ws, fd, 0)].handler
  }

  lemma {:induction false} LiveAt(ws: seq<SocketWatch>, i: nat)
    requires Distinct(ws) && i < |ws| && ws[i].IsWatching()
    ensures ws[i].socketFd in WatchMap(ws) && WatchMap(ws)[ws[i].socketFd] == ws[i].handler
  {
    var f := Find(ws, ws[i].socketFd, 0);
    assert f == i;
  }

  /** Removing a descriptor from the slots removes it from the map and nothing else. */
  lemma {:induction false} UnwatchRefinesMap(ws: seq<SocketWatch>, fd: int)
    requires Distinct(ws)
    ensures Distinct(Unwatch(ws, fd))
    ensures WatchMap(Unwatch(ws, fd)) == WatchMap(ws) - {fd}
  {
    var u, k := Unwatch(ws, fd), Find(ws, fd, 0);
    forall x | x in LiveFds(ws) && x != fd
      ensures x in LiveFds(u) && u[Find(u, x, 0)].handler == ws[Find(ws, x, 0)].handler
    {
      var i := Find(ws, x, 0);
      assert u[i] == ws[i];
      LiveAt(u, i);
    }
    assert LiveFds(u) == LiveFds(ws) - {fd} by {
      forall x | x in LiveFds(u) ensures x in LiveFds(ws) && x != fd {
        var i :| 0 <= i < |u| && u[i].IsWatching() && u[i].socketFd == x;
        assert i != k && ws[i] == u[i];
      }
    }
  }

  /** The last slot adds its own descriptor, if it has one. */
  lemma {:induction false} LastSlot(ws: seq<SocketWatch>)
    requires |ws| > 0
    ensures var n := |ws| - 1;
            LiveFds(ws) == LiveFds(ws[..n]) + if ws[n].IsWatching() then {ws[n].socketFd} else {}
  {
    var n := |ws| - 1;
    var init := ws[..n];
    assert forall i | 0 <= i < n :: init[i] == ws[i];
    forall x | x in LiveFds(ws) ensures x in LiveFds(init) || (ws[n].IsWatching() && x == ws[n].socketFd) {
      var i :| 0 <= i < |ws| && ws[i].IsWatching() && ws[i].socketFd == x;
      assert i < n ==> init[i].IsWatching();
    }
    forall x | x in LiveFds(init) ensures x in LiveFds(ws) {
      var i :| 0 <= i < |init| && init[i].IsWatching() && init[i].socketFd == x;
      assert ws[i].IsWatching();
    }
  }

  /** How many slots are in use equals how many descriptors are live. */
  lemma {:induction false} SlotsInUse(ws: seq<SocketWatch>)
    requires Distinct(ws)
    ensures |LiveFds(ws)| <= |ws|
    ensures |LiveFds(ws)| == |ws| <==> forall i | 0 <= i < |ws| :: ws[i].IsWatching()
  {
    if |ws| == 0 {
      assert LiveFds(ws) == {};
    } else {
      var n := |ws| - 1;
      var init := ws[..n];
      assert forall i | 0 <= i < n :: init[i] == ws[i];
      SlotsInUse(init);
      LastSlot(ws);
      assert ws[n].IsWatching() ==> ws[n].socketFd !in LiveFds(init);
    }
  }

  /** With every slot taken by other descriptors, this one cannot be live. */
  lemma {:induction false} FullMeansAbsent(ws: seq<SocketWatch>, fd: int)
    requires Distinct(ws)
    requires |LiveFds(ws) - {fd}| == |ws|
    ensures WatchMap(ws) - {fd} == WatchMap(ws)
  {
    SlotsInUse(ws);
    assert fd in LiveFds(ws) ==> |LiveFds(ws) - {fd}| == |LiveFds(ws)| - 1;
  }

  lemma {:induction false} TakeSlotFds(u: seq<SocketWatch>, k: nat, fd: int, handler: Handler)
    requires Distinct(u) && k < |u| && !u[k].IsWatching() && fd !in LiveFds(u)
    ensures Distinct(u[k := SocketWatch(fd, handler)])
    ensures LiveFds(u[k := SocketWatch(fd, handler)]) == if fd == INVALID_FD then LiveFds(u) else LiveFds(u) + {fd}
  {
    var r := u[k := SocketWatch(fd, handler)];
    assert forall i | 0 <= i < |u| && u[i].IsWatching() :: u[i].socketFd in LiveFds(u);
    forall i | 0 <= i < |u| && u[i].IsWatching() ensures u[i].socketFd in LiveFds(r) {
      assert r[i] == u[i];
    }
    forall i | 0 <= i < |r| && i != k && r[i].IsWatching() ensures r[i].socketFd in LiveFds(u) {
      assert r[i] == u[i];
    }
    assert r[k].socketFd == fd;
  }

  lemma {:induction false} TakeSlot(u: seq<SocketWatch>, k: nat, fd: int, handler: Handler)
    requires Distinct(u) && k < |u| && !u[k].IsWatching() && fd !in LiveFds(u)
    ensures Distinct(u[k := SocketWatch(fd, handler)])
    ensures WatchMap(u[k := SocketWatch(fd, handler)]) ==
            if fd == INVALID_FD then WatchMap(u) else WatchMap(u)[fd := handler]
  {
    var r := u[k := SocketWatch(fd, handler)];
    TakeSlotFds(u, k, fd, handler);
    forall x | x in LiveFds(u) ensures r[Find(r, x, 0)].handler == u[Find(u, x, 0)].handler {
      var i := Find(u, x, 0);
      assert r[i] == u[i];
      LiveAt(r, i);
    }
    if fd != INVALID_FD {
      LiveAt(r, k);
    }
  }

  lemma MapFacts(m: map<int, Handler>, fd: int, handler: Handler)
    ensures (m - {fd})[fd := handler] == m[fd := handler]
    ensures fd !in m ==> m - {fd} == m
    ensures (m - {fd}).Keys == m.Keys - {fd}
  {
  }

  /** Taking the first unused slot, when the descriptor is in none. */
  lemma {:induction false} TakeFirst(u: seq<SocketWatch>, fd: int, handler: Handler)
    requires Distinct(u) && fd !in LiveFds(u)
    ensures var i := Find(u, INVALID_FD, 0);
            var r := if i == |u| then u else u[i := SocketWatch(fd, handler)];
            && Distinct(r)
            && WatchMap(r) == if fd == INVALID_FD || |LiveFds(u)| == |u| then WatchMap(u) else WatchMap(u)[fd := handler]
  {
    SlotsInUse(u);
    var i := Find(u, INVALID_FD, 0);
    if i < |u| {
      TakeSlot(u, i, fd, handler);
    }
  }

  /**
   Watching a descriptor is map update, unless it is -1 (no change at all) or every slot
   is taken by another descriptor (the request is dropped without a trace).
   */
  lemma {:induction false} WatchRefinesMap(ws: seq<SocketWatch>, fd: int, handler: Handler)
    requires Distinct(ws)
    ensures Distinct(Watch(ws, fd, handler))
    ensures WatchMap(Watch(ws, fd, handler)) ==
            if fd == INVALID_FD || |LiveFds(ws) - {fd}| == |ws| then WatchMap(ws)
            else WatchMap(ws)[fd := handler]
  {
    var u := Unwatch(ws, fd);
    UnwatchRefinesMap(ws, fd);
    assert WatchMap(u).Keys == LiveFds(u) && WatchMap(ws).Keys == LiveFds(ws) && INVALID_FD !in LiveFds(ws);
    hide WatchMap, LiveFds, Distinct, Unwatch;
    MapFacts(WatchMap(ws), fd, handler);
    TakeFirst(u, fd, handler);
    if fd != INVALID_FD && |LiveFds(u)| == |u| {
      FullMeansAbsent(ws, fd);
    }
  }
}
