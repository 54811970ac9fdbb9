/** What each subscriber of the bus has seen, read off a history: how often, and when in order. */
module Deliveries {
  import opened Bytes
  import opened Proto
  import opened MessageBuses
  import opened Histories

  /** The dispatches that a subscriber was handed, one after another as it happened. */
  function SeenBy(h: History, who: Subscriber): seq<nat> {
    match h
    case Start => []
    case Then(b, Handed(k, w)) => SeenBy(b, who) + if w == who then [k] else []
    case Then(b, _) => SeenBy(b, who)
  }

  function Repeat(k: nat, n: nat): (r: seq<nat>)
    ensures |r| == n && forall i | 0 <= i < n :: r[i] == k
  {
    seq(n, _ => k)
  }

  /** The dispatches that concern a subscriber, in dispatch order, once for each of its places in the audience. */
  function InOrder(ds: seq<Dispatch>, who: Subscriber): seq<nat> {
    if ds == [] then []
    else
      var n := |ds| - 1;
      InOrder(ds[..n], who) + Repeat(n, Count(who, ds[n].audience))
  }

  /** How often a dispatch is still going to be handed to `who`. */
  function Ahead(d: Dispatch, who: Subscriber): nat {
    if d.handed <= |d.audience| then Count(who, d.audience[d.handed..]) else 0
  }

  function Owed(ds: seq<Dispatch>, who: Subscriber): seq<nat> {
    if ds == [] then []
    else
      var n := |ds| - 1;
      Owed(ds[..n], who) + Repeat(n, Ahead(ds[n], who))
  }

  predicate OwesNothing(ds: seq<Dispatch>, who: Subscriber) {
    forall j | 0 <= j < |ds| :: Ahead(ds[j], who) == 0
  }

  predicate AllDone(ds: seq<Dispatch>) {
    forall k | 0 <= k < |ds| :: ds[k].Done()
  }

  /** No dispatch that concerns `who` begins while an earlier one is still to be handed to it. */
  ghost predicate NeverOvertaken(h: History, who: Subscriber) {
    match h
    case Start => true
    case Then(b, Routed(ToBus(m))) =>
      NeverOvertaken(b, who) && (Count(who, Audience(SubscriptionsOf(b), m)) > 0 ==> OwesNothing(DispatchesOf(b), who))
    case Then(b, _) => NeverOvertaken(b, who)
  }

  /** The same, seen from the deliveries: none comes while an earlier dispatch is still to be handed to `who`. */
  ghost predicate InTurn(h: History, who: Subscriber) {
    match h
    case Start => true
    case Then(b, Handed(k, w)) =>
      InTurn(b, who) && (w == who ==> OwesNothing(DispatchesOf(b)[..Within(k, DispatchesOf(b))], who))
    case Then(b, _) => InTurn(b, who)
  }

  function Within(k: nat, ds: seq<Dispatch>): nat { if k <= |ds| then k else |ds| }

  // ----- how one delivery changes what is owed

  /** Handing a dispatch on lowers what it owes to the one it was handed to by one, and nothing else. */
  lemma {:induction false} AheadStep(d: Dispatch, who: Subscriber)
    requires d.handed < |d.audience|
    ensures Ahead(d, who) == Ahead(d.(handed := d.handed + 1), who) + if d.audience[d.handed] == who then 1 else 0
  {
    var i := d.handed;
    assert d.audience[i..] == [d.audience[i]] + d.audience[i + 1..];
    CountAppend(who, [d.audience[i]], d.audience[i + 1..]);
    CountOne(who, d.audience[i]);
  }

  lemma {:induction false} DoneOwesNothing(d: Dispatch, who: Subscriber)
    requires d.Done()
    ensures Ahead(d, who) == 0
  {
    assert d.audience[d.handed..] == [];
  }

  lemma {:induction false} OwedNothing(ds: seq<Dispatch>, who: Subscriber)
    requires OwesNothing(ds, who)
    ensures Owed(ds, who) == []
  {
    if ds == [] {
    } else {
      OwedNothing(ds[..|ds| - 1], who);
    }
  }

  /** What is owed depends on nothing but how much each dispatch owes. */
  lemma {:induction false} OwedAlike(ds: seq<Dispatch>, es: seq<Dispatch>, who: Subscriber)
    requires |ds| == |es| && forall j | 0 <= j < |ds| :: Ahead(ds[j], who) == Ahead(es[j], who)
    ensures Owed(ds, who) == Owed(es, who)
  {
    if ds == [] {
    } else {
      OwedAlike(ds[..|ds| - 1], es[..|es| - 1], who);
    }
  }

  lemma {:induction false} InOrderAlike(ds: seq<Dispatch>, es: seq<Dispatch>, who: Subscriber)
    requires |ds| == |es| && forall j | 0 <= j < |ds| :: ds[j].audience == es[j].audience
    ensures InOrder(ds, who) == InOrder(es, who)
  {
    if ds == [] {
    } else {
      InOrderAlike(ds[..|ds| - 1], es[..|es| - 1], who);
    }
  }

  lemma {:induction false} InOrderHanded(ds: seq<Dispatch>, k: nat, who: Subscriber)
    ensures InOrder(HandedOne(ds, k), who) == InOrder(ds, who)
  {
    InOrderAlike(ds, HandedOne(ds, k), who);
  }

  /** With nothing owed after dispatch `k`, what is owed ends with what `k` owes. */
  lemma {:induction false} OwedUpTo(ds: seq<Dispatch>, k: nat, who: Subscriber)
    requires k < |ds| && forall j | k < j < |ds| :: Ahead(ds[j], who) == 0
    ensures Owed(ds, who) == Owed(ds[..k], who) + Repeat(k, Ahead(ds[k], who))
  {
    var n := |ds| - 1;
    if k == n {
    } else {
      OwedUpTo(ds[..n], k, who);
      assert ds[..n][..k] == ds[..k];
    }
  }

  /** A delivery in turn takes one entry off the end of what is owed to the one it goes to. */
  lemma {:induction false} OwedStep(ds: seq<Dispatch>, k: nat, to: Subscriber, who: Subscriber)
    requires NextInTurn(ds, k, to)
    ensures to != who ==> Owed(HandedOne(ds, k), who) == Owed(ds, who)
    ensures to == who ==>
              && Owed(ds, who) == Owed(HandedOne(ds, k), who) + [k]
              && Owed(HandedOne(ds, k), who) == Owed(ds[..k], who) + Repeat(k, Ahead(HandedOne(ds, k)[k], who))
  {
    var es := HandedOne(ds, k);
    AheadStep(ds[k], who);
    if to != who {
      OwedAlike(ds, es, who);
    } else {
      forall j | k < j < |ds| ensures Ahead(ds[j], who) == 0 {
        DoneOwesNothing(ds[j], who);
      }
      OwedUpTo(ds, k, who);
      OwedUpTo(es, k, who);
      assert es[..k] == ds[..k];
    }
  }

  /** When no earlier dispatch owes anything either, that entry is also the first. */
  lemma {:induction false} OwedInTurn(ds: seq<Dispatch>, k: nat, who: Subscriber)
    requires NextInTurn(ds, k, who) && OwesNothing(ds[..k], who)
    ensures Owed(ds, who) == [k] + Owed(HandedOne(ds, k), who)
  {
    OwedStep(ds, k, who, who);
    OwedNothing(ds[..k], who);
  }

  // ----- every dispatch reaches everyone it concerns, as often as it should

  lemma {:induction false} RoutedStep(b: History, m: Message, who: Subscriber)
    ensures var ds, h := DispatchesOf(b), Then(b, Routed(ToBus(m)));
            var more := Repeat(|ds|, Count(who, Audience(SubscriptionsOf(b), m)));
            && Owed(DispatchesOf(h), who) == Owed(ds, who) + more
            && InOrder(DispatchesOf(h), who) == InOrder(ds, who) + more
  {
    var ds, a := DispatchesOf(b), Audience(SubscriptionsOf(b), m);
    assert (ds + [Dispatch(m, a, 0)])[..|ds|] == ds && a[0..] == a;
  }

  lemma Moved(seen: seq<nat>, one: seq<nat>, owed: seq<nat>)
    ensures multiset(seen + one) + multiset(owed) == multiset(seen) + multiset(owed + one)
    ensures seen + (one + owed) == seen + one + owed
  {
  }

  /** What a subscriber has seen and what it is still owed are together what concerns it, however dispatches nest. */
  lemma {:induction false} SeenAndOwed(h: History, who: Subscriber)
    requires HandedInTurn(h)
    ensures multiset(SeenBy(h, who)) + multiset(Owed(DispatchesOf(h), who)) == multiset(InOrder(DispatchesOf(h), who))
  {
    hide Owed, InOrder, Count, Audience, HandedOne, NextInTurn;
    match h
    case Start =>
      NothingYet(who);
    case Then(b, Routed(ToBus(m))) =>
      SeenAndOwed(b, who);
      RoutedStep(b, m, who);
    case Then(b, Handed(k, w)) =>
      SeenAndOwed(b, who);
      OwedStep(DispatchesOf(b), k, w, who);
      InOrderHanded(DispatchesOf(b), k, who);
      Moved(SeenBy(b, who), if w == who then [k] else [], Owed(DispatchesOf(h), who));
    case Then(b, _) =>
      SeenAndOwed(b, who);
  }

  lemma {:induction false} NothingYet(who: Subscriber)
    ensures Owed([], who) == InOrder([], who) == []
  {
  }

  /** With every dispatch done, each has been handed to each subscriber exactly as often as it is in the audience. */
  lemma {:induction false} EachExactlyOnce(h: History, who: Subscriber)
    requires HandedInTurn(h) && AllDone(DispatchesOf(h))
    ensures multiset(SeenBy(h, who)) == multiset(InOrder(DispatchesOf(h), who))
  {
    SeenAndOwed(h, who);
    AllDoneOwes(DispatchesOf(h), who);
    OwedNothing(DispatchesOf(h), who);
  }

  lemma {:induction false} AllDoneOwes(ds: seq<Dispatch>, who: Subscriber)
    requires AllDone(ds)
    ensures OwesNothing(ds, who)
  {
    forall j | 0 <= j < |ds| ensures Ahead(ds[j], who) == 0 {
      DoneOwesNothing(ds[j], who);
    }
  }

  // ----- when a subscriber sees them in order

  /** While deliveries come in turn, a subscriber has seen a beginning of what concerns it. */
  lemma {:induction false} SeenThenOwed(h: History, who: Subscriber)
    requires HandedInTurn(h) && InTurn(h, who)
    ensures SeenBy(h, who) + Owed(DispatchesOf(h), who) == InOrder(DispatchesOf(h), who)
  {
    hide Owed, InOrder, Count, Audience, HandedOne, OwesNothing;
    match h
    case Start =>
      NothingYet(who);
    case Then(b, Routed(ToBus(m))) =>
      SeenThenOwed(b, who);
      RoutedStep(b, m, who);
    case Then(b, Handed(k, w)) =>
      SeenThenOwed(b, who);
      OwedStep(DispatchesOf(b), k, w, who);
      InOrderHanded(DispatchesOf(b), k, who);
      if w == who {
        OwedInTurn(DispatchesOf(b), k, who);
      }
      Moved(SeenBy(b, who), if w == who then [k] else [], Owed(DispatchesOf(h), who));
    case Then(b, _) =>
      SeenThenOwed(b, who);
  }

  predicate AtMostOneOwes(ds: seq<Dispatch>, who: Subscriber) {
    forall j, k | 0 <= j < k < |ds| :: Ahead(ds[j], who) == 0 || Ahead(ds[k], who) == 0
  }

  /** When no dispatch begins too early, no delivery comes too early. */
  lemma {:induction false} BeginsInTurn(h: History, who: Subscriber)
    requires HandedInTurn(h) && NeverOvertaken(h, who)
    ensures InTurn(h, who) && AtMostOneOwes(DispatchesOf(h), who)
  {
    match h
    case Start =>
    case Then(b, Routed(ToBus(m))) =>
      BeginsInTurn(b, who);
      var a := Audience(SubscriptionsOf(b), m);
      assert a[0..] == a;
    case Then(b, Handed(k, w)) =>
      BeginsInTurn(b, who);
      AheadStep(DispatchesOf(b)[k], who);
    case Then(b, _) =>
      BeginsInTurn(b, who);
  }

  /** Once a later dispatch has begun while an earlier one still owes `who`, deliveries in turn can finish neither. */
  lemma {:induction false} StuckForGood(g: History, h: History, who: Subscriber, j: nat, k: nat)
    requires Extends(g, h) && HandedInTurn(h) && InTurn(h, who)
    requires j < k < |DispatchesOf(g)| && Ahead(DispatchesOf(g)[j], who) > 0 && Ahead(DispatchesOf(g)[k], who) > 0
    ensures k < |DispatchesOf(h)| && Ahead(DispatchesOf(h)[j], who) > 0 && Ahead(DispatchesOf(h)[k], who) > 0
  {
    hide Ahead, Audience, Count;
    if h == g {
    } else {
      var b := h.before;
      StuckForGood(g, b, who, j, k);
      if h.last.Handed? {
        var ds, i := DispatchesOf(b), h.last.dispatch;
        var earlier := ds[..i];
        assert forall x | 0 <= x < i :: earlier[x] == ds[x];
        forall x | 0 <= x < |ds| && ds[x].Done() ensures Ahead(ds[x], who) == 0 {
          DoneOwesNothing(ds[x], who);
        }
        AheadStep(ds[i], who);
      }
    }
  }

  /** If all deliveries came in turn and every dispatch is done, none ever began too early. */
  lemma {:induction false} EndsInTurn(g: History, h: History, who: Subscriber)
    requires Extends(g, h) && HandedInTurn(h) && InTurn(h, who) && AllDone(DispatchesOf(h))
    ensures NeverOvertaken(g, who)
  {
    if g.Start? {
    } else {
      ExtendsTransitive(g.before, g, h);
      EndsInTurn(g.before, h, who);
      if g.last.Routed? && g.last.route.ToBus? {
        var b := g.before;
        var ds, a := DispatchesOf(b), Audience(SubscriptionsOf(b), g.last.route.message);
        assert a[0..] == a && DispatchesOf(g)[..|ds|] == ds;
        forall j | 0 <= j < |ds| && Count(who, a) > 0 ensures Ahead(ds[j], who) == 0 {
          if Ahead(ds[j], who) > 0 {
            assert DispatchesOf(g)[j] == ds[j];
            StuckForGood(g, h, who, j, |ds|);
            DoneOwesNothing(DispatchesOf(h)[j], who);
          }
        }
      }
    }
  }

  predicate Sorted(ks: seq<nat>) {
    forall i, j | 0 <= i < j < |ks| :: ks[i] <= ks[j]
  }

  lemma {:induction false} InOrderSorted(ds: seq<Dispatch>, who: Subscriber)
    ensures Sorted(InOrder(ds, who)) && forall i | 0 <= i < |InOrder(ds, who)| :: InOrder(ds, who)[i] < |ds|
  {
    if ds == [] {
    } else {
      InOrderSorted(ds[..|ds| - 1], who);
    }
  }

  lemma {:induction false} SeenGrows(g: History, h: History, who: Subscriber)
    requires Extends(g, h)
    ensures SeenBy(g, who) <= SeenBy(h, who) && |DispatchesOf(g)| <= |DispatchesOf(h)|
  {
    if h == g {
    } else {
      SeenGrows(g, h.before, who);
    }
  }

  /** What was owed and no longer is, has been seen in between. */
  lemma {:induction false} OwedThenSeen(g: History, h: History, who: Subscriber, j: nat) returns (i: nat)
    requires Extends(g, h) && HandedInTurn(h) && j < |DispatchesOf(g)| <= |DispatchesOf(h)|
    requires Ahead(DispatchesOf(g)[j], who) > 0 && Ahead(DispatchesOf(h)[j], who) == 0
    ensures |SeenBy(g, who)| <= i < |SeenBy(h, who)| && SeenBy(h, who)[i] == j
  {
    var b := h.before;
    SeenGrows(g, b, who);
    if Ahead(DispatchesOf(b)[j], who) == 0 {
      i := OwedThenSeen(g, b, who, j);
    } else {
      AheadStep(DispatchesOf(b)[j], who);
      i := |SeenBy(b, who)|;
    }
  }

  /** If a subscriber has seen everything in order, every delivery to it came in turn. */
  lemma {:induction false} SortedInTurn(g: History, h: History, who: Subscriber)
    requires Extends(g, h) && HandedInTurn(h) && HandedInTurn(g) && AllDone(DispatchesOf(h)) && Sorted(SeenBy(h, who))
    ensures InTurn(g, who)
  {
    if g.Start? {
    } else {
      var b := g.before;
      ExtendsTransitive(b, g, h);
      SortedInTurn(b, h, who);
      if g.last.Handed? && g.last.who == who {
        var ds, k := DispatchesOf(b), g.last.dispatch;
        forall j | 0 <= j < k ensures Ahead(ds[j], who) == 0 {
          if Ahead(ds[j], who) > 0 {
            SeenGrows(g, h, who);
            assert SeenBy(h, who)[|SeenBy(g, who)| - 1] == k;
            DoneOwesNothing(DispatchesOf(h)[j], who);
            var i := OwedThenSeen(g, h, who, j);
          }
        }
      }
    }
  }

  /**
   With every dispatch done, a subscriber has seen what concerns it in dispatch order exactly when no
   dispatch that concerns it began while an earlier one was still to be handed to it.
   */
  lemma {:induction false} SeenInOrder(h: History, who: Subscriber)
    requires HandedInTurn(h) && AllDone(DispatchesOf(h))
    ensures SeenBy(h, who) == InOrder(DispatchesOf(h), who) <==> NeverOvertaken(h, who)
  {
    if NeverOvertaken(h, who) {
      BeginsInTurn(h, who);
      SeenThenOwed(h, who);
      AllDoneOwes(DispatchesOf(h), who);
      OwedNothing(DispatchesOf(h), who);
    }
    if SeenBy(h, who) == InOrder(DispatchesOf(h), who) {
      InOrderSorted(DispatchesOf(h), who);
      SortedInTurn(h, h, who);
      EndsInTurn(h, h, who);
    }
  }

  // ----- a subscriber with one subscription

  /** The dispatches from `from` on whose message is of type `t`; the Unknown type asks for all of them. */
  function OfTypeFrom(ds: seq<Dispatch>, t: byte, from: nat): seq<nat> {
    if |ds| <= from then []
    else
      var n := |ds| - 1;
      OfTypeFrom(ds[..n], t, from) + if Concerns(t, ds[n].message) then [n] else []
  }

  predicate Concerns(t: byte, m: Message) { t == UNKNOWN || MessageTypeFor(m) == t }

  predicate KnownTypes(ds: seq<Dispatch>) {
    forall k | 0 <= k < |ds| :: MessageTypeFor(ds[k].message) != UNKNOWN
  }

  /** Subscription number `i` is the only one that can be of `who`. */
  predicate OnlyOne(subscriptions: seq<Subscription>, i: nat, who: Subscriber) {
    forall j | 0 <= j < |subscriptions| && j != i :: subscriptions[j].who != who
  }

  lemma {:induction false} OneSubscription(subscriptions: seq<Subscription>, i: nat, who: Subscriber, u: byte)
    requires OnlyOne(subscriptions, i, who)
    ensures SubscriptionsBy(who, subscriptions, u)
            == if i < |subscriptions| && subscriptions[i] == Subscription(u, who) then 1 else 0
  {
    if subscriptions == [] {
    } else {
      OneSubscription(subscriptions[..|subscriptions| - 1], i, who, u);
    }
  }

  lemma {:induction false} SubscriptionsGrow(g: History, h: History)
    requires Extends(g, h)
    ensures SubscriptionsOf(g) <= SubscriptionsOf(h)
  {
    if h == g {
    } else {
      SubscriptionsGrow(g, h.before);
    }
  }

  /** How often each dispatch concerns a subscriber whose one subscription, if any, was made when `i` had been made. */
  predicate ConcernedSince(ds: seq<Dispatch>, who: Subscriber, from: nat, t: byte) {
    forall k | 0 <= k < |ds| ::
      Count(who, ds[k].audience) == if k >= from && Concerns(t, ds[k].message) then 1 else 0
  }

  lemma {:induction false} ConcernedNever(h: History, who: Subscriber, i: nat)
    requires OnlyOne(SubscriptionsOf(h), i, who) && |SubscriptionsOf(h)| <= i
    ensures forall k | 0 <= k < |DispatchesOf(h)| :: Count(who, DispatchesOf(h)[k].audience) == 0
  {
    match h
    case Start =>
    case Then(b, Routed(ToBus(m))) =>
      ConcernedNever(b, who, i);
      AudienceCount(who, SubscriptionsOf(b), m);
      OneSubscription(SubscriptionsOf(b), i, who, MessageTypeFor(m));
      OneSubscription(SubscriptionsOf(b), i, who, UNKNOWN);
    case Then(b, Enlisted(s)) =>
      assert SubscriptionsOf(h)[..|SubscriptionsOf(b)|] == SubscriptionsOf(b);
      assert OnlyOne(SubscriptionsOf(b), i, who) by {
        assert forall j | 0 <= j < |SubscriptionsOf(b)| :: SubscriptionsOf(h)[j] == SubscriptionsOf(b)[j];
      }
      ConcernedNever(b, who, i);
    case Then(b, _) =>
      ConcernedNever(b, who, i);
  }

  lemma {:induction false} OneConcerned(subscriptions: seq<Subscription>, i: nat, t: byte, who: Subscriber, m: Message)
    requires i < |subscriptions| && subscriptions[i] == Subscription(t, who) && OnlyOne(subscriptions, i, who)
    requires MessageTypeFor(m) != UNKNOWN
    ensures Count(who, Audience(subscriptions, m)) == if Concerns(t, m) then 1 else 0
  {
    AudienceCount(who, subscriptions, m);
    OneSubscription(subscriptions, i, who, MessageTypeFor(m));
    OneSubscription(subscriptions, i, who, UNKNOWN);
  }

  lemma {:induction false} ConcernedFrom(b: History, h: History, t: byte, who: Subscriber)
    requires Extends(Then(b, Enlisted(Subscription(t, who))), h)
    requires OnlyOne(SubscriptionsOf(h), |SubscriptionsOf(b)|, who) && KnownTypes(DispatchesOf(h))
    ensures ConcernedSince(DispatchesOf(h), who, |DispatchesOf(b)|, t)
  {
    hide Audience, Count;
    var g, i := Then(b, Enlisted(Subscription(t, who))), |SubscriptionsOf(b)|;
    SubscriptionsGrow(g, h);
    assert SubscriptionsOf(g)[i] == Subscription(t, who);
    if h == g {
      assert forall j | 0 <= j < i :: SubscriptionsOf(g)[j] == SubscriptionsOf(b)[j];
      ConcernedNever(b, who, i);
      SeenGrows(b, b, who);
    } else {
      var c := h.before;
      SubscriptionsGrow(g, c);
      assert forall j | 0 <= j < |SubscriptionsOf(c)| :: SubscriptionsOf(h)[j] == SubscriptionsOf(c)[j];
      assert forall k | 0 <= k < |DispatchesOf(c)| :: DispatchesOf(c)[k].message == DispatchesOf(h)[k].message;
      ConcernedFrom(b, c, t, who);
      SeenGrows(g, c, who);
      if h.last.Routed? && h.last.route.ToBus? {
        var m := h.last.route.message;
        assert DispatchesOf(h)[|DispatchesOf(c)|].message == m;
        OneConcerned(SubscriptionsOf(c), i, t, who, m);
      }
    }
  }

  lemma {:induction false} InOrderOfType(ds: seq<Dispatch>, who: Subscriber, from: nat, t: byte)
    requires ConcernedSince(ds, who, from, t)
    ensures InOrder(ds, who) == OfTypeFrom(ds, t, from)
  {
    if ds == [] {
    } else {
      var n := |ds| - 1;
      InOrderOfType(ds[..n], who, from, t);
      if n < from {
        assert OfTypeFrom(ds[..n], t, from) == [];
      }
    }
  }
}
