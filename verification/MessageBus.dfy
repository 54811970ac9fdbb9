/** MessageBus: subscribers by message type, and a second list for those who want everything. */
module MessageBuses {
  import opened Bytes
  import opened Proto

  /** A subscriber function is known by a number. */
  type Subscriber = nat

  datatype Subscription = Subscription(messageType: byte, who: Subscriber)

  function Listeners(m: map<byte, seq<Subscriber>>, t: byte): seq<Subscriber> {
    if t in m then m[t] else []
  }

  /** The list of a type, as the subscriptions made it. */
  function SubscribedTo(subscriptions: seq<Subscription>, t: byte): seq<Subscriber> {
    if subscriptions == [] then []
    else
      var last := subscriptions[|subscriptions| - 1];
      SubscribedTo(subscriptions[..|subscriptions| - 1], t) + if last.messageType == t then [last.who] else []
  }

  /** Whom a message is to be handed to: the subscribers of its type, then those of everything. */
  function Audience(subscriptions: seq<Subscription>, m: Message): seq<Subscriber> {
    SubscribedTo(subscriptions, MessageTypeFor(m)) + SubscribedTo(subscriptions, UNKNOWN)
  }

  class MessageBus {
    var mSubscribers: map<byte, seq<Subscriber>>
    /** Every subscription ever made, oldest first. */
    ghost var subscriptions: seq<Subscription>

    /** Each list holds the subscribers of its type in the order of their subscriptions. */
    ghost predicate Valid()
      reads this
    {
      forall t: byte {:trigger Listeners(mSubscribers, t)} :: Listeners(mSubscribers, t) == SubscribedTo(subscriptions, t)
    }

    constructor ()
      ensures Valid() && subscriptions == []
    {
      mSubscribers := map[];
      subscriptions := [];
    }

    /** subscribeAll is subscription under the Unknown type. */
    method SubscribeAll(subscriber: Subscriber)
      requires Valid()
      modifies this
      ensures Valid() && subscriptions == old(subscriptions) + [Subscription(UNKNOWN, subscriber)]
    {
      Add(UNKNOWN, subscriber);
    }

    method SubscribeTo(name: TypeName, subscriber: Subscriber)
      requires Valid()
      modifies this
      ensures Valid() && subscriptions == old(subscriptions) + [Subscription(TypeFor(name), subscriber)]
    {
      Add(TypeFor(name), subscriber);
    }

    method Add(messageType: byte, subscriber: Subscriber)
      requires Valid()
      modifies this
      ensures Valid() && subscriptions == old(subscriptions) + [Subscription(messageType, subscriber)]
    {
      ghost var was, lists := subscriptions, mSubscribers;
      mSubscribers := mSubscribers[messageType := Listeners(mSubscribers, messageType) + [subscriber]];
      subscriptions := subscriptions + [Subscription(messageType, subscriber)];
      assert subscriptions[..|subscriptions| - 1] == was;
      forall t: byte ensures Listeners(mSubscribers, t) == SubscribedTo(subscriptions, t) {
        assert Listeners(lists, t) == SubscribedTo(was, t);
      }
    }

    /** The list of a type; looking a type up creates its list when it has none. */
    method ListFor(messageType: byte) returns (subscribers: seq<Subscriber>)
      requires Valid()
      modifies this`mSubscribers
      ensures Valid() && subscribers == SubscribedTo(subscriptions, messageType)
    {
      ghost var lists := mSubscribers;
      subscribers := Listeners(mSubscribers, messageType);
      mSubscribers := mSubscribers[messageType := subscribers];
      forall t: byte ensures Listeners(mSubscribers, t) == SubscribedTo(subscriptions, t) {
        assert Listeners(lists, t) == SubscribedTo(subscriptions, t);
      }
    }
  }

  lemma {:induction false} OneMore(subscriptions: seq<Subscription>, last: Subscription, t: byte)
    ensures SubscribedTo(subscriptions + [last], t)
            == SubscribedTo(subscriptions, t) + if last.messageType == t then [last.who] else []
  {
    assert (subscriptions + [last])[..|subscriptions|] == subscriptions;
  }

  /** Where in the list of subscriptions each entry of the list of a type comes from. */
  lemma {:induction false} ListSources(subscriptions: seq<Subscription>, t: byte) returns (from: seq<nat>)
    ensures |from| == |SubscribedTo(subscriptions, t)|
    ensures forall i | 0 <= i < |from| ::
              from[i] < |subscriptions| && subscriptions[from[i]] == Subscription(t, SubscribedTo(subscriptions, t)[i])
    ensures forall i, j | 0 <= i < j < |from| :: from[i] < from[j]
  {
    if subscriptions == [] {
      from := [];
    } else {
      var n := |subscriptions| - 1;
      from := ListSources(subscriptions[..n], t);
      if subscriptions[n].messageType == t {
        from := from + [n];
      }
    }
  }

  /**
   The order of an audience: first those who subscribed to the type of the message, then those who subscribed to
   everything, which is type 255, and each group in the order in which they subscribed.
   */
  lemma {:induction false} AudienceOrder(subscriptions: seq<Subscription>, m: Message) returns (from: seq<nat>, typed: nat)
    ensures |from| == |Audience(subscriptions, m)| && typed <= |from|
    ensures forall i | 0 <= i < |from| ::
              && from[i] < |subscriptions| && subscriptions[from[i]].who == Audience(subscriptions, m)[i]
              && subscriptions[from[i]].messageType == if i < typed then MessageTypeFor(m) else 255
    ensures forall i, j | 0 <= i < j < typed || typed <= i < j < |from| :: from[i] < from[j]
  {
    var first := ListSources(subscriptions, MessageTypeFor(m));
    var second := ListSources(subscriptions, UNKNOWN);
    from, typed := first + second, |first|;
  }

  /** How often a subscriber is on a list. */
  function Count(who: Subscriber, list: seq<Subscriber>): nat {
    if list == [] then 0
    else Count(who, list[..|list| - 1]) + if list[|list| - 1] == who then 1 else 0
  }

  lemma {:induction false} CountAppend(who: Subscriber, a: seq<Subscriber>, b: seq<Subscriber>)
    ensures Count(who, a + b) == Count(who, a) + Count(who, b)
  {
    if b == [] {
      assert a + b == a;
    } else {
      var init := b[..|b| - 1];
      CountAppend(who, a, init);
      assert (a + b)[..|a + b| - 1] == a + init;
    }
  }

  /** How many subscriptions of `who` are for type `t`. */
  function SubscriptionsBy(who: Subscriber, subscriptions: seq<Subscription>, t: byte): nat {
    if subscriptions == [] then 0
    else
      SubscriptionsBy(who, subscriptions[..|subscriptions| - 1], t)
      + if subscriptions[|subscriptions| - 1] == Subscription(t, who) then 1 else 0
  }

  /** A subscriber is on a list as often as it subscribed to that type. */
  lemma {:induction false} OnListAsSubscribed(who: Subscriber, subscriptions: seq<Subscription>, t: byte)
    ensures Count(who, SubscribedTo(subscriptions, t)) == SubscriptionsBy(who, subscriptions, t)
  {
    if subscriptions == [] {
    } else {
      var n := |subscriptions| - 1;
      OnListAsSubscribed(who, subscriptions[..n], t);
      var before := SubscribedTo(subscriptions[..n], t);
      var added: seq<Subscriber> := if subscriptions[n].messageType == t then [subscriptions[n].who] else [];
      CountAppend(who, before, added);
      CountOne(who, subscriptions[n].who);
    }
  }

  lemma {:induction false} CountOne(who: Subscriber, other: Subscriber)
    ensures Count(who, [other]) == if other == who then 1 else 0
  {
    assert [other][..0] == [];
  }

  /**
   A message reaches a subscriber once for each of its subscriptions to the message's type and once for each
   of its catch-all subscriptions; so a catch-all subscriber gets a message of an unlisted class twice.
   */
  lemma {:induction false} AudienceCount(who: Subscriber, subscriptions: seq<Subscription>, m: Message)
    ensures Count(who, Audience(subscriptions, m))
            == SubscriptionsBy(who, subscriptions, MessageTypeFor(m)) + SubscriptionsBy(who, subscriptions, UNKNOWN)
  {
    CountAppend(who, SubscribedTo(subscriptions, MessageTypeFor(m)), SubscribedTo(subscriptions, UNKNOWN));
    OnListAsSubscribed(who, subscriptions, MessageTypeFor(m));
    OnListAsSubscribed(who, subscriptions, UNKNOWN);
  }
}
