// The in-process broker of order updates: channels of capacity 1 in which the newest update wins.

module Broker {
  import opened Common
  import opened Domain
  import opened Sorting

  lemma {:induction false} SubsequenceDropLast<T>(a: seq<T>, b: seq<T>)
    requires a != [] && Subsequence(a, b)
    ensures Subsequence(a[..|a| - 1], b)
    decreases |b|
  {
    var shorter := a[..|a| - 1];
    if shorter != [] {
      var rest := b[..|b| - 1];
      if Last(a) == Last(b) {
        if Last(shorter) == Last(b) {
          SubsequenceDropLast(shorter, rest);
        }
      } else {
        SubsequenceDropLast(a, rest);
        if Last(shorter) == Last(b) {
          SubsequenceDropLast(shorter, rest);
        }
      }
    }
  }

  lemma SubsequenceAppend<T>(a: seq<T>, b: seq<T>, x: T)
    requires Subsequence(a, b)
    ensures Subsequence(a + [x], b + [x])
  {
    assert (a + [x])[..|a|] == a && (b + [x])[..|b|] == b;
  }

  // A Go channel with room for one update.
  class Channel {
    var buffer: seq<Update>
    var closed: bool
    ghost var published: seq<Update>  // what the broker published to it
    ghost var received: seq<Update>   // what its subscriber took out

    // The updates that the subscriber has got or will get next.
    ghost function Seen(): seq<Update>
      reads this
    {
      received + buffer
    }

    ghost predicate Bounded()
      reads this
    {
      |buffer| <= 1 && Subsequence(Seen(), published)
    }

    // Nothing but older updates was left out: the newest one was received or is next.
    ghost predicate Valid()
      reads this
    {
      Bounded() && (published != [] ==> Seen() != [] && Last(Seen()) == Last(published))
    }

    constructor ()
      ensures Valid() && !closed && buffer == [] && published == [] && received == []
    {
      buffer, closed, published, received := [], false, [], [];
    }

    // Closing a closed channel panics.
    method Close()
      requires !closed
      modifies this`closed
      ensures closed
    {
      closed := true;
    }

    // channel <- update. Sending on a closed channel panics, sending to a full one blocks.
    method Send(update: Update)
      requires !closed && buffer == [] && Bounded()
      modifies this`buffer, this`published
      ensures buffer == [update] && published == old(published) + [update] && Valid()
    {
      SubsequenceAppend(Seen(), published, update);
      assert Seen() == received;
      buffer, published := [update], published + [update];
    }

    // <-channel by the subscriber, with a default.
    method TryReceive() returns (update: Option<Update>)
      modifies this`buffer, this`received
      ensures Seen() == old(Seen())
      ensures old(received) <= received
      ensures update == (if old(buffer) == [] then None else Some(old(buffer)[0]))
      ensures buffer == old(if buffer == [] then [] else buffer[1..])
    {
      update := None;
      if buffer != [] {
        update := Some(buffer[0]);
        received := received + [buffer[0]];
        buffer := buffer[1..];
      }
    }

    // <-channel by the publisher, with a default: the update is dropped.
    method TryDrop()
      requires Bounded()
      modifies this`buffer
      ensures Bounded() && buffer == []
      ensures old(buffer) == [] ==> Seen() == old(Seen())
    {
      if buffer != [] {
        ghost var seen := received + buffer;
        SubsequenceDropLast(seen, published);
        assert seen[..|seen| - 1] == received + [];
        buffer := [];
      }
    }

    // The subscriber may run between any two steps of the publisher.
    method SubscriberMayRun()
      modifies this`buffer, this`received
      ensures Seen() == old(Seen()) && |buffer| <= old(|buffer|) && old(received) <= received
    {
      if * {
        var _ := TryReceive();
      }
    }
  }

  // With one publisher the last send always finds room, whenever the subscriber receives in between;
  // afterwards the update has been received or is in the buffer.
  method SendLatest(channel: Channel, update: Update)
    requires !channel.closed && channel.Valid()
    modifies channel`buffer, channel`received, channel`published
    ensures channel.Valid() && channel.published == old(channel.published) + [update]
    ensures old(channel.received) <= channel.received
    ensures Last(channel.Seen()) == update
    ensures channel.buffer == [update] || channel.buffer == []
  {
    if channel.buffer == [] {
      channel.Send(update);
    } else {
      channel.SubscriberMayRun();
      channel.TryDrop();
      channel.SubscriberMayRun();
      channel.Send(update);
    }
    channel.SubscriberMayRun();
  }

  const MAX_UINT64: nat := 0xFFFF_FFFF_FFFF_FFFF

  type Subscribers = map<string, map<nat, Channel>>

  function Find(subscribers: Subscribers, orderID: string, id: nat): Option<Channel> {
    if orderID in subscribers && id in subscribers[orderID] then Some(subscribers[orderID][id]) else None
  }

  // With one more subscriber.
  function With(subscribers: Subscribers, orderID: string, id: nat, channel: Channel): Subscribers {
    var channels: map<nat, Channel> := if orderID in subscribers then subscribers[orderID] else map[];
    subscribers[orderID := channels[id := channel]]
  }

  // delete(subscribers[orderID], id): the set of the order may be left empty.
  function Delete(subscribers: Subscribers, orderID: string, id: nat): Subscribers
    requires orderID in subscribers
  {
    subscribers[orderID := subscribers[orderID] - {id}]
  }

  // Without one subscriber; an order without subscribers has no entry.
  function Without(subscribers: Subscribers, orderID: string, id: nat): Subscribers {
    if orderID !in subscribers then subscribers
    else if subscribers[orderID] - {id} == map[] then subscribers - {orderID}
    else Delete(subscribers, orderID, id)
  }

  function Channels(subscribers: Subscribers): set<Channel> {
    set o, id | o in subscribers && id in subscribers[o] :: subscribers[o][id]
  }

  // Ids up to a bound, each with a channel of its own.
  ghost predicate OneEach(subscribers: Subscribers, nextID: nat) {
    && (forall o, id: nat :: Find(subscribers, o, id).Some? ==> 1 <= id <= nextID)
    && (forall o, id: nat, o', id': nat ::
          Find(subscribers, o, id).Some? && Find(subscribers, o', id').Some? && (o != o' || id != id') ==>
            id != id' && Find(subscribers, o, id) != Find(subscribers, o', id'))
  }

  predicate NoneEmpty(subscribers: Subscribers) {
    forall o :: o in subscribers ==> subscribers[o] != map[]
  }

  lemma ChannelsAreFound(subscribers: Subscribers)
    ensures forall c :: c in Channels(subscribers) <==> exists o, id :: Find(subscribers, o, id) == Some(c)
  {
    forall c ensures c in Channels(subscribers) <==> exists o, id :: Find(subscribers, o, id) == Some(c) {
      if c in Channels(subscribers) {
        var o, id :| o in subscribers && id in subscribers[o] && subscribers[o][id] == c;
        assert Find(subscribers, o, id) == Some(c);
      }
    }
  }

  lemma FindWith(subscribers: Subscribers, o: string, id: nat, c: Channel)
    ensures forall p, i: nat :: Find(With(subscribers, o, id, c), p, i) ==
                                if p == o && i == id then Some(c) else Find(subscribers, p, i)
  {
  }

  lemma FindDelete(subscribers: Subscribers, o: string, id: nat)
    requires o in subscribers
    ensures forall p, i: nat :: Find(Delete(subscribers, o, id), p, i) ==
                                if p == o && i == id then None else Find(subscribers, p, i)
  {
    var rest := subscribers[o] - {id};
    var fewer := Delete(subscribers, o, id);
    forall p, i: nat ensures Find(fewer, p, i) == if p == o && i == id then None else Find(subscribers, p, i) {
      if p == o {
        assert fewer[p] == rest;
        assert i in rest <==> i in subscribers[o] && i != id;
      } else {
        assert p in fewer <==> p in subscribers;
        assert p in subscribers ==> fewer[p] == subscribers[p];
      }
    }
  }

  lemma FindWithoutOrder(subscribers: Subscribers, o: string)
    requires o in subscribers && subscribers[o] == map[]
    ensures forall p, i: nat :: Find(subscribers - {o}, p, i) == Find(subscribers, p, i)
  {
  }

  lemma WithoutAbsent(subscribers: Subscribers, o: string, id: nat)
    requires Find(subscribers, o, id).None? && NoneEmpty(subscribers)
    ensures Without(subscribers, o, id) == subscribers
  {
    if o in subscribers {
      assert subscribers[o] - {id} == subscribers[o];
    }
  }

  // Ending a subscription leaves every other one as it is.
  lemma FindWithout(subscribers: Subscribers, o: string, id: nat)
    requires NoneEmpty(subscribers)
    ensures NoneEmpty(Without(subscribers, o, id))
    ensures forall p, i: nat :: Find(Without(subscribers, o, id), p, i) ==
                                if p == o && i == id then None else Find(subscribers, p, i)
  {
    if o in subscribers {
      FindDelete(subscribers, o, id);
      if subscribers[o] - {id} == map[] {
        FindWithoutOrder(Delete(subscribers, o, id), o);
        assert Delete(subscribers, o, id) - {o} == subscribers - {o};
      }
    }
  }

  lemma WithOneMore(subscribers: Subscribers, o: string, nextID: nat, c: Channel)
    requires OneEach(subscribers, nextID) && c !in Channels(subscribers)
    ensures var more := With(subscribers, o, nextID + 1, c);
            && OneEach(more, nextID + 1) && Channels(more) == Channels(subscribers) + {c}
            && Find(more, o, nextID + 1) == Some(c)
            && (NoneEmpty(subscribers) ==> NoneEmpty(more))
  {
    var more := With(subscribers, o, nextID + 1, c);
    ChannelsAreFound(subscribers);
    ChannelsAreFound(more);
    FindWith(subscribers, o, nextID + 1, c);
    forall d ensures d in Channels(more) <==> d in Channels(subscribers) || d == c {
      assert Find(more, o, nextID + 1) == Some(c);
      if d in Channels(subscribers) {
        var p, i :| Find(subscribers, p, i) == Some(d);
        assert Find(more, p, i) == Some(d);
      }
    }
  }

  lemma DeleteOne(subscribers: Subscribers, o: string, id: nat, nextID: nat)
    requires OneEach(subscribers, nextID) && Find(subscribers, o, id).Some?
    ensures var fewer := Delete(subscribers, o, id);
            && OneEach(fewer, nextID) && Channels(fewer) == Channels(subscribers) - {subscribers[o][id]}
            && Find(fewer, o, id).None?
  {
    var fewer := Delete(subscribers, o, id);
    ChannelsAreFound(subscribers);
    ChannelsAreFound(fewer);
    FindDelete(subscribers, o, id);
    forall d ensures d in Channels(fewer) <==> d in Channels(subscribers) && d != subscribers[o][id] {
      if d in Channels(subscribers) && d != subscribers[o][id] {
        var p, i :| Find(subscribers, p, i) == Some(d);
        assert Find(fewer, p, i) == Some(d);
      }
    }
  }

  lemma WithoutEmpty(subscribers: Subscribers, o: string, nextID: nat)
    requires OneEach(subscribers, nextID) && o in subscribers && subscribers[o] == map[]
    ensures OneEach(subscribers - {o}, nextID) && Channels(subscribers - {o}) == Channels(subscribers)
  {
    var fewer := subscribers - {o};
    ChannelsAreFound(subscribers);
    ChannelsAreFound(fewer);
    FindWithoutOrder(subscribers, o);
    forall d | d in Channels(subscribers) ensures d in Channels(fewer) {
      var p, i :| Find(subscribers, p, i) == Some(d);
      assert Find(fewer, p, i) == Some(d);
    }
  }

  // The channel got the update as its newest one.
  ghost predicate Got(c: Channel, published: seq<Update>, received: seq<Update>, update: Update)
    reads c
  {
    c.published == published + [update] && c.Seen() != [] && Last(c.Seen()) == update && received <= c.received
  }

  // The loop of Publish over the channels of one order.
  method SendToAll(channels: set<Channel>, update: Update)
    requires forall c :: c in channels ==> !c.closed && c.Valid()
    modifies channels
    ensures forall c :: c in channels ==> !c.closed && c.Valid()
    ensures forall c :: c in channels ==> Got(c, old(c.published), old(c.received), update)
  {
    var todo := channels;
    while todo != {}
      invariant todo <= channels
      invariant forall c :: c in channels ==> !c.closed && c.Valid()
      invariant forall c :: c in channels && c !in todo ==> Got(c, old(c.published), old(c.received), update)
      invariant forall c :: c in todo ==> c.published == old(c.published) && c.received == old(c.received)
    {
      var c :| c in todo;
      SendLatest(c, update);
      todo := todo - {c};
    }
  }

  // The cancel closure that Subscribe returns, with its sync.Once.
  class Cancel {
    const orderID: string
    const id: nat
    const channel: Channel
    var done: bool

    constructor (orderID: string, id: nat, channel: Channel, done: bool)
      ensures this.orderID == orderID && this.id == id && this.channel == channel && this.done == done
    {
      this.orderID, this.id, this.channel, this.done := orderID, id, channel, done;
    }
  }

  class Broker {
    var nextID: nat
    var closed: bool
    var subscribers: Subscribers

    // Every registered channel is open, registered once, under an id that was given out once.
    ghost predicate Consistent()
      reads this, Channels(subscribers)
    {
      && nextID <= MAX_UINT64
      && OneEach(subscribers, nextID)
      && forall c :: c in Channels(subscribers) ==> !c.closed && c.Valid()
    }

    // Moreover, a closed broker has no subscribers, and no order has an empty set of them.
    ghost predicate Valid()
      reads this, Channels(subscribers)
    {
      Consistent() && NoneEmpty(subscribers) && (closed ==> subscribers == map[])
    }

    // A cancel closure in the hands of a caller: its subscription is live and its channel registered,
    // or it is over for good and its channel is closed.
    ghost predicate Holds(cancel: Cancel)
      reads this, cancel, cancel.channel
    {
      if Find(subscribers, cancel.orderID, cancel.id).Some?
      then Find(subscribers, cancel.orderID, cancel.id) == Some(cancel.channel) && !cancel.done
      else cancel.channel.closed && cancel.id <= nextID
    }

    constructor ()
      ensures Valid() && !closed && subscribers == map[] && nextID == 0
    {
      nextID, closed, subscribers := 0, false, map[];
    }

    method Subscribe(orderID: string) returns (updates: Channel, cancel: Cancel)
      requires Valid() && nextID < 0xFFFF_FFFF_FFFF_FFFF
      modifies this
      ensures Valid() && fresh(updates) && fresh(cancel) && cancel.channel == updates && Holds(cancel)
      ensures closed == old(closed) && updates.published == [] && updates.received == [] && updates.buffer == []
      ensures closed ==> updates.closed && cancel.done && subscribers == old(subscribers) && nextID == old(nextID)
      ensures !closed ==>
                && nextID == old(nextID) + 1 && cancel.id == nextID && cancel.orderID == orderID
                && subscribers == With(old(subscribers), orderID, nextID, updates)
    {
      updates := new Channel();
      if closed {
        updates.Close();
        cancel := new Cancel(orderID, 0, updates, true);
        return;
      }
      Register(orderID, updates);
      cancel := new Cancel(orderID, nextID, updates, false);
    }

    method Register(orderID: string, updates: Channel)
      requires Valid() && !closed && nextID < MAX_UINT64
      requires updates !in Channels(subscribers) && !updates.closed && updates.Valid()
      modifies this`nextID, this`subscribers
      ensures Valid() && nextID == old(nextID) + 1
      ensures subscribers == With(old(subscribers), orderID, nextID, updates)
      ensures Find(subscribers, orderID, nextID) == Some(updates)
    {
      WithOneMore(subscribers, orderID, nextID, updates);
      nextID := nextID + 1;
      subscribers := With(subscribers, orderID, nextID, updates);
    }

    // Calling the closure: the first call ends the subscription, later ones and those after Close do nothing.
    method Unsubscribe(cancel: Cancel)
      requires Valid() && Holds(cancel)
      modifies this`subscribers, cancel`done, cancel.channel`closed
      ensures Valid() && Holds(cancel) && cancel.done && cancel.channel.closed
      ensures subscribers == Without(old(subscribers), cancel.orderID, cancel.id)
    {
      var o, id := cancel.orderID, cancel.id;
      if Find(subscribers, o, id).None? {
        WithoutAbsent(subscribers, o, id);
      }
      FindWithout(subscribers, o, id);
      if !cancel.done {
        cancel.done := true;
        if o in subscribers {
          Remove(o, id, cancel.channel);
        }
      }
    }

    // The inner part of the closure, for an order that has subscribers.
    method Remove(o: string, id: nat, channel: Channel)
      requires Valid() && o in subscribers
      requires Find(subscribers, o, id).Some? ==> Find(subscribers, o, id) == Some(channel)
      modifies this`subscribers, channel`closed
      ensures Valid() && subscribers == Without(old(subscribers), o, id)
      ensures channel.closed == (old(channel.closed) || Find(old(subscribers), o, id) == Some(channel))
    {
      FindWithout(subscribers, o, id);
      if id in subscribers[o] {
        CloseOne(o, id, channel);
      } else {
        WithoutAbsent(subscribers, o, id);
      }
      RemoveEmpty(o);
    }

    // delete(b.subscribers, orderID), if that was the last one.
    method RemoveEmpty(o: string)
      requires Consistent() && o in subscribers && (closed ==> subscribers == map[])
      modifies this`subscribers
      ensures Consistent() && (closed ==> subscribers == map[])
      ensures subscribers == if old(subscribers[o]) == map[] then old(subscribers) - {o} else old(subscribers)
    {
      if subscribers[o] == map[] {
        WithoutEmpty(subscribers, o, nextID);
        subscribers := subscribers - {o};
      }
    }

    // Every subscriber of the order gets the update, nobody else notices.
    method Publish(update: Update)
      requires Valid()
      modifies Channels(subscribers)
      ensures Valid()
      ensures forall id: nat, c :: Find(subscribers, update.orderID, id) == Some(c) ==>
                Got(c, old(c.published), old(c.received), update)
      ensures forall o, id: nat, c :: Find(subscribers, o, id) == Some(c) && o != update.orderID ==> unchanged(c)
    {
      SendToAll(ChannelsOf(update.orderID), update);
    }

    // Ranging over subscribers[orderID], which may be missing.
    function ChannelsOf(orderID: string): (channels: set<Channel>)
      reads this
      ensures channels <= Channels(subscribers)
      ensures forall id: nat :: Find(subscribers, orderID, id).Some? ==> Find(subscribers, orderID, id).value in channels
      ensures forall c :: c in channels ==> exists id: nat :: Find(subscribers, orderID, id) == Some(c)
    {
      assert forall id: nat :: orderID in subscribers && id in subscribers[orderID] ==>
          Find(subscribers, orderID, id) == Some(subscribers[orderID][id]);
      if orderID in subscribers then set id | id in subscribers[orderID] :: subscribers[orderID][id] else {}
    }

    method Close()
      requires Valid()
      modifies this`closed, this`subscribers, Channels(subscribers)
      ensures Valid() && closed && subscribers == map[]
      ensures forall c :: c in old(Channels(subscribers)) ==> c.closed
    {
      if !closed {
        closed := true;
        CloseAll();
      }
    }

    // The loop of Close.
    method CloseAll()
      requires Consistent()
      modifies this`subscribers, Channels(subscribers)
      ensures Consistent() && subscribers == map[]
      ensures forall c :: c in old(Channels(subscribers)) ==> c.closed
    {
      while subscribers != map[]
        invariant Consistent() && Channels(subscribers) <= old(Channels(subscribers))
        invariant forall c :: c in old(Channels(subscribers)) && c !in Channels(subscribers) ==> c.closed
        decreases subscribers.Keys
      {
        var o :| o in subscribers;
        CloseOrder(o);
      }
    }

    // The body of Close for one order.
    method CloseOrder(o: string)
      requires Consistent() && o in subscribers
      modifies this`subscribers, Channels(subscribers)
      ensures Consistent() && subscribers.Keys == old(subscribers).Keys - {o}
      ensures Channels(subscribers) <= old(Channels(subscribers))
      ensures forall c :: c in old(Channels(subscribers)) && c !in Channels(subscribers) ==> c.closed
    {
      CloseEach(o);
      WithoutEmpty(subscribers, o, nextID);
      subscribers := subscribers - {o};
    }

    // The inner loop of Close.
    method CloseEach(o: string)
      requires Consistent() && o in subscribers
      modifies this`subscribers, Channels(subscribers)
      ensures Consistent() && subscribers.Keys == old(subscribers).Keys && subscribers[o] == map[]
      ensures Channels(subscribers) <= old(Channels(subscribers))
      ensures forall c :: c in old(Channels(subscribers)) && c !in Channels(subscribers) ==> c.closed
    {
      while subscribers[o] != map[]
        invariant subscribers.Keys == old(subscribers).Keys
        invariant Consistent() && Channels(subscribers) <= old(Channels(subscribers))
        invariant forall c :: c in old(Channels(subscribers)) && c !in Channels(subscribers) ==> c.closed
        decreases subscribers[o].Keys
      {
        CloseAny(o);
      }
    }

    method CloseAny(o: string)
      requires Consistent() && o in subscribers && subscribers[o] != map[]
      modifies this`subscribers, Channels(subscribers)
      ensures Consistent() && subscribers.Keys == old(subscribers).Keys && subscribers[o].Keys < old(subscribers[o].Keys)
      ensures Channels(subscribers) <= old(Channels(subscribers))
      ensures forall c :: c in old(Channels(subscribers)) && c !in Channels(subscribers) ==> c.closed
    {
      var id :| id in subscribers[o];
      CloseOne(o, id, subscribers[o][id]);
    }

    method CloseOne(o: string, id: nat, channel: Channel)
      requires Consistent() && Find(subscribers, o, id) == Some(channel)
      modifies this`subscribers, channel`closed
      ensures Consistent() && subscribers == Delete(old(subscribers), o, id)
      ensures Channels(subscribers) == old(Channels(subscribers)) - {channel}
      ensures channel.closed
    {
      DeleteOne(subscribers, o, id, nextID);
      channel.Close();
      subscribers := Delete(subscribers, o, id);
    }

    // The orders with a subscriber, sorted.
    method OrderIDs() returns (orderIDs: seq<string>)
      requires Valid()
      ensures StrictlySorted(orderIDs) && InByteOrder(orderIDs)
      ensures forall o :: o in orderIDs <==> exists id :: Find(subscribers, o, id).Some?
    {
      var orders := {};
      var todo := subscribers.Keys;
      while todo != {}
        invariant todo <= subscribers.Keys
        invariant orders == set o | o in subscribers && o !in todo && subscribers[o] != map[]
      {
        var o :| o in todo;
        todo := todo - {o};
        if |subscribers[o]| != 0 {
          orders := orders + {o};
        }
      }
      orderIDs := SortedKeys(orders);
      forall o ensures o in orders <==> exists id :: Find(subscribers, o, id).Some? {
        if o in orders {
          var id :| id in subscribers[o];
          assert Find(subscribers, o, id).Some?;
        }
      }
    }
  }

  // ---------- Any use of a broker ----------

  // All closures that were handed out, each with a channel of its own: a closure is good for exactly
  // one channel for ever, whatever became of it.
  ghost predicate HandedOut(b: Broker, cancels: set<Cancel>)
    reads b, cancels, set c | c in cancels :: c.channel
  {
    && (forall c :: c in cancels ==> b.Holds(c))
    && (forall c, d :: c in cancels && d in cancels && c != d ==> c.channel != d.channel)
  }

  method UseSubscribe(b: Broker, cancels: set<Cancel>, orderID: string) returns (more: set<Cancel>)
    requires b.Valid() && HandedOut(b, cancels) && b.nextID < MAX_UINT64
    modifies b
    ensures b.Valid() && HandedOut(b, more) && cancels <= more
    ensures forall c :: c in more - cancels ==> fresh(c) && fresh(c.channel)
    ensures forall c :: c in Channels(b.subscribers) ==> c in old(Channels(b.subscribers)) || fresh(c)
  {
    ghost var before := b.subscribers;
    var _, cancel := b.Subscribe(orderID);
    more := cancels + {cancel};
    FindWith(before, orderID, b.nextID, cancel.channel);
    ChannelsAmong(before, With(before, orderID, b.nextID, cancel.channel), {cancel.channel});
  }

  lemma ChannelsAmong(before: Subscribers, after: Subscribers, more: set<Channel>)
    requires forall o, id: nat :: Find(after, o, id).Some? ==>
               Find(before, o, id) == Find(after, o, id) || Find(after, o, id).value in more
    ensures Channels(after) <= Channels(before) + more
  {
    ChannelsAreFound(before);
    ChannelsAreFound(after);
  }

  method UseCancel(b: Broker, cancels: set<Cancel>, cancel: Cancel)
    requires b.Valid() && HandedOut(b, cancels) && cancel in cancels
    modifies b, cancel, cancel.channel
    ensures b.Valid() && HandedOut(b, cancels) && cancel.channel.closed
    ensures Channels(b.subscribers) <= old(Channels(b.subscribers))
  {
    ghost var before := b.subscribers;
    FindWithout(before, cancel.orderID, cancel.id);
    b.Unsubscribe(cancel);
    ChannelsAmong(before, b.subscribers, {});
  }

  method UsePublish(b: Broker, cancels: set<Cancel>, update: Update)
    requires b.Valid() && HandedOut(b, cancels)
    modifies Channels(b.subscribers)
    ensures b.Valid() && HandedOut(b, cancels)
  {
    b.Publish(update);
  }

  method UseClose(b: Broker, cancels: set<Cancel>)
    requires b.Valid() && HandedOut(b, cancels)
    modifies b, Channels(b.subscribers)
    ensures b.Valid() && HandedOut(b, cancels) && b.closed && Channels(b.subscribers) == {}
    ensures forall c :: c in cancels ==> c.channel.closed
  {
    LiveOrClosed(b, cancels);
    b.Close();
  }

  lemma LiveOrClosed(b: Broker, cancels: set<Cancel>)
    requires b.Valid() && HandedOut(b, cancels)
    ensures forall c :: c in cancels ==> (c.channel in Channels(b.subscribers) || c.channel.closed) && c.id <= b.nextID
  {
    ChannelsAreFound(b.subscribers);
    forall c | c in cancels ensures (c.channel in Channels(b.subscribers) || c.channel.closed) && c.id <= b.nextID {
      assert b.Holds(c);
    }
  }

  // Every sequence of calls, with closures called repeatedly, late, or after Close: the broker stays
  // valid and all closures that were ever handed out stay good, so no channel is closed twice and
  // nothing is sent to a closed one.
  method AnyUse() returns (b: Broker, cancels: set<Cancel>)
    ensures b.Valid() && HandedOut(b, cancels)
  {
    b := new Broker();
    cancels := {};
    var calls: nat := *;
    while calls > 0
      invariant b.Valid() && HandedOut(b, cancels) && fresh(b)
      invariant fresh(cancels) && forall c :: c in cancels ==> fresh(c.channel)
      invariant forall c :: c in Channels(b.subscribers) ==> fresh(c)
    {
      if {
        case b.nextID < MAX_UINT64 =>
          var orderID: string := *;
          cancels := UseSubscribe(b, cancels, orderID);
        case cancels != {} =>
          var cancel :| cancel in cancels;
          UseCancel(b, cancels, cancel);
        case true =>
          var update: Update := *;
          UsePublish(b, cancels, update);
        case true =>
          UseClose(b, cancels);
      }
      calls := calls - 1;
    }
  }
}
