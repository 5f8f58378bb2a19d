/** What goes back to an address, where, and in which order: the deliveries of a subscription that
    detaches, a `modified` settlement, and a delivery its consumer dropped. */
module BusHandBack {
  import opened Common
  import opened Router
  import opened BusWorld

  /** The subscription is the only one competing on the address. */
  predicate Sole(s: State, id: nat, address: string) {
    Competes(s, id, address) && forall k :: k in s.subs && Competes(s, k, address) ==> k == id
  }

  /** What was never read goes back, unless it was settled on sending. */
  function Pending(w: World, id: nat): seq<Delivery>
    requires id in w.links
  {
    if w.links[id].atMostOnce then [] else Unread(w, id)
  }

  /** What a detaching link gives back: what its consumer dropped, then what was never read. */
  function GivenBack(w: World, id: nat): seq<Delivery>
    requires id in w.links
  {
    Get(w.bus.outstanding, id, []) + Pending(w, id)
  }

  lemma RemovedTakes(s: State, id: nat)
    requires BusInv(s)
    ensures Valid(Removed(s, id)) && forall k :: k in Removed(s, id).subs ==> Takes(Removed(s, id), k)
  {
  }

  lemma DetachUnsubscribes(w: World, id: nat)
    requires id in w.links
    ensures Step(w, Event.Detach(id)).bus == Unsubscribe(w.bus.(channels := w.bus.channels - {id}), id, Pending(w, id))
  {
  }

  /** A detach: the subscription goes, and what it gives back is handed over, if it competed. */
  lemma DetachIs(w: World, id: nat)
    requires id in w.links && id in w.bus.subs
    ensures var s1, sub := Removed(w.bus, id), w.bus.subs[id];
      Step(w, Event.Detach(id)).bus ==
        Prune(if sub.routing.Anycast? then HandAll(s1, sub.address, GivenBack(w, id)) else s1, sub.address)
  {
    DetachUnsubscribes(w, id);
    UnsubscribeIs(w.bus, id, Pending(w, id));
  }

  lemma StoredInOrder(s: State, s1: State, address: string, back: seq<Delivery>)
    requires Valid(s1) && (forall id :: id in s1.subs ==> Takes(s1, id))
    requires address in s1.queues && s1.queues[address] == [] && !HasConsumer(s1, address)
    requires s == HandAll(s1, address, back)
    ensures var s' := Prune(s, address);
      if back == [] then address !in s'.queues else address in s'.queues && s'.queues[address] == back
  {
    HandAllKeeps(s1, address, back);
    SameConsumers(s1, s, address);
    assert [] + back == back;
  }

  lemma NobodyLeft(s: State, id: nat, address: string)
    requires BusInv(s) && Sole(s, id, address)
    ensures !HasConsumer(Removed(s, id), address) && address in s.queues && s.queues[address] == []
  {
    ConsumerExists(s, address);
    RemovedTakes(s, id);
    ConsumerExists(Removed(s, id), address);
  }

  /** The last consumer of an address leaves what it held in the address's queue, in order; with nothing to
      leave, the queue goes. */
  lemma DetachStoresInOrder(w: World, id: nat, address: string)
    requires Inv(w) && Sole(w.bus, id, address)
    ensures id in w.links
    ensures var s', back := Step(w, Event.Detach(id)).bus, GivenBack(w, id);
      if back == [] then address !in s'.queues else address in s'.queues && s'.queues[address] == back
  {
    var s1 := Removed(w.bus, id);
    NobodyLeft(w.bus, id, address);
    RemovedTakes(w.bus, id);
    DetachIs(w, id);
    StoredInOrder(HandAll(s1, address, GivenBack(w, id)), s1, address, GivenBack(w, id));
  }

  lemma {:induction false} SoleConsumerGets(s: State, address: string, ds: seq<Delivery>, k: nat)
    requires Valid(s) && (forall id :: id in s.subs ==> Takes(s, id)) && Sole(s, k, address)
    ensures var s' := HandAll(s, address, ds);
      && s'.subs == s.subs && s'.nextId == s.nextId && s'.queues == s.queues && Valid(s')
      && s'.channels == s.channels[k := Channel(true, s.channels[k].items + ds)]
  {
    if ds == [] {
      assert s.channels[k].items + [] == s.channels[k].items;
      assert s.channels[k := s.channels[k]] == s.channels;
    } else {
      var front, last := ds[..|ds| - 1], ds[|ds| - 1];
      SoleConsumerGets(s, address, front, k);
      var s1 := HandAll(s, address, front);
      ConsumerExists(s1, address);
      var j := HandOverLands(s1, address, last);
      assert Competes(s, j, address);
      assert (s.channels[k].items + front) + [last] == s.channels[k].items + ds;
    }
  }

  lemma NotPruned(s: State, address: string)
    requires HasConsumer(s, address) || address !in s.queues || s.queues[address] != []
    ensures Prune(s, address) == s
  {
  }

  /** Where one other consumer is left, it gets what is given back at the end of its channel, in order. */
  lemma DetachHandsOverInOrder(w: World, id: nat, address: string, k: nat)
    requires Inv(w) && Competes(w.bus, id, address) && k != id && Sole(Removed(w.bus, id), k, address)
    ensures id in w.links
    ensures var s' := Step(w, Event.Detach(id)).bus;
      && s'.channels == (w.bus.channels - {id})[k := Channel(true, w.bus.channels[k].items + GivenBack(w, id))]
      && s'.queues == w.bus.queues
  {
    var s1 := Removed(w.bus, id);
    var s2 := HandAll(s1, address, GivenBack(w, id));
    RemovedTakes(w.bus, id);
    SoleConsumerGets(s1, address, GivenBack(w, id), k);
    ConsumerExists(s2, address);
    NotPruned(s2, address);
    DetachIs(w, id);
  }

  lemma TopicLeavesConsumers(s: State, id: nat)
    requires BusInv(s) && id in s.subs && s.subs[id].routing.Multicast?
    ensures Prune(Removed(s, id), s.subs[id].address) == Removed(s, id)
  {
    var address := s.subs[id].address;
    RemovedTakes(s, id);
    ConsumerExists(s, address);
    ConsumerExists(Removed(s, id), address);
    if k :| k in s.subs && Competes(s, k, address) {
      assert k in Removed(s, id).subs && Competes(Removed(s, id), k, address);
    }
    NotPruned(Removed(s, id), address);
  }

  /** A topic subscription that detaches gives nothing back. */
  lemma TopicGivesNothingBack(w: World, id: nat)
    requires Inv(w) && id in w.bus.subs && w.bus.subs[id].routing.Multicast?
    ensures var s' := Step(w, Event.Detach(id)).bus;
      s'.channels == w.bus.channels - {id} && s'.queues == w.bus.queues && s'.subs == w.bus.subs - {id}
  {
    DetachIs(w, id);
    TopicLeavesConsumers(w.bus, id);
  }

  /** The delivery as a `modified` settlement returns it. */
  predicate OneMoreAttempt(d: Delivery, returned: Delivery) {
    && returned.serial == d.serial && returned.payload == d.payload && returned.headers == d.headers && returned.replyId == d.replyId
    && returned.count.Some? && returned.count.value == (if d.count.Some? then d.count.value else 0) + 1
  }

  /** The delivery is at the end of that subscription's channel, and everything else is as it was. */
  predicate Appended(s: State, s': State, id: nat, d: Delivery) {
    id in s.channels && s' == s.(channels := s.channels[id := Channel(true, s.channels[id].items + [d])])
  }

  /** The delivery goes back to its subscription, or, that one gone, to consumer `k` or the queue. */
  predicate GoesBack(s: State, s': State, hand: Hand, d: Delivery, k: nat) {
    if hand.id in s.subs then Appended(s, s', hand.id, d) else Lands(s, s', hand.address, d, k)
  }

  /** A settlement takes the delivery off its consumer. Accepted or rejected it is gone, and so is any after
      the close; `modified` it goes, counted once more, to the end of the channel it came from, or, that
      subscription gone, to one attached consumer or the queue. */
  lemma SettledExactly(w: World, h: nat, kind: Kind)
    requires Inv(w) && h in w.hands
    ensures var w', hand := Step(w, Event.Settle(h, kind)), w.hands[h];
      && w'.hands == w.hands - {h} && w'.links == w.links
      && (kind != Modify || w.bus.closed ==> w'.bus == w.bus)
      && (kind == Modify && !w.bus.closed ==>
            exists d, k :: OneMoreAttempt(hand.delivery, d) && GoesBack(w.bus, w'.bus, hand, d, k))
  {
    var w', hand := Step(w, Event.Settle(h, kind)), w.hands[h];
    if kind == Modify && !w.bus.closed {
      var d := hand.delivery.(count := Some((if hand.delivery.count.Some? then hand.delivery.count.value else 0) + 1));
      assert OneMoreAttempt(hand.delivery, d);
      if hand.id in w.bus.subs {
        assert Takes(w.bus, hand.id);
        assert GoesBack(w.bus, w'.bus, hand, d, 0);
      } else {
        var k := HandOverLands(w.bus, hand.address, d);
        assert GoesBack(w.bus, w'.bus, hand, d, k);
      }
    }
  }

  /** A delivery its consumer drops stays with its subscription, behind those dropped before; that one gone,
      it goes, as it arrived, to one attached consumer or the queue; after the close it is gone. */
  lemma DroppedExactly(w: World, h: nat)
    requires Inv(w) && h in w.hands
    ensures var w', hand := Step(w, Event.DropHand(h)), w.hands[h];
      && w'.hands == w.hands - {h} && w'.links == w.links
      && (w.bus.closed ==> w'.bus == w.bus)
      && (!w.bus.closed && hand.id in w.bus.subs ==>
            w'.bus == w.bus.(outstanding := w.bus.outstanding[hand.id := Get(w.bus.outstanding, hand.id, []) + [hand.delivery]]))
      && (!w.bus.closed && hand.id !in w.bus.subs ==> exists k :: Lands(w.bus, w'.bus, hand.address, hand.delivery, k))
  {
    var w', hand := Step(w, Event.DropHand(h)), w.hands[h];
    if !w.bus.closed && hand.id !in w.bus.subs {
      var k := HandOverLands(w.bus, hand.address, hand.delivery);
      assert Lands(w.bus, w'.bus, hand.address, hand.delivery, k);
    }
  }
}
