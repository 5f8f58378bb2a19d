/** Detaching as the link does it: the receiver closes first, and unsubscribing comes later. In
    between, a send to the subscription is refused. What that costs, exactly, and what conservation
    rests on besides. */
module BusDetach {
  import opened Router
  import opened BusWorld
  import opened BusConservation

  /** The registry while links may be closing: receivers need not be open, and every queue
      subscription has its address's queue. */
  predicate Closing(s: State, links: map<nat, Link>) {
    && Valid(s)
    && (forall id :: id in s.subs ==> id in links && links[id].address == s.subs[id].address)
    && (forall id :: id in s.subs && s.subs[id].routing.Anycast? ==> s.subs[id].address in s.queues)
  }

  /** The first half of a detach: the receiver closes and is drained. */
  function CloseReceiver(s: State, id: nat): State
    requires id in s.channels
  {
    s.(channels := s.channels[id := Channel(false, [])])
  }

  lemma CloseReceiverKeepsClosing(s: State, links: map<nat, Link>, id: nat)
    requires Closing(s, links) && id in s.channels
    ensures Closing(CloseReceiver(s, id), links)
  {
  }

  lemma {:induction false} OfferKept(s: State, links: map<nat, Link>, b: string, d: Delivery, ids: seq<nat>, first: nat, offset: nat,
                                     address: string, x: Delivery)
    requires Valid(s) && ids != [] && offset <= |ids| && b in s.queues
    requires forall i :: 0 <= i < |ids| ==> ids[i] < s.nextId && ids[i] in links && links[ids[i]].address == b
    ensures Kept(Offer(s, b, d, ids, first, offset), links, address, x) == Kept(s, links, address, x) + One(b == address && d == x)
    decreases |ids| - offset
  {
    if offset == |ids| {
      StoredKept(s, links, b, d, address, x);
    } else {
      var id := ids[Place(first, offset, |ids|)];
      if Takes(s, id) {
        PushedKept(s, links, Send(s, id, d), b, id, d, address, x);
      } else {
        OfferKept(s, links, b, d, ids, first, offset + 1, address, x);
      }
    }
  }

  /** A hand-over loses nothing to closing links: the refused delivery goes on to the next consumer,
      and to the queue after the last. */
  lemma HandOverLosesNothing(s: State, links: map<nat, Link>, b: string, d: Delivery, address: string, x: Delivery)
    requires Closing(s, links)
    ensures Kept(HandToOne(s, b, d), links, address, x) ==
      Kept(s, links, address, x) + One(b == address && d == x && Accepting(s, b))
  {
    var ids: seq<nat> := Competing(s, b, s.nextId);
    if ids == [] {
      if b in s.queues { StoredKept(s, links, b, d, address, x); }
    } else {
      assert ids[0] in ids;
      var s1 := s.(turn := s.turn[b := (Get(s.turn, b, 0) + 1) % WRAP]);
      forall i | 0 <= i < |ids| ensures ids[i] < s.nextId && ids[i] in links && links[ids[i]].address == b {
        assert ids[i] in ids;
      }
      OfferKept(s1, links, b, d, ids, Get(s.turn, b, 0), 0, address, x);
      PartsSame(s, links, s1, links, address, s.nextId, x);
    }
  }

  /** Whether a return that reports success is kept: its subscription is attached with its receiver
      open, or gone with a consumer or a queue left. */
  predicate ReturnKept(s: State, hand: Hand) {
    if hand.id in s.subs then Takes(s, hand.id) else Accepting(s, hand.address)
  }

  /** A return that reports success keeps the delivery exactly then. The rest is lost. */
  lemma ReturnKeptExactly(s: State, links: map<nat, Link>, hand: Hand, d: Delivery, address: string, x: Delivery)
    requires Closing(s, links) && !s.closed && (hand.id in s.subs ==> s.subs[hand.id].address == hand.address)
    ensures Kept(Requeue(s, hand.id, hand.address, d), links, address, x) ==
      Kept(s, links, address, x) + One(hand.address == address && d == x && ReturnKept(s, hand))
  {
    if hand.id !in s.subs {
      HandOverLosesNothing(s, links, hand.address, d, address, x);
    } else if Takes(s, hand.id) {
      PushedKept(s, links, Requeue(s, hand.id, hand.address, d), hand.address, hand.id, d, address, x);
    } else {
      assert s.channels[hand.id := s.channels[hand.id]] == s.channels;
    }
  }

  lemma NoCompetitor(s: State, address: string, n: nat)
    requires forall id: nat :: id < n ==> !Competes(s, id, address)
    ensures Competing(s, address, n) == []
  {
    if n > 0 {
      NoCompetitor(s, address, n - 1);
    }
  }

  /** Handed back once its queue is gone, a delivery is lost too: the last consumer detaches while a
      handler still has the only delivery, so the empty queue goes, and then the handler drops it. */
  lemma DropAfterTheQueueWentIsLost(w: World, address: string, h: nat)
    requires Inv(w) && h in w.hands && w.hands[h].address == address && !w.bus.closed
    requires forall id :: id in w.bus.subs && w.bus.subs[id].address == address ==> id == w.hands[h].id
    requires w.hands[h].id in w.bus.subs && w.bus.subs[w.hands[h].id].routing.Anycast?
    requires Unread(w, w.hands[h].id) == [] && w.hands[h].id !in w.bus.outstanding
    ensures var gone := DetachStep(w, w.hands[h].id);
      && address !in gone.bus.queues && h in gone.hands && !TakesBack(gone.bus, gone.hands[h])
      && DropStep(gone, h).bus == gone.bus
  {
    var s, id := w.bus, w.hands[h].id;
    var s1 := Removed(s, id);
    UnsubscribeIs(s, id, []);
    RemovedKeeps(s, id);
    NoCompetitor(s1, address, s1.nextId);
    assert Get(s.outstanding, id, []) + [] == [];
    var gone := Prune(s1, address);
    NoCompetitor(gone, address, gone.nextId);
  }

  /** Conservation needs the address to have queue subscriptions only: a topic copy handed back after
      its subscription went joins the queue, where the message already is. */
  lemma TopicCopyHandedBackIsASecondDelivery(w: World, address: string, h: nat, k: nat)
    requires Inv(w) && h in w.hands && w.hands[h].address == address && !w.bus.closed
    requires w.hands[h].id !in w.bus.subs
    requires Competes(w.bus, k, address) && (forall id :: id in w.bus.subs && w.bus.subs[id].address == address ==> id == k)
    requires w.hands[h].delivery in Unread(w, k)
    ensures var w' := DropStep(w, h);
      Unread(w', k) == Unread(w, k) + [w.hands[h].delivery] && multiset(Unread(w', k))[w.hands[h].delivery] >= 2
  {
    ConsumerExists(w.bus, address);
    var j := HandOverLands(w.bus, address, w.hands[h].delivery);
    assert j == k;
  }
}
