/** Runs of the in-process broker: the registry, the consumers reading their channels, and the
    deliveries in their hands. Detaching a link is one step here; `BusDetach` has it in two. */
module BusWorld {
  import opened Common
  import opened Message
  import opened Router
  import opened RouterTurns

  /** A delivery a consumer holds and has not settled, with the subscription it came from. */
  datatype Hand = Hand(id: nat, address: string, delivery: Delivery)

  datatype Kind = Accept | Modify | Reject

  /** The consuming end of one subscription. It outlives the subscription when the transport closes. */
  datatype Link = Link(address: string, atMostOnce: bool)

  /** `published` and `modified` are history: what each publish sent, and how often each delivery was
      returned with a `modified` settlement on an address. */
  datatype World = World(
    bus: State,
    links: map<nat, Link>,
    hands: map<nat, Hand>,
    nextHand: nat,
    published: map<nat, Delivery>,
    nextSerial: nat,
    modified: map<(string, nat), nat>)

  datatype Event =
    | Subscribe(address: string, routing: Routing, atMostOnce: bool)
    | Publish(address: string, payload: Bytes, headers: Headers, replyId: ReplyId)
    | Receive(id: nat)
    | Settle(hand: nat, kind: Kind)
    | DropHand(hand: nat)
    | Detach(id: nat)
    | Close

  function Start(): World {
    World(Fresh(), map[], map[], 0, map[], 0, map[])
  }

  /** The delivery as a `modified` disposition returns it: one more counted attempt. */
  function Bump(d: Delivery): Delivery {
    d.(count := Some((if d.count.Some? then d.count.value else 0) + 1))
  }

  function SubscribeStep(w: World, address: string, routing: Routing, atMostOnce: bool): World {
    w.(bus := Router.Subscribe(w.bus, address, routing),
       links := if w.bus.closed then w.links else w.links[w.bus.nextId := Link(address, atMostOnce)])
  }

  function Sent(w: World, payload: Bytes, headers: Headers, replyId: ReplyId): Delivery {
    Delivery(w.nextSerial, payload, headers, None, replyId)
  }

  function PublishStep(w: World, address: string, d: Delivery): World {
    if w.bus.closed then w
    else w.(bus := PublishOne(w.bus, address, d), published := w.published[d.serial := d], nextSerial := w.nextSerial + 1)
  }

  predicate CanReceive(w: World, id: nat) {
    id in w.links && id in w.bus.channels && w.bus.channels[id].items != []
  }

  /** Takes the channel's head. An at-most-once delivery is settled by that and carries no way back. */
  function ReceiveStep(w: World, id: nat): World
    requires CanReceive(w, id)
  {
    var c := w.bus.channels[id];
    var w' := w.(bus := w.bus.(channels := w.bus.channels[id := c.(items := c.items[1..])]));
    if w.links[id].atMostOnce then w'
    else w'.(hands := w.hands[w.nextHand := Hand(id, w.links[id].address, c.items[0])], nextHand := w.nextHand + 1)
  }

  predicate Returns(w: World, h: nat, kind: Kind) {
    h in w.hands && kind.Modify? && !w.bus.closed
  }

  function SettleStep(w: World, h: nat, kind: Kind): World
    requires h in w.hands
  {
    var hand := w.hands[h];
    var w' := w.(hands := w.hands - {h});
    if Returns(w, h, kind)
    then w'.(bus := Requeue(w.bus, hand.id, hand.address, Bump(hand.delivery)),
             modified := w.modified[(hand.address, hand.delivery.serial) := Modified(w, hand.address, hand.delivery.serial) + 1])
    else w'
  }

  /** How often the delivery with this serial was returned on the address by a `modified` settlement. */
  function Modified(w: World, address: string, serial: nat): nat {
    Get(w.modified, (address, serial), 0)
  }

  function DropStep(w: World, h: nat): World
    requires h in w.hands
  {
    w.(hands := w.hands - {h}, bus := Release(w.bus, w.hands[h].id, w.hands[h].address, w.hands[h].delivery))
  }

  function Unread(w: World, id: nat): seq<Delivery> {
    if id in w.bus.channels then w.bus.channels[id].items else []
  }

  /** Detaching drains the channel: what was never read goes back, unless it was settled on sending. */
  function DetachStep(w: World, id: nat): World
    requires id in w.links
  {
    var pending := if w.links[id].atMostOnce then [] else Unread(w, id);
    w.(bus := Unsubscribe(w.bus.(channels := w.bus.channels - {id}), id, pending), links := w.links - {id})
  }

  function Step(w: World, e: Event): World {
    match e
    case Subscribe(address, routing, atMostOnce) => SubscribeStep(w, address, routing, atMostOnce)
    case Publish(address, payload, headers, replyId) => PublishStep(w, address, Sent(w, payload, headers, replyId))
    case Receive(id) => if CanReceive(w, id) then ReceiveStep(w, id) else w
    case Settle(h, kind) => if h in w.hands then SettleStep(w, h, kind) else w
    case DropHand(h) => if h in w.hands then DropStep(w, h) else w
    case Detach(id) => if id in w.links then DetachStep(w, id) else w
    case Close => w.(bus := Router.Close(w.bus))
  }

  function Run(events: seq<Event>): World {
    if events == [] then Start() else Step(Run(events[..|events| - 1]), events[|events| - 1])
  }

  // -- What every run keeps --------------------------------------------------------------------

  predicate HasConsumer(s: State, address: string) {
    Competing(s, address, s.nextId) != []
  }

  /** Receivers are open while attached, only attached subscriptions hold dropped deliveries, and an
      address has a queue exactly when a queue subscription is attached or the queue holds something,
      never both. */
  predicate BusInv(s: State) {
    && Valid(s)
    && (forall id :: id in s.subs ==> Takes(s, id))
    && (forall id :: id in s.outstanding ==> id in s.subs)
    && (forall id :: id in s.subs && s.subs[id].routing.Anycast? ==> s.subs[id].address in s.queues)
    && (forall a :: a in s.queues ==> (s.queues[a] == [] <==> HasConsumer(s, a)))
  }

  /** Every attached subscription has its consuming end, and what a consumer holds knows its address. */
  predicate LinkInv(w: World) {
    && (forall id :: id in w.links ==> id < w.bus.nextId)
    && (forall id :: id in w.bus.subs ==> id in w.links && w.links[id].address == w.bus.subs[id].address)
    && (forall h :: h in w.hands ==> h < w.nextHand && FromItsLink(w, w.hands[h]))
    && (forall k :: k in w.published ==> k < w.nextSerial && w.published[k].serial == k)
  }

  predicate FromItsLink(w: World, hand: Hand) {
    hand.id < w.bus.nextId && (hand.id in w.links ==> w.links[hand.id].address == hand.address)
  }

  predicate Inv(w: World) {
    BusInv(w.bus) && LinkInv(w)
  }

  lemma ConsumerExists(s: State, address: string)
    requires Valid(s)
    ensures HasConsumer(s, address) <==> exists id :: id in s.subs && Competes(s, id, address)
  {
    var ids := Competing(s, address, s.nextId);
    if ids != [] {
      assert ids[0] in ids;
    }
    if id :| id in s.subs && Competes(s, id, address) {
      assert id in ids;
    }
  }

  lemma SameConsumers(s: State, s': State, address: string)
    requires s'.subs == s.subs && s'.nextId == s.nextId
    ensures HasConsumer(s', address) == HasConsumer(s, address)
  {
    CompetingDependsOnSubs(s, s', address, s.nextId);
  }

  /** What a hand-over does while receivers are open: one attached competing consumer's channel gets
      the delivery, or else the address's queue, or else nothing keeps it. */
  predicate Lands(s: State, s': State, address: string, d: Delivery, k: nat) {
    && s'.subs == s.subs && s'.nextId == s.nextId && s'.outstanding == s.outstanding && s'.closed == s.closed && s'.log == s.log
    && Valid(s')
    && (if HasConsumer(s, address)
        then Competes(s, k, address) && k in s.channels && s'.queues == s.queues &&
             s'.channels == s.channels[k := Channel(true, s.channels[k].items + [d])]
        else s' == Store(s, address, d))
  }

  lemma TurnLands(s: State, s': State, address: string, d: Delivery, k: nat, turn: nat)
    requires Valid(s) && Takes(s, k) && Competes(s, k, address) && HasConsumer(s, address) && turn < WRAP
    requires s' == Send(s.(turn := s.turn[address := turn]), k, d)
    ensures Lands(s, s', address, d, k)
  {
  }

  lemma HandOverLands(s: State, address: string, d: Delivery) returns (k: nat)
    requires Valid(s) && forall id :: id in s.subs ==> Takes(s, id)
    ensures Lands(s, HandToOne(s, address, d), address, d, k)
  {
    k := 0;
    var ids, first := Competing(s, address, s.nextId), Get(s.turn, address, 0);
    if ids != [] {
      forall i | 0 <= i < |ids| ensures Takes(s, ids[i]) {
        assert ids[i] in ids;
      }
      HandOverInTurn(s, address, d);
      k := ids[first % |ids|];
      assert k in ids;
      TurnLands(s, HandToOne(s, address, d), address, d, k, (first + 1) % WRAP);
    }
  }

  lemma HandOverKeeps(s: State, address: string, d: Delivery)
    requires BusInv(s)
    ensures BusInv(HandToOne(s, address, d))
  {
    var k := HandOverLands(s, address, d);
    var s' := HandToOne(s, address, d);
    forall a ensures HasConsumer(s', a) == HasConsumer(s, a) {
      SameConsumers(s, s', a);
    }
  }

  /** What handing deliveries back to an address leaves as it was, and what it leaves in its queue. */
  predicate HandedBack(s: State, s': State, address: string, stored: seq<Delivery>)
    requires address in s.queues
  {
    && s'.subs == s.subs && s'.nextId == s.nextId && s'.outstanding == s.outstanding && s'.closed == s.closed && s'.log == s.log
    && Valid(s') && (forall id :: id in s'.subs ==> Takes(s', id))
    && s'.queues == s.queues[address := s.queues[address] + stored]
    && (forall id :: id in s.channels && !Competes(s, id, address) ==> id in s'.channels && s'.channels[id] == s.channels[id])
  }

  function Stored(s: State, address: string, ds: seq<Delivery>): seq<Delivery> {
    if HasConsumer(s, address) then [] else ds
  }

  lemma HandOneMore(s: State, s1: State, address: string, front: seq<Delivery>, d: Delivery)
    requires Valid(s) && (forall id :: id in s.subs ==> Takes(s, id)) && address in s.queues
    requires HandedBack(s, s1, address, Stored(s, address, front))
    ensures HandedBack(s, HandToOne(s1, address, d), address, Stored(s, address, front + [d]))
  {
    SameConsumers(s, s1, address);
    var k := HandOverLands(s1, address, d);
    assert (s.queues[address] + front) + [d] == s.queues[address] + (front + [d]);
  }

  lemma HandNone(s: State, address: string)
    requires Valid(s) && (forall id :: id in s.subs ==> Takes(s, id)) && address in s.queues
    ensures HandedBack(s, s, address, [])
  {
    assert s.queues[address] + [] == s.queues[address];
  }

  lemma {:induction false} HandAllKeeps(s: State, address: string, ds: seq<Delivery>)
    requires Valid(s) && (forall id :: id in s.subs ==> Takes(s, id)) && address in s.queues
    ensures HandedBack(s, HandAll(s, address, ds), address, Stored(s, address, ds))
  {
    if ds == [] {
      HandNone(s, address);
    } else {
      var front, last := ds[..|ds| - 1], ds[|ds| - 1];
      HandAllKeeps(s, address, front);
      HandOneMore(s, HandAll(s, address, front), address, front, last);
      assert front + [last] == ds;
    }
  }

  lemma CopyKeeps(s: State, address: string, d: Delivery)
    requires BusInv(s)
    ensures BusInv(Copy(Note(s, address, d), address, d))
  {
    var s' := Copy(Note(s, address, d), address, d);
    forall a ensures HasConsumer(s', a) == HasConsumer(s, a) {
      SameConsumers(s, s', a);
    }
  }

  lemma SubscribedConsumers(s: State, address: string, routing: Routing, a: string)
    requires BusInv(s)
    ensures var s' := Router.Subscribe(s, address, routing);
      Valid(s') && (HasConsumer(s', a) <==> HasConsumer(s, a) || (!s.closed && a == address && routing.Anycast?))
  {
    var s' := Router.Subscribe(s, address, routing);
    ConsumerExists(s, a);
    ConsumerExists(s', a);
    if id :| id in s.subs && Competes(s, id, a) {
      assert id in s'.subs && Competes(s', id, a);
    }
    if !s.closed && a == address && routing.Anycast? {
      assert Competes(s', s.nextId, a);
    }
  }

  lemma SubscribeKeeps(s: State, address: string, routing: Routing)
    requires BusInv(s)
    ensures BusInv(Router.Subscribe(s, address, routing))
  {
    var s' := Router.Subscribe(s, address, routing);
    forall a ensures HasConsumer(s', a) <==> HasConsumer(s, a) || (!s.closed && a == address && routing.Anycast?) {
      SubscribedConsumers(s, address, routing, a);
    }
    SubscribedConsumers(s, address, routing, address);
  }

  /** The invariant but for the queue of `address`, which may be empty without a consumer. */
  predicate AllButQueue(s: State, address: string) {
    && Valid(s) && (forall id :: id in s.subs ==> Takes(s, id)) && (forall id :: id in s.outstanding ==> id in s.subs)
    && (forall id :: id in s.subs && s.subs[id].routing.Anycast? ==> s.subs[id].address in s.queues)
    && (forall a :: a in s.queues && a != address ==> (s.queues[a] == [] <==> HasConsumer(s, a)))
    && (address in s.queues && HasConsumer(s, address) ==> s.queues[address] == [])
  }

  lemma PruneKeeps(s: State, address: string)
    requires AllButQueue(s, address)
    ensures BusInv(Prune(s, address))
  {
    var s' := Prune(s, address);
    if s' != s {
      ConsumerExists(s, address);
      forall a | a in s'.queues ensures s'.queues[a] == [] <==> HasConsumer(s', a) {
        SameConsumers(s, s', a);
      }
    }
  }

  /** The registry once the subscription is out of it, before anything goes back. */
  function Removed(s: State, id: nat): State {
    s.(subs := s.subs - {id}, outstanding := s.outstanding - {id}, channels := s.channels - {id})
  }

  lemma RemovedConsumers(s: State, id: nat, a: string)
    requires BusInv(s) && id in s.subs
    ensures Valid(Removed(s, id))
    ensures HasConsumer(Removed(s, id), a) ==> HasConsumer(s, a)
    ensures !Competes(s, id, a) ==> HasConsumer(Removed(s, id), a) == HasConsumer(s, a)
  {
    var s' := Removed(s, id);
    ConsumerExists(s, a);
    ConsumerExists(s', a);
    if k :| k in s'.subs && Competes(s', k, a) {
      assert k in s.subs && Competes(s, k, a);
    }
    if k :| k in s.subs && Competes(s, k, a) {
      if k != id { assert k in s'.subs && Competes(s', k, a); }
    }
  }

  lemma RemovedKeeps(s: State, id: nat)
    requires BusInv(s) && id in s.subs
    ensures AllButQueue(Removed(s, id), s.subs[id].address)
    ensures s.subs[id].routing.Anycast? ==> s.subs[id].address in s.queues && s.queues[s.subs[id].address] == []
  {
    var s1 := Removed(s, id);
    forall a ensures HasConsumer(s1, a) ==> HasConsumer(s, a)
      ensures !Competes(s, id, a) ==> HasConsumer(s1, a) == HasConsumer(s, a) {
      RemovedConsumers(s, id, a);
    }
    RemovedConsumers(s, id, s.subs[id].address);
    ConsumerExists(s, s.subs[id].address);
  }

  lemma HandedBackKeeps(s: State, s': State, address: string, stored: seq<Delivery>)
    requires AllButQueue(s, address) && address in s.queues && HandedBack(s, s', address, stored)
    requires HasConsumer(s, address) ==> stored == []
    ensures AllButQueue(s', address)
  {
    forall a ensures HasConsumer(s', a) == HasConsumer(s, a) {
      SameConsumers(s, s', a);
    }
    assert s.queues[address] + [] == s.queues[address];
  }

  /** Unsubscribing an attached subscription whose channel is gone, as the steps it is made of. */
  lemma UnsubscribeIs(s: State, id: nat, pending: seq<Delivery>)
    requires id in s.subs
    ensures var sub, s1 := s.subs[id], Removed(s, id);
      Unsubscribe(s.(channels := s.channels - {id}), id, pending) ==
        Prune(if sub.routing.Anycast? then HandAll(s1, sub.address, Get(s.outstanding, id, []) + pending) else s1, sub.address)
  {
    var s0 := s.(channels := s.channels - {id});
    assert s0.(subs := s0.subs - {id}, outstanding := s0.outstanding - {id}) == Removed(s, id);
  }

  lemma DetachKeeps(s: State, id: nat, pending: seq<Delivery>)
    requires BusInv(s) && id in s.subs
    ensures var s' := Unsubscribe(s.(channels := s.channels - {id}), id, pending);
      BusInv(s') && s'.subs == s.subs - {id} && s'.nextId == s.nextId && s'.closed == s.closed
  {
    var s1, sub := Removed(s, id), s.subs[id];
    var back := Get(s.outstanding, id, []) + pending;
    UnsubscribeIs(s, id, pending);
    RemovedKeeps(s, id);
    if sub.routing.Anycast? {
      HandAllKeeps(s1, sub.address, back);
      HandedBackKeeps(s1, HandAll(s1, sub.address, back), sub.address, Stored(s1, sub.address, back));
      PruneKeeps(HandAll(s1, sub.address, back), sub.address);
    } else {
      PruneKeeps(s1, sub.address);
    }
  }

  lemma QuietKeeps(s: State, s': State)
    requires BusInv(s) && Valid(s') && s'.subs == s.subs && s'.nextId == s.nextId && s'.queues == s.queues
    requires forall id :: id in s'.subs ==> Takes(s', id)
    requires forall id :: id in s'.outstanding ==> id in s'.subs
    ensures BusInv(s')
  {
    forall a ensures HasConsumer(s', a) == HasConsumer(s, a) {
      SameConsumers(s, s', a);
    }
  }

  lemma GiveBackKeeps(w: World, h: nat, d: Delivery)
    requires Inv(w) && h in w.hands
    ensures BusInv(Requeue(w.bus, w.hands[h].id, w.hands[h].address, d))
    ensures BusInv(Release(w.bus, w.hands[h].id, w.hands[h].address, d))
  {
    var hand := w.hands[h];
    if !w.bus.closed {
      if hand.id in w.bus.subs {
        QuietKeeps(w.bus, Requeue(w.bus, hand.id, hand.address, d));
        QuietKeeps(w.bus, Release(w.bus, hand.id, hand.address, d));
      } else {
        HandOverKeeps(w.bus, hand.address, d);
      }
    }
  }

  lemma CloseKeeps(s: State)
    requires BusInv(s)
    ensures BusInv(Router.Close(s))
  {
  }

  lemma PublishKeeps(s: State, address: string, d: Delivery)
    requires BusInv(s)
    ensures BusInv(PublishOne(s, address, d))
    ensures var s' := PublishOne(s, address, d);
      s'.subs == s.subs && s'.nextId == s.nextId && s'.closed == s.closed && s'.outstanding == s.outstanding
  {
    var s1 := Copy(Note(s, address, d), address, d);
    CopyKeeps(s, address, d);
    HandOverKeeps(s1, address, d);
    var k := HandOverLands(s1, address, d);
  }

  /** What a step does to the registry: the invariant holds on, and only subscribing and detaching
      change who is attached. */
  predicate Attaches(s: State, s': State, e: Event) {
    && BusInv(s')
    && s'.nextId == (if e.Subscribe? then s.nextId + 1 else s.nextId) && s'.closed == (s.closed || e.Close?)
    && (forall id :: id in s'.subs ==>
          if id in s.subs then s'.subs[id] == s.subs[id]
          else e.Subscribe? && !s.closed && id == s.nextId && s'.subs[id].address == e.address)
  }

  lemma SettleAttaches(w: World, h: nat, kind: Kind, s': State)
    requires Inv(w) && h in w.hands && s' == SettleStep(w, h, kind).bus
    ensures Attaches(w.bus, s', Settle(h, kind))
  {
    GiveBackKeeps(w, h, Bump(w.hands[h].delivery));
    var k := HandOverLands(w.bus, w.hands[h].address, Bump(w.hands[h].delivery));
  }

  lemma DropAttaches(w: World, h: nat, s': State)
    requires Inv(w) && h in w.hands && s' == DropStep(w, h).bus
    ensures Attaches(w.bus, s', DropHand(h))
  {
    GiveBackKeeps(w, h, w.hands[h].delivery);
    var k := HandOverLands(w.bus, w.hands[h].address, w.hands[h].delivery);
  }

  lemma DetachAttaches(w: World, id: nat, s': State)
    requires Inv(w) && id in w.links && s' == DetachStep(w, id).bus
    ensures Attaches(w.bus, s', Detach(id))
    ensures s'.subs == w.bus.subs - {id}
  {
    var pending := if w.links[id].atMostOnce then [] else Unread(w, id);
    if id in w.bus.subs {
      DetachKeeps(w.bus, id, pending);
    } else {
      QuietKeeps(w.bus, s');
    }
  }

  lemma ReceiveAttaches(w: World, id: nat, s': State)
    requires Inv(w) && CanReceive(w, id) && s' == ReceiveStep(w, id).bus
    ensures Attaches(w.bus, s', Receive(id))
  {
    QuietKeeps(w.bus, s');
  }

  lemma SubscribeAttaches(s: State, address: string, routing: Routing, atMostOnce: bool)
    requires BusInv(s)
    ensures Attaches(s, Router.Subscribe(s, address, routing), Event.Subscribe(address, routing, atMostOnce))
  {
    SubscribeKeeps(s, address, routing);
  }

  lemma StepAttaches(w: World, e: Event)
    requires Inv(w)
    ensures Attaches(w.bus, Step(w, e).bus, e)
  {
    match e
    case Subscribe(address, routing, atMostOnce) => SubscribeAttaches(w.bus, address, routing, atMostOnce);
    case Publish(address, payload, headers, replyId) => PublishKeeps(w.bus, address, Sent(w, payload, headers, replyId));
    case Receive(id) => if CanReceive(w, id) { ReceiveAttaches(w, id, Step(w, e).bus); }
    case Settle(h, kind) => if h in w.hands { SettleAttaches(w, h, kind, Step(w, e).bus); }
    case DropHand(h) => if h in w.hands { DropAttaches(w, h, Step(w, e).bus); }
    case Detach(id) => if id in w.links { DetachAttaches(w, id, Step(w, e).bus); }
    case Close => CloseKeeps(w.bus);
  }

  lemma DetachKeepsLinks(w: World, w': World, id: nat)
    requires Inv(w) && id in w.links && w' == DetachStep(w, id) && w'.bus.subs == w.bus.subs - {id}
    requires w'.bus.nextId == w.bus.nextId
    ensures LinkInv(w')
  {
  }

  lemma SubscribeKeepsLinks(w: World, w': World, address: string, routing: Routing, atMostOnce: bool)
    requires Inv(w) && w' == SubscribeStep(w, address, routing, atMostOnce)
    ensures LinkInv(w')
  {
  }

  lemma HandOutKeepsLinks(w: World, w': World, hand: Hand)
    requires LinkInv(w) && FromItsLink(w, hand) && w'.links == w.links && w'.published == w.published && w'.nextSerial == w.nextSerial
    requires w'.bus.subs == w.bus.subs && w'.bus.nextId == w.bus.nextId
    requires w'.hands == w.hands[w.nextHand := hand] && w'.nextHand == w.nextHand + 1
    ensures LinkInv(w')
  {
  }

  lemma ReceiveKeepsLinks(w: World, w': World, id: nat)
    requires LinkInv(w) && CanReceive(w, id) && w' == ReceiveStep(w, id)
    ensures LinkInv(w')
  {
    if !w.links[id].atMostOnce {
      HandOutKeepsLinks(w, w', Hand(id, w.links[id].address, w.bus.channels[id].items[0]));
    }
  }

  /** Steps that attach and detach nothing and hand out nothing. */
  lemma QuietKeepsLinks(w: World, w': World)
    requires Inv(w) && w'.links == w.links && w'.nextHand == w.nextHand && w'.bus.nextId == w.bus.nextId
    requires forall id :: id in w'.bus.subs ==> id in w.bus.subs && w'.bus.subs[id] == w.bus.subs[id]
    requires forall h :: h in w'.hands ==> h in w.hands && w'.hands[h] == w.hands[h]
    requires forall k :: k in w'.published ==> k < w'.nextSerial && w'.published[k].serial == k
    ensures LinkInv(w')
  {
  }

  lemma PublishKeepsLinks(w: World, w': World, address: string, d: Delivery)
    requires Inv(w) && w' == PublishStep(w, address, d) && d.serial == w.nextSerial
    requires w'.bus.subs == w.bus.subs && w'.bus.nextId == w.bus.nextId
    ensures LinkInv(w')
  {
    QuietKeepsLinks(w, w');
  }

  lemma SettleKeepsLinks(w: World, w': World, h: nat, kind: Kind)
    requires Inv(w) && h in w.hands && w' == SettleStep(w, h, kind) && Attaches(w.bus, w'.bus, Settle(h, kind))
    ensures LinkInv(w')
  {
    QuietKeepsLinks(w, w');
  }

  lemma DropKeepsLinks(w: World, w': World, h: nat)
    requires Inv(w) && h in w.hands && w' == DropStep(w, h) && Attaches(w.bus, w'.bus, DropHand(h))
    ensures LinkInv(w')
  {
    QuietKeepsLinks(w, w');
  }

  lemma StepKeeps(w: World, e: Event)
    requires Inv(w)
    ensures Inv(Step(w, e))
  {
    var w' := Step(w, e);
    StepAttaches(w, e);
    match e
    case Subscribe(address, routing, atMostOnce) => SubscribeKeepsLinks(w, w', address, routing, atMostOnce);
    case Receive(id) => if CanReceive(w, id) { ReceiveKeepsLinks(w, w', id); }
    case Detach(id) => if id in w.links { DetachAttaches(w, id, w'.bus); DetachKeepsLinks(w, w', id); }
    case Publish(address, payload, headers, replyId) =>
      PublishKeeps(w.bus, address, Sent(w, payload, headers, replyId));
      PublishKeepsLinks(w, w', address, Sent(w, payload, headers, replyId));
    case Close => QuietKeepsLinks(w, w');
    case Settle(h, kind) => if h in w.hands { SettleKeepsLinks(w, w', h, kind); }
    case DropHand(h) => if h in w.hands { DropKeepsLinks(w, w', h); }
  }

  lemma {:induction false} RunKeeps(events: seq<Event>)
    ensures Inv(Run(events))
  {
    if events != [] {
      RunKeeps(events[..|events| - 1]);
      StepKeeps(Run(events[..|events| - 1]), events[|events| - 1]);
    }
  }

  /** In every run an address has a queue exactly when a queue subscription is attached to it or the
      queue holds something, and it never holds anything while one is attached. */
  lemma {:induction false} QueueExistsExactly(events: seq<Event>, address: string)
    ensures var s := Run(events).bus;
      && (address in s.queues <==> (HasConsumer(s, address) || Get(s.queues, address, []) != []))
      && (HasConsumer(s, address) ==> Get(s.queues, address, []) == [])
  {
    RunKeeps(events);
    ConsumerExists(Run(events).bus, address);
  }
}
