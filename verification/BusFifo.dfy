/** An address with at most one queue subscription at a time is one first-in-first-out queue, across
    any detaching and re-attaching, and whatever topic subscriptions come and go on it: what waits is in
    the attached channel or in the stored queue, and nobody reading can tell which. */
module BusFifo {
  import opened Common
  import opened Router
  import opened BusWorld
  import opened BusConservation

  /** The queue subscription attached to the address, once the step is done. */
  function CurrentAfter(w: World, current: Option<nat>, e: Event, address: string): Option<nat> {
    if e.Subscribe? && e.address == address && e.routing.Anycast? && !w.bus.closed then Some(w.bus.nextId)
    else if e.Detach? && current == Some(e.id) then None
    else current
  }

  function Current(events: seq<Event>, address: string): Option<nat> {
    if events == [] then None
    else
      var front := events[..|events| - 1];
      CurrentAfter(Run(front), Current(front, address), events[|events| - 1], address)
  }

  /** The delivery is the queue's: it came from a queue subscription of the address, or its
      subscription is gone and giving it back would put it into the queue. */
  predicate OfTheQueue(w: World, h: nat, address: string) {
    h in w.hands && w.hands[h].address == address &&
    !(w.hands[h].id in w.bus.subs && w.bus.subs[w.hands[h].id].routing.Multicast?)
  }

  /** One at-least-once queue subscription at a time, the queue's deliveries neither returned nor
      dropped, and the transport open. Topic subscriptions of the address do as they like. */
  predicate Plain(w: World, current: Option<nat>, e: Event, address: string) {
    match e
    case Subscribe(b, routing, atMostOnce) => b == address && routing.Anycast? ==> current.None? && !atMostOnce
    case Settle(h, kind) => !(kind.Modify? && OfTheQueue(w, h, address))
    case DropHand(h) => !OfTheQueue(w, h, address)
    case Close => false
    case _ => true
  }

  predicate PlainRun(events: seq<Event>, address: string) {
    events == [] ||
    var front := events[..|events| - 1];
    PlainRun(front, address) && Plain(Run(front), Current(front, address), events[|events| - 1], address)
  }

  /** What the address was handed and kept, in order. */
  function Enqueued(w: World, e: Event, address: string): seq<Delivery> {
    if e.Publish? && !w.bus.closed && e.address == address && Accepting(w.bus, address)
    then [Sent(w, e.payload, e.headers, e.replyId)] else []
  }

  /** What its queue consumers received, in order. */
  function Dequeued(w: World, current: Option<nat>, e: Event): seq<Delivery> {
    if e.Receive? && CanReceive(w, e.id) && current == Some(e.id) then [w.bus.channels[e.id].items[0]] else []
  }

  function AllEnqueued(events: seq<Event>, address: string): seq<Delivery> {
    if events == [] then []
    else var front := events[..|events| - 1]; AllEnqueued(front, address) + Enqueued(Run(front), events[|events| - 1], address)
  }

  function AllDequeued(events: seq<Event>, address: string): seq<Delivery> {
    if events == [] then []
    else var front := events[..|events| - 1]; AllDequeued(front, address) + Dequeued(Run(front), Current(front, address), events[|events| - 1])
  }

  /** The one queue the address stands for. */
  function Waiting(w: World, current: Option<nat>, address: string): seq<Delivery> {
    if current.Some? then Unread(w, current.value) else Get(w.bus.queues, address, [])
  }

  predicate OneLink(w: World, current: Option<nat>, address: string) {
    && !w.bus.closed
    && (forall id :: id in w.bus.subs && Competes(w.bus, id, address) ==> current == Some(id))
    && (current.Some? ==> current.value in w.links && w.links[current.value] == Link(address, false) && Sound(w.bus, current.value, address))
  }

  predicate Sound(s: State, id: nat, address: string) {
    id in s.subs && s.subs[id] == Subscription(address, Anycast) && id !in s.outstanding
  }

  // -- What one step does ------------------------------------------------------------------------

  /** What a step elsewhere leaves alone on the address. */
  predicate Untouched(s: State, s': State, current: Option<nat>, address: string) {
    && Get(s'.queues, address, []) == Get(s.queues, address, [])
    && (current.Some? && current.value in s.channels ==>
          current.value in s'.channels && s'.channels[current.value].items == s.channels[current.value].items)
  }

  /** The subscription does not compete elsewhere. */
  predicate NotAt(s: State, current: Option<nat>, b: string) {
    current.Some? ==> !Competes(s, current.value, b)
  }

  lemma HandOverElsewhere(s: State, current: Option<nat>, b: string, d: Delivery, address: string)
    requires Valid(s) && (forall id :: id in s.subs ==> Takes(s, id)) && NotAt(s, current, b) && b != address
    ensures Untouched(s, HandToOne(s, b, d), current, address)
  {
    var k := HandOverLands(s, b, d);
  }

  lemma ConsumerIsCurrent(w: World, current: Option<nat>, address: string)
    requires Inv(w) && OneLink(w, current, address)
    ensures HasConsumer(w.bus, address) <==> current.Some?
  {
    ConsumerExists(w.bus, address);
  }

  /** The copies for topic subscriptions leave the queue subscription's channel and the queue alone. */
  lemma CopyWaits(s: State, s1: State, current: Option<nat>, b: string, d: Delivery, address: string)
    requires Valid(s) && s1 == Copy(Note(s, b, d), b, d)
    requires current.Some? ==> Sound(s, current.value, address)
    ensures Untouched(s, s1, current, address) && Valid(s1) && (forall id :: id in s.subs && Takes(s, id) ==> Takes(s1, id))
    ensures current.Some? ==> current.value in s1.channels && s1.channels[current.value] == s.channels[current.value]
  {
  }

  lemma PublishElsewhere(w: World, current: Option<nat>, b: string, d: Delivery, address: string)
    requires Inv(w) && OneLink(w, current, address) && b != address
    ensures Untouched(w.bus, PublishOne(w.bus, b, d), current, address)
  {
    var s1 := Copy(Note(w.bus, b, d), b, d);
    CopyWaits(w.bus, s1, current, b, d, address);
    HandOverElsewhere(s1, current, b, d, address);
  }

  lemma PublishHere(w: World, w': World, current: Option<nat>, d: Delivery, address: string)
    requires Inv(w) && OneLink(w, current, address) && w' == PublishStep(w, address, d)
    ensures Waiting(w', current, address) == Waiting(w, current, address) + if Accepting(w.bus, address) then [d] else []
  {
    var s1 := Copy(Note(w.bus, address, d), address, d);
    CopyWaits(w.bus, s1, current, address, d, address);
    ConsumerIsCurrent(w, current, address);
    SameConsumers(w.bus, s1, address);
    var k := HandOverLands(s1, address, d);
    if current.Some? {
      assert k in w.bus.subs && Competes(w.bus, k, address);
    }
  }

  lemma ReceiveHere(w: World, w': World, current: Option<nat>, id: nat, address: string)
    requires LinkInv(w) && OneLink(w, current, address) && CanReceive(w, id) && w' == ReceiveStep(w, id)
    ensures Dequeued(w, current, Receive(id)) + Waiting(w', current, address) == Waiting(w, current, address)
  {
    if current == Some(id) {
      var items := w.bus.channels[id].items;
      assert [items[0]] + items[1..] == items;
    }
  }

  lemma SubscribeHere(w: World, w': World, b: string, routing: Routing, atMostOnce: bool, current: Option<nat>, address: string)
    requires Inv(w) && OneLink(w, current, address) && w' == SubscribeStep(w, b, routing, atMostOnce)
    requires Plain(w, current, Event.Subscribe(b, routing, atMostOnce), address)
    ensures var current' := CurrentAfter(w, current, Event.Subscribe(b, routing, atMostOnce), address);
      Waiting(w', current', address) == Waiting(w, current, address) && OneLink(w', current', address)
  {
  }

  /** With no consumer left, what is unread becomes the stored queue, in order. */
  lemma DrainedIntoQueue(s: State, id: nat, pending: seq<Delivery>, address: string)
    requires id in s.subs && s.subs[id] == Subscription(address, Anycast) && id !in s.outstanding
    requires AllButQueue(Removed(s, id), address) && !HasConsumer(Removed(s, id), address)
    requires address in s.queues && s.queues[address] == []
    ensures Get(Unsubscribe(s.(channels := s.channels - {id}), id, pending).queues, address, []) == pending
  {
    UnsubscribeIs(s, id, pending);
    assert Get(s.outstanding, id, []) + pending == pending;
    HandAllKeeps(Removed(s, id), address, pending);
    assert [] + pending == pending;
  }

  /** Detaching the current subscription moves what is unread into the stored queue. */
  lemma DetachHere(w: World, w': World, current: Option<nat>, id: nat, address: string)
    requires Inv(w) && OneLink(w, current, address) && current == Some(id) && w' == DetachStep(w, id)
    ensures Waiting(w', None, address) == Waiting(w, current, address)
  {
    RemovedKeeps(w.bus, id);
    ConsumerExists(Removed(w.bus, id), address);
    DrainedIntoQueue(w.bus, id, Unread(w, id), address);
  }

  lemma HandedBackElsewhere(s: State, s': State, current: Option<nat>, b: string, stored: seq<Delivery>, address: string)
    requires b in s.queues && HandedBack(s, s', b, stored) && NotAt(s, current, b) && b != address
    ensures Untouched(s, Prune(s', b), current, address)
  {
  }

  lemma UnsubscribeElsewhere(s: State, id: nat, pending: seq<Delivery>, current: Option<nat>, address: string)
    requires id in s.subs && AllButQueue(Removed(s, id), s.subs[id].address)
    requires s.subs[id].routing.Anycast? ==> s.subs[id].address in s.queues
    requires s.subs[id].address != address && current != Some(id) && NotAt(Removed(s, id), current, s.subs[id].address)
    ensures Untouched(Removed(s, id), Unsubscribe(s.(channels := s.channels - {id}), id, pending), current, address)
  {
    var s1, b, back := Removed(s, id), s.subs[id].address, Get(s.outstanding, id, []) + pending;
    UnsubscribeIs(s, id, pending);
    if s.subs[id].routing.Anycast? {
      HandAllKeeps(s1, b, back);
      HandedBackElsewhere(s1, HandAll(s1, b, back), current, b, Stored(s1, b, back), address);
    }
  }

  /** A topic subscription that detaches hands nothing back, also on the address itself. */
  lemma TopicElsewhere(s: State, id: nat, pending: seq<Delivery>, current: Option<nat>, address: string)
    requires id in s.subs && s.subs[id].routing.Multicast? && current != Some(id)
    ensures Untouched(Removed(s, id), Unsubscribe(s.(channels := s.channels - {id}), id, pending), current, address)
  {
    UnsubscribeIs(s, id, pending);
  }

  lemma DetachElsewhere(w: World, w': World, current: Option<nat>, id: nat, address: string)
    requires Inv(w) && OneLink(w, current, address) && id in w.links && current != Some(id) && w' == DetachStep(w, id)
    ensures Untouched(w.bus, w'.bus, current, address)
  {
    if id in w.bus.subs {
      RemovedKeeps(w.bus, id);
      var pending := if w.links[id].atMostOnce then [] else Unread(w, id);
      if w.bus.subs[id].routing.Multicast? {
        TopicElsewhere(w.bus, id, pending, current, address);
      } else {
        assert Competes(w.bus, id, w.bus.subs[id].address);
        UnsubscribeElsewhere(w.bus, id, pending, current, address);
      }
    }
  }

  // -- Every step --------------------------------------------------------------------------------

  lemma GiveBackElsewhere(w: World, current: Option<nat>, hand: Hand, d: Delivery, address: string)
    requires Inv(w) && OneLink(w, current, address) && FromItsLink(w, hand) && hand.address != address
    ensures Untouched(w.bus, Requeue(w.bus, hand.id, hand.address, d), current, address)
    ensures Untouched(w.bus, Release(w.bus, hand.id, hand.address, d), current, address)
  {
    HandOverElsewhere(w.bus, current, hand.address, d, address);
  }

  /** A delivery of an attached topic subscription stays with that subscription. */
  lemma TopicGiveBack(w: World, current: Option<nat>, hand: Hand, d: Delivery, address: string)
    requires Inv(w) && OneLink(w, current, address) && hand.id in w.bus.subs && w.bus.subs[hand.id].routing.Multicast?
    ensures Untouched(w.bus, Requeue(w.bus, hand.id, hand.address, d), current, address)
    ensures Untouched(w.bus, Release(w.bus, hand.id, hand.address, d), current, address)
  {
  }

  lemma UntouchedWaits(w: World, w': World, current: Option<nat>, address: string)
    requires Valid(w.bus) && OneLink(w, current, address) && Untouched(w.bus, w'.bus, current, address)
    ensures Waiting(w', current, address) == Waiting(w, current, address)
  {
  }

  /** How the one queue moves: published deliveries join at its end, receives take from its front. */
  predicate Moves(w: World, w': World, current: Option<nat>, e: Event, address: string) {
    Dequeued(w, current, e) + Waiting(w', CurrentAfter(w, current, e, address), address) ==
    Waiting(w, current, address) + Enqueued(w, e, address)
  }

  lemma PublishMoves(w: World, w': World, current: Option<nat>, e: Event, address: string)
    requires Inv(w) && OneLink(w, current, address) && e.Publish? && w' == Step(w, e)
    ensures Moves(w, w', current, e, address)
  {
    var d := Sent(w, e.payload, e.headers, e.replyId);
    if w.bus.closed {
    } else if e.address == address {
      PublishHere(w, w', current, d, address);
    } else {
      PublishElsewhere(w, current, e.address, d, address);
      UntouchedWaits(w, w', current, address);
    }
  }

  lemma GiveBackUntouched(w: World, current: Option<nat>, h: nat, d: Delivery, address: string)
    requires Inv(w) && OneLink(w, current, address) && h in w.hands && !OfTheQueue(w, h, address)
    ensures Untouched(w.bus, Requeue(w.bus, w.hands[h].id, w.hands[h].address, d), current, address)
    ensures Untouched(w.bus, Release(w.bus, w.hands[h].id, w.hands[h].address, d), current, address)
  {
    if w.hands[h].address != address {
      GiveBackElsewhere(w, current, w.hands[h], d, address);
    } else {
      TopicGiveBack(w, current, w.hands[h], d, address);
    }
  }

  lemma SettleMoves(w: World, w': World, current: Option<nat>, h: nat, kind: Kind, address: string)
    requires Inv(w) && OneLink(w, current, address) && h in w.hands && w' == SettleStep(w, h, kind)
    requires kind.Modify? ==> !OfTheQueue(w, h, address)
    ensures Moves(w, w', current, Settle(h, kind), address)
  {
    if kind.Modify? {
      GiveBackUntouched(w, current, h, Bump(w.hands[h].delivery), address);
    }
    UntouchedWaits(w, w', current, address);
  }

  lemma DropMoves(w: World, w': World, current: Option<nat>, h: nat, address: string)
    requires Inv(w) && OneLink(w, current, address) && h in w.hands && w' == DropStep(w, h) && !OfTheQueue(w, h, address)
    ensures Moves(w, w', current, DropHand(h), address)
  {
    GiveBackUntouched(w, current, h, w.hands[h].delivery, address);
    UntouchedWaits(w, w', current, address);
  }

  /** A detach moves the queue when what waits stays. */
  lemma DetachedWaits(w: World, w': World, current: Option<nat>, id: nat, address: string)
    requires Waiting(w', CurrentAfter(w, current, Detach(id), address), address) == Waiting(w, current, address)
    ensures Moves(w, w', current, Detach(id), address)
  {
    var waiting := Waiting(w, current, address);
    assert [] + waiting == waiting && waiting + [] == waiting;
  }

  lemma DetachMoves(w: World, w': World, current: Option<nat>, id: nat, address: string)
    requires Inv(w) && OneLink(w, current, address) && id in w.links && w' == DetachStep(w, id)
    ensures Moves(w, w', current, Detach(id), address)
  {
    if current == Some(id) {
      DetachHere(w, w', current, id, address);
    } else {
      DetachElsewhere(w, w', current, id, address);
      UntouchedWaits(w, w', current, address);
    }
    DetachedWaits(w, w', current, id, address);
  }

  /** Every step before the transport closes moves the one queue as a queue moves. */
  lemma StepMoves(w: World, w': World, current: Option<nat>, e: Event, address: string)
    requires Inv(w) && OneLink(w, current, address) && Plain(w, current, e, address) && w' == Step(w, e)
    ensures Moves(w, w', current, e, address)
  {
    match e
    case Subscribe(b, routing, atMostOnce) => SubscribeHere(w, w', b, routing, atMostOnce, current, address);
    case Publish(_, _, _, _) => PublishMoves(w, w', current, e, address);
    case Receive(id) => if CanReceive(w, id) { ReceiveHere(w, w', current, id, address); }
    case Settle(h, kind) => if h in w.hands { SettleMoves(w, w', current, h, kind, address); }
    case DropHand(h) => if h in w.hands { DropMoves(w, w', current, h, address); }
    case Detach(id) => if id in w.links { DetachMoves(w, w', current, id, address); }
  }

  // -- The subscription stays the one ------------------------------------------------------------

  lemma BackSound(w: World, w': World, e: Event, id: nat, address: string)
    requires Inv(w) && (e.Settle? || e.DropHand?) && Plain(w, Some(id), e, address) && Sound(w.bus, id, address) && w' == Step(w, e)
    ensures Sound(w'.bus, id, address)
  {
    if e.hand in w.hands {
      var hand := w.hands[e.hand];
      var k := HandOverLands(w.bus, hand.address, if e.Settle? then Bump(hand.delivery) else hand.delivery);
    }
  }

  lemma UnsubscribeSound(s: State, id: nat, pending: seq<Delivery>, k: nat, address: string)
    requires BusInv(s) && id in s.subs && k != id && Sound(s, k, address)
    ensures Sound(Unsubscribe(s.(channels := s.channels - {id}), id, pending), k, address)
  {
    UnsubscribeIs(s, id, pending);
    RemovedKeeps(s, id);
    if s.subs[id].routing.Anycast? {
      HandAllKeeps(Removed(s, id), s.subs[id].address, Get(s.outstanding, id, []) + pending);
    }
  }

  lemma DetachSound(w: World, w': World, k: nat, id: nat, address: string)
    requires Inv(w) && k in w.links && k != id && Sound(w.bus, id, address) && w' == DetachStep(w, k)
    ensures Sound(w'.bus, id, address)
  {
    if k in w.bus.subs {
      UnsubscribeSound(w.bus, k, if w.links[k].atMostOnce then [] else Unread(w, k), id, address);
    }
  }

  lemma PublishSound(w: World, w': World, e: Event, id: nat, address: string)
    requires Inv(w) && e.Publish? && Sound(w.bus, id, address)
    requires w' == PublishStep(w, e.address, Sent(w, e.payload, e.headers, e.replyId))
    ensures Sound(w'.bus, id, address)
  {
    PublishKeeps(w.bus, e.address, Sent(w, e.payload, e.headers, e.replyId));
  }

  lemma SubscribeSound(w: World, w': World, e: Event, id: nat, address: string)
    requires Valid(w.bus) && e.Subscribe? && Sound(w.bus, id, address) && w' == SubscribeStep(w, e.address, e.routing, e.atMostOnce)
    ensures Sound(w'.bus, id, address)
  {
  }

  lemma ReceiveSound(w: World, w': World, k: nat, id: nat, address: string)
    requires Sound(w.bus, id, address) && CanReceive(w, k) && w' == ReceiveStep(w, k)
    ensures Sound(w'.bus, id, address)
  {
  }

  lemma StepSound(w: World, w': World, e: Event, id: nat, address: string)
    requires Inv(w) && Plain(w, Some(id), e, address) && Sound(w.bus, id, address) && e != Detach(id) && w' == Step(w, e)
    ensures Sound(w'.bus, id, address)
  {
    match e
    case Subscribe(_, _, _) => SubscribeSound(w, w', e, id, address);
    case Publish(_, _, _, _) => PublishSound(w, w', e, id, address);
    case Receive(k) => if CanReceive(w, k) { ReceiveSound(w, w', k, id, address); }
    case Settle(_, _) => BackSound(w, w', e, id, address);
    case DropHand(_) => BackSound(w, w', e, id, address);
    case Detach(k) => if k in w.links { DetachSound(w, w', k, id, address); }
  }

  lemma LinksAfter(w: World, e: Event)
    requires !w.bus.closed
    ensures Step(w, e).links ==
      if e.Subscribe? then w.links[w.bus.nextId := Link(e.address, e.atMostOnce)]
      else if e.Detach? then w.links - {e.id} else w.links
  {
  }

  lemma OneLinkAfter(w: World, w': World, current: Option<nat>, e: Event, address: string)
    requires OneLink(w, current, address) && !e.Subscribe? && !w'.bus.closed
    requires w'.links == if e.Detach? then w.links - {e.id} else w.links
    requires forall id :: id in w'.bus.subs ==> id in w.bus.subs && w'.bus.subs[id] == w.bus.subs[id]
    requires e.Detach? ==> e.id !in w'.bus.subs
    requires current.Some? && e != Detach(current.value) ==> Sound(w'.bus, current.value, address)
    ensures OneLink(w', CurrentAfter(w, current, e, address), address)
  {
  }

  lemma DetachedIsGone(w: World, id: nat)
    requires Inv(w)
    ensures id !in Step(w, Detach(id)).bus.subs
  {
    if id in w.links {
      DetachAttaches(w, id, Step(w, Detach(id)).bus);
    }
  }

  lemma OneLinkKept(w: World, w': World, current: Option<nat>, e: Event, address: string)
    requires Inv(w) && OneLink(w, current, address) && Plain(w, current, e, address) && w' == Step(w, e)
    ensures OneLink(w', CurrentAfter(w, current, e, address), address)
  {
    if e.Subscribe? {
      SubscribeHere(w, w', e.address, e.routing, e.atMostOnce, current, address);
    } else {
      if current.Some? && e != Detach(current.value) {
        StepSound(w, w', e, current.value, address);
      }
      StepAttaches(w, e);
      LinksAfter(w, e);
      if e.Detach? {
        DetachedIsGone(w, e.id);
      }
      OneLinkAfter(w, w', current, e, address);
    }
  }

  lemma {:induction false} RunOneLink(events: seq<Event>, address: string)
    requires PlainRun(events, address)
    ensures OneLink(Run(events), Current(events, address), address)
  {
    if events != [] {
      var front, last := events[..|events| - 1], events[|events| - 1];
      RunOneLink(front, address);
      RunKeeps(front);
      OneLinkKept(Run(front), Run(events), Current(front, address), last, address);
    }
  }

  lemma Shift(a: seq<Delivery>, out: seq<Delivery>, rest: seq<Delivery>, all: seq<Delivery>, waiting: seq<Delivery>, more: seq<Delivery>)
    requires a + waiting == all && out + rest == waiting + more
    ensures (a + out) + rest == all + more
  {
    assert (a + out) + rest == a + (out + rest);
    assert a + (waiting + more) == (a + waiting) + more;
  }

  /** The refinement. In every run with at most one queue subscription on the address at a time, an
      at-least-once one, with the queue's deliveries neither returned nor dropped, what the queue
      consumers received, followed by what waits in the attached channel or else in the stored queue,
      is exactly what the address was handed, in order, however often consumers detach and attach and
      whatever topic subscriptions the address has. */
  lemma {:induction false} OneFifo(events: seq<Event>, address: string)
    requires PlainRun(events, address)
    ensures AllDequeued(events, address) + Waiting(Run(events), Current(events, address), address) == AllEnqueued(events, address)
  {
    if events != [] {
      var front, last := events[..|events| - 1], events[|events| - 1];
      var w, current := Run(front), Current(front, address);
      OneFifo(front, address);
      RunKeeps(front);
      RunOneLink(front, address);
      StepMoves(w, Run(events), current, last, address);
      Shift(AllDequeued(front, address), Dequeued(w, current, last), Waiting(Run(events), Current(events, address), address),
            AllEnqueued(front, address), Waiting(w, current, address), Enqueued(w, last, address));
    }
  }
}
