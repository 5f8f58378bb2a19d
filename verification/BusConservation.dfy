/** Where the deliveries of a queue address are, over every run: in its queue, in a channel, set
    aside on a subscription, or in a consumer's hands, each in one place, until it leaves. Every
    function here counts how often one delivery `x` is in such a place. */
module BusConservation {
  import opened Router
  import opened BusWorld

  function One(same: bool): nat {
    if same then 1 else 0
  }

  /** In what one subscription of `address` holds: its unread channel, and what its consumer dropped. */
  function Part(s: State, links: map<nat, Link>, address: string, id: nat, x: Delivery): nat {
    if id in links && links[id].address == address
    then multiset(if id in s.channels then s.channels[id].items else [])[x] + multiset(Get(s.outstanding, id, []))[x]
    else 0
  }

  function Parts(s: State, links: map<nat, Link>, address: string, n: nat, x: Delivery): nat {
    if n == 0 then 0 else Parts(s, links, address, n - 1, x) + Part(s, links, address, n - 1, x)
  }

  /** In what the broker's side of the address holds. */
  function Kept(s: State, links: map<nat, Link>, address: string, x: Delivery): nat {
    multiset(Get(s.queues, address, []))[x] + Parts(s, links, address, s.nextId, x)
  }

  function InHand(hands: map<nat, Hand>, address: string, h: nat, x: Delivery): nat {
    One(h in hands && hands[h].address == address && hands[h].delivery == x)
  }

  /** In the hands of the consumers of the address. */
  function InHands(hands: map<nat, Hand>, address: string, n: nat, x: Delivery): nat {
    if n == 0 then 0 else InHands(hands, address, n - 1, x) + InHand(hands, address, n - 1, x)
  }

  function Held(w: World, address: string, x: Delivery): nat {
    Kept(w.bus, w.links, address, x) + InHands(w.hands, address, w.nextHand, x)
  }

  /** Only queue subscriptions are attached to the address. */
  predicate QueueOnly(s: State, address: string) {
    forall id :: id in s.subs && s.subs[id].address == address ==> s.subs[id].routing.Anycast?
  }

  // -- Sums --------------------------------------------------------------------------------------

  lemma {:induction false} PartsSame(s: State, links: map<nat, Link>, s': State, links': map<nat, Link>, address: string, n: nat, x: Delivery)
    requires forall id: nat :: id < n ==> Part(s', links', address, id, x) == Part(s, links, address, id, x)
    ensures Parts(s', links', address, n, x) == Parts(s, links, address, n, x)
  {
    if n > 0 {
      PartsSame(s, links, s', links', address, n - 1, x);
    }
  }

  /** Only one subscription's part changes, so the sum changes by as much. */
  lemma {:induction false} PartsChange(s: State, links: map<nat, Link>, s': State, links': map<nat, Link>, address: string, n: nat, k: nat, x: Delivery)
    requires k < n
    requires forall id: nat :: id < n && id != k ==> Part(s', links', address, id, x) == Part(s, links, address, id, x)
    ensures Parts(s', links', address, n, x) + Part(s, links, address, k, x) ==
      Parts(s, links, address, n, x) + Part(s', links', address, k, x)
  {
    if k == n - 1 {
      PartsSame(s, links, s', links', address, n - 1, x);
    } else {
      PartsChange(s, links, s', links', address, n - 1, k, x);
    }
  }

  lemma {:induction false} InHandsSame(hands: map<nat, Hand>, hands': map<nat, Hand>, address: string, n: nat, x: Delivery)
    requires forall h: nat :: h < n ==> InHand(hands', address, h, x) == InHand(hands, address, h, x)
    ensures InHands(hands', address, n, x) == InHands(hands, address, n, x)
  {
    if n > 0 {
      InHandsSame(hands, hands', address, n - 1, x);
    }
  }

  /** Letting go of a delivery takes just it out of the hands. */
  lemma {:induction false} LetGo(hands: map<nat, Hand>, address: string, n: nat, h: nat, x: Delivery)
    requires h < n && h in hands
    ensures InHands(hands, address, n, x) == InHands(hands - {h}, address, n, x) + InHand(hands, address, h, x)
  {
    if h == n - 1 {
      InHandsSame(hands, hands - {h}, address, n - 1, x);
    } else {
      LetGo(hands, address, n - 1, h, x);
    }
  }

  // -- The registry's operations -----------------------------------------------------------------

  predicate Linked(s: State, links: map<nat, Link>) {
    && Valid(s) && (forall id :: id in s.subs ==> Takes(s, id))
    && (forall id :: id in s.subs ==> id in links && links[id].address == s.subs[id].address)
  }

  /** Whether the address keeps a delivery handed to it: a consumer takes it, or its queue does. */
  predicate Accepting(s: State, address: string) {
    HasConsumer(s, address) || address in s.queues
  }

  lemma PushedKept(s: State, links: map<nat, Link>, s': State, b: string, k: nat, d: Delivery, address: string, x: Delivery)
    requires k in s.channels && k in links && links[k].address == b && k < s.nextId
    requires s'.channels == s.channels[k := Channel(true, s.channels[k].items + [d])] && s'.outstanding == s.outstanding
    requires s'.queues == s.queues && s'.nextId == s.nextId
    ensures Kept(s', links, address, x) == Kept(s, links, address, x) + One(b == address && d == x)
  {
    PartsChange(s, links, s', links, address, s.nextId, k, x);
  }

  lemma StoredKept(s: State, links: map<nat, Link>, b: string, d: Delivery, address: string, x: Delivery)
    requires b in s.queues
    ensures Kept(Store(s, b, d), links, address, x) == Kept(s, links, address, x) + One(b == address && d == x)
  {
    PartsSame(s, links, Store(s, b, d), links, address, s.nextId, x);
  }

  /** A hand-over adds the delivery to what its address holds, where that keeps it, and to nothing else. */
  lemma HandOverKept(s: State, links: map<nat, Link>, b: string, d: Delivery, address: string, x: Delivery)
    requires Linked(s, links)
    ensures Kept(HandToOne(s, b, d), links, address, x) ==
      Kept(s, links, address, x) + One(b == address && d == x && Accepting(s, b))
  {
    var k := HandOverLands(s, b, d);
    if HasConsumer(s, b) {
      PushedKept(s, links, HandToOne(s, b, d), b, k, d, address, x);
    } else if b in s.queues {
      StoredKept(s, links, b, d, address, x);
    }
  }

  lemma CountLast(ds: seq<Delivery>, x: Delivery)
    requires ds != []
    ensures multiset(ds)[x] == multiset(ds[..|ds| - 1])[x] + One(ds[|ds| - 1] == x)
  {
    assert ds == ds[..|ds| - 1] + [ds[|ds| - 1]];
  }

  lemma HandedLinked(s: State, links: map<nat, Link>, b: string, ds: seq<Delivery>)
    requires Linked(s, links) && b in s.queues
    ensures Linked(HandAll(s, b, ds), links) && Accepting(HandAll(s, b, ds), b)
  {
    HandAllKeeps(s, b, ds);
  }

  lemma {:induction false} HandAllKept(s: State, links: map<nat, Link>, b: string, ds: seq<Delivery>, address: string, x: Delivery)
    requires Linked(s, links) && b in s.queues
    ensures Kept(HandAll(s, b, ds), links, address, x) ==
      Kept(s, links, address, x) + (if b == address then multiset(ds)[x] else 0)
  {
    if ds != [] {
      var front, last := ds[..|ds| - 1], ds[|ds| - 1];
      HandAllKept(s, links, b, front, address, x);
      HandedLinked(s, links, b, front);
      HandOverKept(HandAll(s, b, front), links, b, last, address, x);
      CountLast(ds, x);
    }
  }

  /** Copies to topic subscriptions are no part of an address with queue subscriptions only. */
  lemma CopyKept(s: State, links: map<nat, Link>, b: string, d: Delivery, address: string, x: Delivery)
    requires Linked(s, links) && QueueOnly(s, address)
    ensures Kept(Copy(Note(s, b, d), b, d), links, address, x) == Kept(s, links, address, x)
    ensures Linked(Copy(Note(s, b, d), b, d), links)
    ensures Accepting(Copy(Note(s, b, d), b, d), b) == Accepting(s, b)
  {
    var s' := Copy(Note(s, b, d), b, d);
    PartsSame(s, links, s', links, address, s.nextId, x);
    SameConsumers(s, s', b);
  }

  lemma PublishKept(s: State, links: map<nat, Link>, b: string, d: Delivery, address: string, x: Delivery)
    requires Linked(s, links) && QueueOnly(s, address)
    ensures Kept(PublishOne(s, b, d), links, address, x) ==
      Kept(s, links, address, x) + One(b == address && d == x && Accepting(s, b))
  {
    CopyKept(s, links, b, d, address, x);
    HandOverKept(Copy(Note(s, b, d), b, d), links, b, d, address, x);
  }

  lemma PruneKept(s: State, links: map<nat, Link>, b: string, address: string, x: Delivery)
    ensures Kept(Prune(s, b), links, address, x) == Kept(s, links, address, x)
  {
    PartsSame(s, links, Prune(s, b), links, address, s.nextId, x);
  }

  /** Taking a link out takes its part, and nothing else. */
  lemma RemovedKept(s: State, links: map<nat, Link>, id: nat, s': State, address: string, x: Delivery)
    requires id < s.nextId && s'.nextId == s.nextId && s'.queues == s.queues
    requires s'.channels == s.channels - {id} && s'.outstanding == s.outstanding - {id}
    ensures Kept(s', links - {id}, address, x) + Part(s, links, address, id, x) == Kept(s, links, address, x)
  {
    PartsChange(s, links, s', links - {id}, address, s.nextId, id, x);
  }

  // -- What one step moves -----------------------------------------------------------------------

  /** In what consumers dropped on subscriptions below `n`. */
  function SetAside(s: State, links: map<nat, Link>, address: string, n: nat, x: Delivery): nat {
    if n == 0 then 0
    else SetAside(s, links, address, n - 1, x) +
         (if n - 1 in links && links[n - 1].address == address then multiset(Get(s.outstanding, n - 1, []))[x] else 0)
  }

  /** Whether the address takes back what a consumer returns or drops: its subscription does, another
      consumer does, or the queue. */
  predicate TakesBack(s: State, hand: Hand) {
    !s.closed && (hand.id in s.subs || Accepting(s, hand.address))
  }

  /** How often the step brings `x` in: a publish that the address keeps, a return that it takes back. */
  function Enters(w: World, e: Event, address: string, x: Delivery): nat {
    match e
    case Publish(b, payload, headers, replyId) =>
      One(!w.bus.closed && b == address && Accepting(w.bus, b) && Sent(w, payload, headers, replyId) == x)
    case Settle(h, kind) =>
      One(Returns(w, h, kind) && w.hands[h].address == address && TakesBack(w.bus, w.hands[h]) && Bump(w.hands[h].delivery) == x)
    case _ => 0
  }

  /** How often the step takes `x` out: a settlement, a drop nobody takes back, an at-most-once
      receipt or detach, and what the broker's side holds at shutdown. */
  function Leaves(w: World, e: Event, address: string, x: Delivery): nat {
    match e
    case Receive(id) => One(CanReceive(w, id) && w.links[id] == Link(address, true) && w.bus.channels[id].items[0] == x)
    case Settle(h, kind) => InHand(w.hands, address, h, x)
    case DropHand(h) => if h in w.hands && !TakesBack(w.bus, w.hands[h]) then InHand(w.hands, address, h, x) else 0
    case Detach(id) =>
      if id in w.links && w.links[id].address == address && (w.links[id].atMostOnce || id !in w.bus.subs)
      then multiset(Unread(w, id))[x] else 0
    case Close => multiset(Get(w.bus.queues, address, []))[x] + SetAside(w.bus, w.links, address, w.bus.nextId, x)
    case _ => 0
  }

  /** The account of one step for one delivery. */
  predicate Balanced(w: World, w': World, e: Event, address: string, x: Delivery) {
    Held(w', address, x) + Leaves(w, e, address, x) == Held(w, address, x) + Enters(w, e, address, x)
  }

  lemma SubscribedKept(s: State, links: map<nat, Link>, s': State, link: Link, b: string, routing: Routing, address: string, x: Delivery)
    requires Valid(s) && !s.closed && s.nextId !in links && link.address == b && s' == Router.Subscribe(s, b, routing)
    ensures Kept(s', links[s.nextId := link], address, x) == Kept(s, links, address, x)
  {
    PartsSame(s, links, s', links[s.nextId := link], address, s.nextId, x);
  }

  lemma SubscribeBalanced(w: World, w': World, b: string, routing: Routing, atMostOnce: bool, address: string, x: Delivery)
    requires Valid(w.bus) && LinkInv(w) && w' == SubscribeStep(w, b, routing, atMostOnce)
    ensures Balanced(w, w', Event.Subscribe(b, routing, atMostOnce), address, x)
  {
    if w.bus.closed {
      PartsSame(w.bus, w.links, w'.bus, w'.links, address, w.bus.nextId, x);
    } else {
      SubscribedKept(w.bus, w.links, w'.bus, Link(b, atMostOnce), b, routing, address, x);
    }
  }

  lemma PublishBalanced(w: World, w': World, e: Event, address: string, x: Delivery)
    requires Inv(w) && QueueOnly(w.bus, address) && e.Publish? && w' == Step(w, e)
    ensures Balanced(w, w', e, address, x)
  {
    if !w.bus.closed {
      var d := Sent(w, e.payload, e.headers, e.replyId);
      PublishKept(w.bus, w.links, e.address, d, address, x);
      PublishKeeps(w.bus, e.address, d);
    }
  }

  lemma ReceiveKept(s: State, links: map<nat, Link>, s': State, id: nat, address: string, x: Delivery)
    requires id in links && id in s.channels && id < s.nextId && s.channels[id].items != []
    requires s' == s.(channels := s.channels[id := s.channels[id].(items := s.channels[id].items[1..])])
    ensures Kept(s', links, address, x) + One(links[id].address == address && s.channels[id].items[0] == x) == Kept(s, links, address, x)
  {
    var items := s.channels[id].items;
    assert items == [items[0]] + items[1..];
    PartsChange(s, links, s', links, address, s.nextId, id, x);
  }

  lemma ReceiveBalanced(w: World, w': World, id: nat, address: string, x: Delivery)
    requires LinkInv(w) && CanReceive(w, id) && w' == ReceiveStep(w, id)
    ensures Balanced(w, w', Receive(id), address, x)
  {
    ReceiveKept(w.bus, w.links, w'.bus, id, address, x);
    InHandsSame(w.hands, w'.hands, address, w.nextHand, x);
  }

  /** A returned delivery joins its own subscription's channel, or is handed over anew. */
  lemma RequeueKept(w: World, hand: Hand, d: Delivery, address: string, x: Delivery)
    requires Inv(w) && FromItsLink(w, hand) && !w.bus.closed
    ensures Kept(Requeue(w.bus, hand.id, hand.address, d), w.links, address, x) ==
      Kept(w.bus, w.links, address, x) + One(hand.address == address && TakesBack(w.bus, hand) && d == x)
  {
    var s' := Requeue(w.bus, hand.id, hand.address, d);
    if hand.id in w.bus.subs {
      PushedKept(w.bus, w.links, s', hand.address, hand.id, d, address, x);
    } else {
      HandOverKept(w.bus, w.links, hand.address, d, address, x);
    }
  }

  lemma SetAsideKept(w: World, s': State, hand: Hand, address: string, x: Delivery)
    requires LinkInv(w) && FromItsLink(w, hand) && hand.id in w.bus.subs
    requires s' == w.bus.(outstanding := w.bus.outstanding[hand.id := Get(w.bus.outstanding, hand.id, []) + [hand.delivery]])
    ensures Kept(s', w.links, address, x) == Kept(w.bus, w.links, address, x) + One(hand.address == address && hand.delivery == x)
  {
    PartsChange(w.bus, w.links, s', w.links, address, w.bus.nextId, hand.id, x);
  }

  lemma ReleaseKept(w: World, hand: Hand, address: string, x: Delivery)
    requires Inv(w) && FromItsLink(w, hand)
    ensures Kept(Release(w.bus, hand.id, hand.address, hand.delivery), w.links, address, x) ==
      Kept(w.bus, w.links, address, x) + One(hand.address == address && TakesBack(w.bus, hand) && hand.delivery == x)
  {
    var s' := Release(w.bus, hand.id, hand.address, hand.delivery);
    if w.bus.closed {
    } else if hand.id in w.bus.subs {
      SetAsideKept(w, s', hand, address, x);
    } else {
      HandOverKept(w.bus, w.links, hand.address, hand.delivery, address, x);
    }
  }

  /** A settlement takes the delivery out of the hands, and a `modified` one brings it back with one more
      counted attempt, if anybody takes it back. */
  lemma SettleBalanced(w: World, w': World, h: nat, kind: Kind, address: string, x: Delivery)
    requires Inv(w) && h in w.hands && w' == SettleStep(w, h, kind)
    ensures Balanced(w, w', Settle(h, kind), address, x)
  {
    LetGo(w.hands, address, w.nextHand, h, x);
    if Returns(w, h, kind) {
      RequeueKept(w, w.hands[h], Bump(w.hands[h].delivery), address, x);
    }
  }

  lemma DropBalanced(w: World, w': World, h: nat, address: string, x: Delivery)
    requires Inv(w) && h in w.hands && w' == DropStep(w, h)
    ensures Balanced(w, w', DropHand(h), address, x)
  {
    LetGo(w.hands, address, w.nextHand, h, x);
    ReleaseKept(w, w.hands[h], address, x);
  }

  lemma RemovedLinked(w: World, id: nat)
    requires Inv(w) && id in w.links
    ensures Linked(Removed(w.bus, id), w.links - {id})
  {
  }

  lemma DetachBalanced(w: World, w': World, id: nat, address: string, x: Delivery)
    requires Inv(w) && QueueOnly(w.bus, address) && id in w.links && w' == DetachStep(w, id)
    ensures Balanced(w, w', Detach(id), address, x)
  {
    RemovedKept(w.bus, w.links, id, Removed(w.bus, id), address, x);
    if id in w.bus.subs {
      DetachedKept(w, id, address, x);
    } else {
      LateDetachKept(w.bus, w.links - {id}, w'.bus, id, address, x);
    }
  }

  /** A detach after the transport closed has no registry entry left to take out. */
  lemma LateDetachKept(s: State, links: map<nat, Link>, s': State, id: nat, address: string, x: Delivery)
    requires id !in s.outstanding && s'.channels == s.channels - {id} && s'.outstanding == s.outstanding
    requires s'.queues == s.queues && s'.nextId == s.nextId
    ensures Kept(s', links, address, x) == Kept(Removed(s, id), links, address, x)
  {
    PartsSame(Removed(s, id), links, s', links, address, s.nextId, x);
  }

  /** What a detach hands back, once the link's own part is out. */
  lemma DetachedKept(w: World, id: nat, address: string, x: Delivery)
    requires Inv(w) && QueueOnly(w.bus, address) && id in w.bus.subs
    ensures Kept(DetachStep(w, id).bus, w.links - {id}, address, x) ==
      Kept(Removed(w.bus, id), w.links - {id}, address, x) +
      (if w.links[id].address == address
       then multiset(Get(w.bus.outstanding, id, []))[x] + (if w.links[id].atMostOnce then 0 else multiset(Unread(w, id))[x])
       else 0)
  {
    RemovedKeeps(w.bus, id);
    RemovedLinked(w, id);
    UnsubscribedKept(w.bus, w.links - {id}, id, if w.links[id].atMostOnce then [] else Unread(w, id), address, x);
  }

  lemma UnsubscribedKept(s: State, links: map<nat, Link>, id: nat, pending: seq<Delivery>, address: string, x: Delivery)
    requires id in s.subs && Linked(Removed(s, id), links)
    requires s.subs[id].routing.Anycast? ==> s.subs[id].address in s.queues
    ensures Kept(Unsubscribe(s.(channels := s.channels - {id}), id, pending), links, address, x) ==
      Kept(Removed(s, id), links, address, x) +
      (if s.subs[id].routing.Anycast? && s.subs[id].address == address
       then multiset(Get(s.outstanding, id, []))[x] + multiset(pending)[x] else 0)
  {
    var b, held := s.subs[id].address, Get(s.outstanding, id, []);
    UnsubscribeIs(s, id, pending);
    if s.subs[id].routing.Anycast? {
      HandedBackKept(Removed(s, id), links, b, held + pending, address, x);
      assert multiset(held + pending)[x] == multiset(held)[x] + multiset(pending)[x];
    } else {
      PruneKept(Removed(s, id), links, b, address, x);
    }
  }

  lemma HandedBackKept(s: State, links: map<nat, Link>, b: string, back: seq<Delivery>, address: string, x: Delivery)
    requires Linked(s, links) && b in s.queues
    ensures Kept(Prune(HandAll(s, b, back), b), links, address, x) ==
      Kept(s, links, address, x) + (if b == address then multiset(back)[x] else 0)
  {
    HandAllKept(s, links, b, back, address, x);
    PruneKept(HandAll(s, b, back), links, b, address, x);
  }

  lemma {:induction false} ClosedParts(s: State, links: map<nat, Link>, address: string, n: nat, x: Delivery)
    ensures Parts(Router.Close(s), links, address, n, x) + SetAside(s, links, address, n, x) == Parts(s, links, address, n, x)
  {
    if n > 0 {
      ClosedParts(s, links, address, n - 1, x);
    }
  }

  /** The account of any step: what an address with queue subscriptions only holds afterwards, with
      what left, is what it held before, with what came in. */
  lemma {:induction false} StepBalanced(w: World, e: Event, address: string, x: Delivery)
    requires Inv(w) && QueueOnly(w.bus, address)
    ensures Balanced(w, Step(w, e), e, address, x)
  {
    var w' := Step(w, e);
    match e
    case Subscribe(b, routing, atMostOnce) => SubscribeBalanced(w, w', b, routing, atMostOnce, address, x);
    case Publish(_, _, _, _) => PublishBalanced(w, w', e, address, x);
    case Receive(id) => if CanReceive(w, id) { ReceiveBalanced(w, w', id, address, x); }
    case Settle(h, kind) => if h in w.hands { SettleBalanced(w, w', h, kind, address, x); }
    case DropHand(h) => if h in w.hands { DropBalanced(w, w', h, address, x); }
    case Detach(id) => if id in w.links { DetachBalanced(w, w', id, address, x); }
    case Close => ClosedParts(w.bus, w.links, address, w.bus.nextId, x);
  }
}
