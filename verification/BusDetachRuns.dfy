/** Runs in which every detach comes in its two halves, with anything in between: first the link closes
    its receiver and drains it, later it leaves the registry and hands back what it drained. */
module BusDetachRuns {
  import opened Router
  import opened BusWorld
  import opened BusConservation
  import opened BusDetach

  /** `closing` holds, for each link between its two halves, what it drained and will hand back. */
  datatype Halves = Halves(w: World, closing: map<nat, seq<Delivery>>)

  datatype HalfEvent =
    | Do(event: Event)         // anything but a detach
    | CloseLink(id: nat)       // the first half of a detach
    | LeaveRegistry(id: nat)   // the second

  function CloseLinkStep(f: Halves, id: nat): Halves
    requires id in f.w.links && id in f.w.bus.channels
  {
    f.(w := f.w.(bus := CloseReceiver(f.w.bus, id)),
       closing := f.closing[id := if f.w.links[id].atMostOnce then [] else f.w.bus.channels[id].items])
  }

  function LeaveStep(f: Halves, id: nat): Halves
    requires id in f.closing
  {
    var s := f.w.bus;
    Halves(f.w.(bus := Unsubscribe(s.(channels := s.channels - {id}), id, f.closing[id]), links := f.w.links - {id}), f.closing - {id})
  }

  predicate CanClose(f: Halves, id: nat) {
    id in f.w.links && id in f.w.bus.channels && id !in f.closing
  }

  function HalfStep(f: Halves, e: HalfEvent): Halves {
    match e
    case Do(event) => if event.Detach? then f else f.(w := Step(f.w, event))
    case CloseLink(id) => if CanClose(f, id) then CloseLinkStep(f, id) else f
    case LeaveRegistry(id) => if id in f.closing then LeaveStep(f, id) else f
  }

  function HalfRun(events: seq<HalfEvent>): Halves {
    if events == [] then Halves(Start(), map[]) else HalfStep(HalfRun(events[..|events| - 1]), events[|events| - 1])
  }

  // -- The invariant -----------------------------------------------------------------------------

  /** What a run with half-way detaches keeps of the registry's invariant. */
  predicate HalfInv(f: Halves) {
    && Closing(f.w.bus, f.w.links) && LinkInv(f.w)
    && (forall id :: id in f.w.bus.outstanding ==> id in f.w.bus.subs)
    && (forall id :: id in f.w.links ==> id in f.w.bus.channels)
    && (forall id :: id in f.closing ==> id in f.w.links && id in f.w.bus.channels && f.w.bus.channels[id] == Channel(false, []))
  }

  /** What a hand-over leaves as it was, whoever refuses it. */
  predicate Stays(s: State, s': State) {
    && s'.subs == s.subs && s'.nextId == s.nextId && s'.outstanding == s.outstanding && s'.closed == s.closed
    && s'.channels.Keys == s.channels.Keys && s'.queues.Keys == s.queues.Keys
    && (forall id :: id in s.channels && !s.channels[id].open ==> s'.channels[id] == s.channels[id])
    && (Valid(s) ==> Valid(s'))
  }

  lemma SendStays(s: State, id: nat, d: Delivery)
    requires Takes(s, id)
    ensures Stays(s, Send(s, id, d))
  {
  }

  lemma StoreStays(s: State, address: string, d: Delivery)
    ensures Stays(s, Store(s, address, d))
  {
  }

  lemma {:induction false} OfferStays(s: State, address: string, d: Delivery, ids: seq<nat>, first: nat, offset: nat)
    requires ids != [] && offset <= |ids|
    ensures Stays(s, Offer(s, address, d, ids, first, offset))
    decreases |ids| - offset
  {
    if offset == |ids| {
      StoreStays(s, address, d);
    } else if Takes(s, ids[Place(first, offset, |ids|)]) {
      SendStays(s, ids[Place(first, offset, |ids|)], d);
    } else {
      OfferStays(s, address, d, ids, first, offset + 1);
    }
  }

  lemma TurnStays(s: State, s': State, address: string, turn: nat)
    requires turn < WRAP && Stays(s.(turn := s.turn[address := turn]), s')
    ensures Stays(s, s')
  {
  }

  lemma HandOverStays(s: State, address: string, d: Delivery)
    ensures Stays(s, HandToOne(s, address, d))
  {
    var ids := Competing(s, address, s.nextId);
    if ids == [] {
      StoreStays(s, address, d);
    } else {
      var first := Get(s.turn, address, 0);
      var next := (first + 1) % WRAP;
      OfferStays(s.(turn := s.turn[address := next]), address, d, ids, first, 0);
      TurnStays(s, HandToOne(s, address, d), address, next);
    }
  }

  lemma {:induction false} HandAllStays(s: State, address: string, ds: seq<Delivery>)
    ensures Stays(s, HandAll(s, address, ds))
  {
    if ds != [] {
      HandAllStays(s, address, ds[..|ds| - 1]);
      HandOverStays(HandAll(s, address, ds[..|ds| - 1]), address, ds[|ds| - 1]);
    }
  }

  lemma CopyStays(s: State, address: string, d: Delivery)
    requires Valid(s)
    ensures Stays(s, Copy(Note(s, address, d), address, d))
  {
  }

  lemma PublishStays(s: State, address: string, d: Delivery)
    requires Valid(s)
    ensures Stays(s, PublishOne(s, address, d))
  {
    CopyStays(s, address, d);
    HandOverStays(Copy(Note(s, address, d), address, d), address, d);
  }

  /** A step that keeps the registrations keeps the invariant, given what it does around them. */
  lemma StayedInv(f: Halves, f': Halves)
    requires HalfInv(f) && Stays(f.w.bus, f'.w.bus) && f'.closing == f.closing && f'.w.links == f.w.links && LinkInv(f'.w)
    ensures HalfInv(f')
  {
  }

  lemma LinksStay(w: World, w': World)
    requires LinkInv(w) && w'.links == w.links && w'.nextHand == w.nextHand
    requires w'.bus.nextId == w.bus.nextId && w'.bus.subs == w.bus.subs
    requires forall h :: h in w'.hands ==> h in w.hands && w'.hands[h] == w.hands[h]
    requires forall k :: k in w'.published ==> k < w'.nextSerial && w'.published[k].serial == k
    ensures LinkInv(w')
  {
  }

  lemma PublishHalf(f: Halves, f': Halves, e: Event)
    requires HalfInv(f) && e.Publish? && f' == HalfStep(f, Do(e))
    ensures HalfInv(f')
  {
    if !f.w.bus.closed {
      PublishStays(f.w.bus, e.address, Sent(f.w, e.payload, e.headers, e.replyId));
      LinksStay(f.w, f'.w);
      StayedInv(f, f');
    }
  }

  lemma SubscribedClosing(s: State, links: map<nat, Link>, link: Link, routing: Routing)
    requires Closing(s, links) && !s.closed
    ensures Closing(Router.Subscribe(s, link.address, routing), links[s.nextId := link])
  {
  }

  lemma SubscribedLinks(w: World, w': World, address: string, routing: Routing, atMostOnce: bool)
    requires LinkInv(w) && Valid(w.bus) && w' == SubscribeStep(w, address, routing, atMostOnce)
    ensures LinkInv(w')
  {
  }

  lemma SubscribeHalf(f: Halves, f': Halves, address: string, routing: Routing, atMostOnce: bool)
    requires HalfInv(f) && f' == f.(w := SubscribeStep(f.w, address, routing, atMostOnce))
    ensures HalfInv(f')
  {
    SubscribedLinks(f.w, f'.w, address, routing, atMostOnce);
    if !f.w.bus.closed {
      SubscribedClosing(f.w.bus, f.w.links, Link(address, atMostOnce), routing);
    }
  }

  lemma ReceiveHalf(f: Halves, f': Halves, id: nat)
    requires HalfInv(f) && CanReceive(f.w, id) && f' == f.(w := ReceiveStep(f.w, id))
    ensures HalfInv(f')
  {
    assert id !in f.closing;
  }

  lemma SettleHalf(f: Halves, f': Halves, h: nat, kind: Kind)
    requires HalfInv(f) && h in f.w.hands && f' == f.(w := SettleStep(f.w, h, kind))
    ensures HalfInv(f')
  {
    var hand := f.w.hands[h];
    if Returns(f.w, h, kind) && hand.id !in f.w.bus.subs {
      HandOverStays(f.w.bus, hand.address, Bump(hand.delivery));
    }
    LinksStay(f.w, f'.w);
    StayedInv(f, f');
  }

  lemma DropHalf(f: Halves, f': Halves, h: nat)
    requires HalfInv(f) && h in f.w.hands && f' == f.(w := DropStep(f.w, h))
    ensures HalfInv(f')
  {
    var hand := f.w.hands[h];
    if !f.w.bus.closed && hand.id !in f.w.bus.subs {
      HandOverStays(f.w.bus, hand.address, hand.delivery);
      LinksStay(f.w, f'.w);
      StayedInv(f, f');
    } else {
      LinksStay(f.w, f'.w);
    }
  }

  lemma CloseLinkHalf(f: Halves, f': Halves, id: nat)
    requires HalfInv(f) && CanClose(f, id) && f' == CloseLinkStep(f, id)
    ensures HalfInv(f')
  {
    CloseReceiverKeepsClosing(f.w.bus, f.w.links, id);
  }

  /** What unsubscribing leaves of the registry. */
  predicate Left(s: State, s': State, id: nat) {
    && s'.subs == s.subs - {id} && s'.nextId == s.nextId && s'.closed == s.closed
    && s'.channels.Keys == s.channels.Keys - {id}
    && (forall k :: k in s.channels && k != id && !s.channels[k].open ==> s'.channels[k] == s.channels[k])
    && (forall k :: k in s'.outstanding ==> k in s.outstanding && k != id)
    && Valid(s')
    && (forall k :: k in s'.subs && s'.subs[k].routing.Anycast? ==> s'.subs[k].address in s'.queues)
  }

  lemma PruneLeaves(s: State, s1: State, address: string, id: nat)
    requires Left(s, s1, id)
    ensures Left(s, Prune(s1, address), id)
  {
    if Prune(s1, address) != s1 {
      forall k | k in s1.subs && s1.subs[k].routing.Anycast? ensures s1.subs[k].address != address {
        ConsumerExists(s1, address);
      }
    }
  }

  lemma UnsubscribeLeaves(s: State, links: map<nat, Link>, id: nat, pending: seq<Delivery>)
    requires Closing(s, links) && id in s.subs && (forall k :: k in s.outstanding ==> k in s.subs)
    ensures Left(s, Unsubscribe(s.(channels := s.channels - {id}), id, pending), id)
  {
    var s1, sub := Removed(s, id), s.subs[id];
    var back := Get(s.outstanding, id, []) + pending;
    UnsubscribeIs(s, id, pending);
    assert Left(s, s1, id);
    if sub.routing.Anycast? {
      HandAllStays(s1, sub.address, back);
      StayedLeft(s, s1, HandAll(s1, sub.address, back), id);
      PruneLeaves(s, HandAll(s1, sub.address, back), sub.address, id);
    } else {
      PruneLeaves(s, s1, sub.address, id);
    }
  }

  lemma StayedLeft(s: State, s1: State, s2: State, id: nat)
    requires Left(s, s1, id) && Stays(s1, s2)
    requires forall k :: k in s.channels && k != id && !s.channels[k].open ==> k in s1.channels && s1.channels[k] == s.channels[k]
    ensures Left(s, s2, id)
  {
  }

  lemma LeaveHalf(f: Halves, f': Halves, id: nat)
    requires HalfInv(f) && id in f.closing && f' == LeaveStep(f, id)
    ensures HalfInv(f')
  {
    if id in f.w.bus.subs {
      UnsubscribeLeaves(f.w.bus, f.w.links, id, f.closing[id]);
      LeftInv(f, f', id);
    }
  }

  lemma LeftInv(f: Halves, f': Halves, id: nat)
    requires HalfInv(f) && id in f.closing && Left(f.w.bus, f'.w.bus, id) && f'.closing == f.closing - {id}
    requires f'.w == f.w.(bus := f'.w.bus, links := f.w.links - {id})
    ensures HalfInv(f')
  {
  }

  lemma HalfStepKeeps(f: Halves, f': Halves, e: HalfEvent)
    requires HalfInv(f) && f' == HalfStep(f, e)
    ensures HalfInv(f')
  {
    match e
    case CloseLink(id) => if CanClose(f, id) { CloseLinkHalf(f, f', id); }
    case LeaveRegistry(id) => if id in f.closing { LeaveHalf(f, f', id); }
    case Do(event) =>
      match event
      case Subscribe(address, routing, atMostOnce) => SubscribeHalf(f, f', address, routing, atMostOnce);
      case Publish(_, _, _, _) => PublishHalf(f, f', event);
      case Receive(id) => if CanReceive(f.w, id) { ReceiveHalf(f, f', id); }
      case Settle(h, kind) => if h in f.w.hands { SettleHalf(f, f', h, kind); }
      case DropHand(h) => if h in f.w.hands { DropHalf(f, f', h); }
      case Detach(_) =>
      case Close =>
  }

  lemma {:induction false} HalfRunKeeps(events: seq<HalfEvent>)
    ensures HalfInv(HalfRun(events))
  {
    if events != [] {
      HalfRunKeeps(events[..|events| - 1]);
      HalfStepKeeps(HalfRun(events[..|events| - 1]), HalfRun(events), events[|events| - 1]);
    }
  }

  // -- The account -------------------------------------------------------------------------------

  /** In what the links of the address between their two halves have drained. */
  function Drained(closing: map<nat, seq<Delivery>>, links: map<nat, Link>, address: string, n: nat, x: Delivery): nat {
    if n == 0 then 0 else Drained(closing, links, address, n - 1, x) + DrainedBy(closing, links, address, n - 1, x)
  }

  function DrainedBy(closing: map<nat, seq<Delivery>>, links: map<nat, Link>, address: string, id: nat, x: Delivery): nat {
    if id in closing && id in links && links[id].address == address then multiset(closing[id])[x] else 0
  }

  /** How often the address holds `x`: as before, or drained and on its way back. */
  function HeldHalf(f: Halves, address: string, x: Delivery): nat {
    Held(f.w, address, x) + Drained(f.closing, f.w.links, address, f.w.bus.nextId, x)
  }

  /** As for whole detaches, but for a return, which a closing link refuses. */
  function EntersHalf(f: Halves, e: HalfEvent, address: string, x: Delivery): nat {
    match e
    case Do(event) =>
      (match event
       case Publish(_, _, _, _) => Enters(f.w, event, address, x)
       case Settle(h, kind) =>
         One(Returns(f.w, h, kind) && f.w.hands[h].address == address && ReturnKept(f.w.bus, f.w.hands[h]) && Bump(f.w.hands[h].delivery) == x)
       case _ => 0)
    case _ => 0
  }

  /** What leaves: as for whole detaches, with the detach's losses where its halves make them: an
      at-most-once link's when it drains, and all of a link's that leaves after the transport closed. */
  function LeavesHalf(f: Halves, e: HalfEvent, address: string, x: Delivery): nat {
    match e
    case Do(event) => if event.Detach? then 0 else Leaves(f.w, event, address, x)
    case CloseLink(id) =>
      if CanClose(f, id) && f.w.links[id] == Link(address, true) then multiset(Unread(f.w, id))[x] else 0
    case LeaveRegistry(id) => if id !in f.w.bus.subs then DrainedBy(f.closing, f.w.links, address, id, x) else 0
  }

  predicate BalancedHalf(f: Halves, f': Halves, e: HalfEvent, address: string, x: Delivery) {
    HeldHalf(f', address, x) + LeavesHalf(f, e, address, x) == HeldHalf(f, address, x) + EntersHalf(f, e, address, x)
  }

  lemma {:induction false} DrainedSame(c: map<nat, seq<Delivery>>, links: map<nat, Link>, c': map<nat, seq<Delivery>>, links': map<nat, Link>,
                                       address: string, n: nat, x: Delivery)
    requires forall id: nat :: id < n ==> DrainedBy(c', links', address, id, x) == DrainedBy(c, links, address, id, x)
    ensures Drained(c', links', address, n, x) == Drained(c, links, address, n, x)
  {
    if n > 0 {
      DrainedSame(c, links, c', links', address, n - 1, x);
    }
  }

  lemma {:induction false} DrainedChange(c: map<nat, seq<Delivery>>, links: map<nat, Link>, c': map<nat, seq<Delivery>>, links': map<nat, Link>,
                                         address: string, n: nat, k: nat, x: Delivery)
    requires k < n && forall id: nat :: id < n && id != k ==> DrainedBy(c', links', address, id, x) == DrainedBy(c, links, address, id, x)
    ensures Drained(c', links', address, n, x) + DrainedBy(c, links, address, k, x) ==
      Drained(c, links, address, n, x) + DrainedBy(c', links', address, k, x)
  {
    if k == n - 1 {
      DrainedSame(c, links, c', links', address, n - 1, x);
    } else {
      DrainedChange(c, links, c', links', address, n - 1, k, x);
    }
  }

  lemma CopyClosing(s: State, links: map<nat, Link>, b: string, d: Delivery, address: string, x: Delivery)
    requires Closing(s, links) && QueueOnly(s, address)
    ensures var s' := Copy(Note(s, b, d), b, d);
      Closing(s', links) && Kept(s', links, address, x) == Kept(s, links, address, x) && (Accepting(s', b) == Accepting(s, b))
  {
    var s' := Copy(Note(s, b, d), b, d);
    PartsSame(s, links, s', links, address, s.nextId, x);
    SameConsumers(s, s', b);
  }

  lemma PublishAccount(f: Halves, f': Halves, e: Event, address: string, x: Delivery)
    requires HalfInv(f) && QueueOnly(f.w.bus, address) && e.Publish? && f' == HalfStep(f, Do(e))
    ensures BalancedHalf(f, f', Do(e), address, x)
  {
    if !f.w.bus.closed {
      var s, d := f.w.bus, Sent(f.w, e.payload, e.headers, e.replyId);
      CopyClosing(s, f.w.links, e.address, d, address, x);
      HandOverLosesNothing(Copy(Note(s, e.address, d), e.address, d), f.w.links, e.address, d, address, x);
      PublishStays(s, e.address, d);
    }
  }

  lemma SubscribeAccount(f: Halves, f': Halves, b: string, routing: Routing, atMostOnce: bool, address: string, x: Delivery)
    requires HalfInv(f) && f' == f.(w := SubscribeStep(f.w, b, routing, atMostOnce))
    ensures BalancedHalf(f, f', Do(Event.Subscribe(b, routing, atMostOnce)), address, x)
  {
    SubscribeBalanced(f.w, f'.w, b, routing, atMostOnce, address, x);
    DrainedSame(f.closing, f.w.links, f.closing, f'.w.links, address, f.w.bus.nextId, x);
  }

  lemma ReceiveAccount(f: Halves, f': Halves, id: nat, address: string, x: Delivery)
    requires HalfInv(f) && CanReceive(f.w, id) && f' == f.(w := ReceiveStep(f.w, id))
    ensures BalancedHalf(f, f', Do(Receive(id)), address, x)
  {
    ReceiveBalanced(f.w, f'.w, id, address, x);
  }

  lemma SettleAccount(f: Halves, f': Halves, h: nat, kind: Kind, address: string, x: Delivery)
    requires HalfInv(f) && h in f.w.hands && f' == f.(w := SettleStep(f.w, h, kind))
    ensures BalancedHalf(f, f', Do(Settle(h, kind)), address, x)
  {
    var hand := f.w.hands[h];
    LetGo(f.w.hands, address, f.w.nextHand, h, x);
    if Returns(f.w, h, kind) {
      ReturnKeptExactly(f.w.bus, f.w.links, hand, Bump(hand.delivery), address, x);
      if hand.id !in f.w.bus.subs { HandOverStays(f.w.bus, hand.address, Bump(hand.delivery)); }
    }
  }

  lemma DropAccount(f: Halves, f': Halves, h: nat, address: string, x: Delivery)
    requires HalfInv(f) && h in f.w.hands && f' == f.(w := DropStep(f.w, h))
    ensures BalancedHalf(f, f', Do(DropHand(h)), address, x)
  {
    var hand := f.w.hands[h];
    LetGo(f.w.hands, address, f.w.nextHand, h, x);
    if f.w.bus.closed {
    } else if hand.id in f.w.bus.subs {
      SetAsideKept(f.w, f'.w.bus, hand, address, x);
    } else {
      HandOverLosesNothing(f.w.bus, f.w.links, hand.address, hand.delivery, address, x);
      HandOverStays(f.w.bus, hand.address, hand.delivery);
    }
  }

  lemma ClosedReceiverKept(s: State, links: map<nat, Link>, id: nat, address: string, x: Delivery)
    requires id in s.channels && id < s.nextId && id in links
    ensures Kept(CloseReceiver(s, id), links, address, x) + (if links[id].address == address then multiset(s.channels[id].items)[x] else 0) ==
      Kept(s, links, address, x)
  {
    PartsChange(s, links, CloseReceiver(s, id), links, address, s.nextId, id, x);
  }

  lemma CloseLinkAccount(f: Halves, f': Halves, id: nat, address: string, x: Delivery)
    requires HalfInv(f) && CanClose(f, id) && f' == CloseLinkStep(f, id)
    ensures BalancedHalf(f, f', CloseLink(id), address, x)
  {
    ClosedReceiverKept(f.w.bus, f.w.links, id, address, x);
    DrainedChange(f.closing, f.w.links, f'.closing, f.w.links, address, f.w.bus.nextId, id, x);
  }

  lemma {:induction false} HandAllLosesNothing(s: State, links: map<nat, Link>, b: string, ds: seq<Delivery>, address: string, x: Delivery)
    requires Closing(s, links) && b in s.queues
    ensures Kept(HandAll(s, b, ds), links, address, x) == Kept(s, links, address, x) + (if b == address then multiset(ds)[x] else 0)
  {
    if ds != [] {
      var front, last := ds[..|ds| - 1], ds[|ds| - 1];
      HandAllLosesNothing(s, links, b, front, address, x);
      HandAllStays(s, b, front);
      HandOverLosesNothing(HandAll(s, b, front), links, b, last, address, x);
      CountLast(ds, x);
    }
  }

  lemma LeaveKept(s: State, links: map<nat, Link>, id: nat, pending: seq<Delivery>, address: string, x: Delivery)
    requires Closing(s, links) && id in s.subs && QueueOnly(s, address)
    ensures Kept(Unsubscribe(s.(channels := s.channels - {id}), id, pending), links - {id}, address, x) ==
      Kept(Removed(s, id), links - {id}, address, x) +
      (if links[id].address == address then multiset(Get(s.outstanding, id, []))[x] + multiset(pending)[x] else 0)
  {
    var s1, b, held := Removed(s, id), s.subs[id].address, Get(s.outstanding, id, []);
    UnsubscribeIs(s, id, pending);
    if s.subs[id].routing.Anycast? {
      HandAllLosesNothing(s1, links - {id}, b, held + pending, address, x);
      PruneKept(HandAll(s1, b, held + pending), links - {id}, b, address, x);
      assert multiset(held + pending)[x] == multiset(held)[x] + multiset(pending)[x];
    } else {
      PruneKept(s1, links - {id}, b, address, x);
    }
  }

  /** What the drained deliveries of the link that leaves come to. */
  lemma LeaveDrained(f: Halves, f': Halves, id: nat, address: string, x: Delivery)
    requires LinkInv(f.w) && id in f.closing && id in f.w.links && f' == LeaveStep(f, id)
    ensures Drained(f'.closing, f'.w.links, address, f.w.bus.nextId, x) + DrainedBy(f.closing, f.w.links, address, id, x) ==
      Drained(f.closing, f.w.links, address, f.w.bus.nextId, x)
  {
    DrainedChange(f.closing, f.w.links, f'.closing, f'.w.links, address, f.w.bus.nextId, id, x);
  }

  lemma LeaveAccount(f: Halves, f': Halves, id: nat, address: string, x: Delivery)
    requires HalfInv(f) && QueueOnly(f.w.bus, address) && id in f.closing && f' == LeaveStep(f, id)
    ensures BalancedHalf(f, f', LeaveRegistry(id), address, x)
  {
    LeaveDrained(f, f', id, address, x);
    RemovedKept(f.w.bus, f.w.links, id, Removed(f.w.bus, id), address, x);
    if id in f.w.bus.subs {
      LeaveKept(f.w.bus, f.w.links, id, f.closing[id], address, x);
      UnsubscribeLeaves(f.w.bus, f.w.links, id, f.closing[id]);
    } else {
      LateDetachKept(f.w.bus, f'.w.links, f'.w.bus, id, address, x);
    }
  }

  lemma DoBalanced(f: Halves, f': Halves, event: Event, address: string, x: Delivery)
    requires HalfInv(f) && QueueOnly(f.w.bus, address) && !event.Detach? && f' == f.(w := Step(f.w, event))
    ensures BalancedHalf(f, f', Do(event), address, x)
  {
    match event
    case Subscribe(b, routing, atMostOnce) => SubscribeAccount(f, f', b, routing, atMostOnce, address, x);
    case Publish(_, _, _, _) => PublishAccount(f, f', event, address, x);
    case Receive(id) => if CanReceive(f.w, id) { ReceiveAccount(f, f', id, address, x); }
    case Settle(h, kind) => if h in f.w.hands { SettleAccount(f, f', h, kind, address, x); }
    case DropHand(h) => if h in f.w.hands { DropAccount(f, f', h, address, x); }
    case Close => CloseAccount(f, f', address, x);
  }

  lemma CloseAccount(f: Halves, f': Halves, address: string, x: Delivery)
    requires f' == f.(w := f.w.(bus := Router.Close(f.w.bus)))
    ensures BalancedHalf(f, f', Do(Event.Close), address, x)
  {
    ClosedParts(f.w.bus, f.w.links, address, f.w.bus.nextId, x);
  }

  /** The account of any step of a run in which detaches come in halves. */
  lemma HalfStepBalanced(f: Halves, f': Halves, e: HalfEvent, address: string, x: Delivery)
    requires HalfInv(f) && QueueOnly(f.w.bus, address) && f' == HalfStep(f, e)
    ensures BalancedHalf(f, f', e, address, x)
  {
    match e
    case CloseLink(id) => if CanClose(f, id) { CloseLinkAccount(f, f', id, address, x); }
    case LeaveRegistry(id) => if id in f.closing { LeaveAccount(f, f', id, address, x); }
    case Do(event) => if !event.Detach? { DoBalanced(f, f', event, address, x); }
  }

  // -- Whole runs --------------------------------------------------------------------------------

  predicate OnlyQueues(events: seq<HalfEvent>, address: string) {
    forall i :: 0 <= i < |events| && events[i].Do? && events[i].event.Subscribe? && events[i].event.address == address ==>
      events[i].event.routing.Anycast?
  }

  function Entered(events: seq<HalfEvent>, address: string, x: Delivery): nat {
    if events == [] then 0
    else var front := events[..|events| - 1]; Entered(front, address, x) + EntersHalf(HalfRun(front), events[|events| - 1], address, x)
  }

  function LeftFor(events: seq<HalfEvent>, address: string, x: Delivery): nat {
    if events == [] then 0
    else var front := events[..|events| - 1]; LeftFor(front, address, x) + LeavesHalf(HalfRun(front), events[|events| - 1], address, x)
  }

  /** A registration that is new after a step is the one the step made. */
  predicate Registers(s: State, s': State, e: HalfEvent) {
    forall id :: id in s'.subs ==>
      if id in s.subs then s'.subs[id] == s.subs[id]
      else e.Do? && e.event.Subscribe? && s'.subs[id] == Subscription(e.event.address, e.event.routing)
  }

  lemma DoRegisters(w: World, w': World, event: Event)
    requires Valid(w.bus) && !event.Detach? && w' == Step(w, event)
    ensures Registers(w.bus, w'.bus, Do(event))
  {
    match event
    case Publish(b, payload, headers, replyId) => PublishRegisters(w.bus, b, Sent(w, payload, headers, replyId));
    case Settle(h, kind) => if h in w.hands { SettleRegisters(w, w', h, kind); }
    case DropHand(h) => if h in w.hands { DropRegisters(w, w', h); }
    case Subscribe(address, routing, atMostOnce) => SubscribeRegisters(w, w', address, routing, atMostOnce);
    case Receive(id) => if CanReceive(w, id) { ReceiveRegisters(w, w', id); }
    case Close =>
  }

  lemma ReceiveRegisters(w: World, w': World, id: nat)
    requires CanReceive(w, id) && w' == ReceiveStep(w, id)
    ensures w'.bus.subs == w.bus.subs
  {
    ReceivedBus(w, id, w.bus.(channels := w.bus.channels[id := w.bus.channels[id].(items := w.bus.channels[id].items[1..])]));
  }

  lemma ReceivedBus(w: World, id: nat, s': State)
    requires CanReceive(w, id) && s' == w.bus.(channels := w.bus.channels[id := w.bus.channels[id].(items := w.bus.channels[id].items[1..])])
    ensures ReceiveStep(w, id).bus == s'
  {
  }

  lemma SubscribeRegisters(w: World, w': World, address: string, routing: Routing, atMostOnce: bool)
    requires Valid(w.bus) && w' == SubscribeStep(w, address, routing, atMostOnce)
    ensures Registers(w.bus, w'.bus, Do(Event.Subscribe(address, routing, atMostOnce)))
  {
  }

  lemma SettleRegisters(w: World, w': World, h: nat, kind: Kind)
    requires h in w.hands && w' == SettleStep(w, h, kind)
    ensures w'.bus.subs == w.bus.subs
  {
    HandOverStays(w.bus, w.hands[h].address, Bump(w.hands[h].delivery));
  }

  lemma DropRegisters(w: World, w': World, h: nat)
    requires h in w.hands && w' == DropStep(w, h)
    ensures w'.bus.subs == w.bus.subs
  {
    HandOverStays(w.bus, w.hands[h].address, w.hands[h].delivery);
  }

  lemma PublishRegisters(s: State, b: string, d: Delivery)
    ensures PublishOne(s, b, d).subs == s.subs
  {
    HandOverStays(Copy(Note(s, b, d), b, d), b, d);
  }

  lemma HalfStepRegisters(f: Halves, f': Halves, e: HalfEvent)
    requires HalfInv(f) && f' == HalfStep(f, e)
    ensures Registers(f.w.bus, f'.w.bus, e)
  {
    match e
    case CloseLink(_) =>
    case LeaveRegistry(id) => if id in f.closing && id in f.w.bus.subs { UnsubscribeLeaves(f.w.bus, f.w.links, id, f.closing[id]); }
    case Do(event) => if !event.Detach? { DoRegisters(f.w, f'.w, event); }
  }

  lemma {:induction false} HalfRunQueueOnly(events: seq<HalfEvent>, address: string)
    requires OnlyQueues(events, address)
    ensures QueueOnly(HalfRun(events).w.bus, address)
  {
    if events != [] {
      var front, last := events[..|events| - 1], events[|events| - 1];
      assert forall i :: 0 <= i < |front| ==> front[i] == events[i];
      HalfRunQueueOnly(front, address);
      HalfRunKeeps(front);
      HalfStepRegisters(HalfRun(front), HalfRun(events), last);
    }
  }

  lemma {:induction false} NothingAtFirst(address: string, n: nat, x: Delivery)
    ensures Parts(Fresh(), map[], address, n, x) == 0 && InHands(map[], address, n, x) == 0 && Drained(map[], map[], address, n, x) == 0
  {
    if n > 0 {
      NothingAtFirst(address, n - 1, x);
    }
  }

  /** Conservation with detaches in halves. For every run, every address that only queue subscriptions
      attach to and every delivery: what came in is held somewhere, drained links included, or has left.
      A return into a closing link leaves like a settlement and does not come in. */
  lemma {:induction false} HalvesConserve(events: seq<HalfEvent>, address: string, x: Delivery)
    requires OnlyQueues(events, address)
    ensures HeldHalf(HalfRun(events), address, x) + LeftFor(events, address, x) == Entered(events, address, x)
  {
    if events == [] {
      NothingAtFirst(address, 0, x);
    } else {
      var front, last := events[..|events| - 1], events[|events| - 1];
      assert forall i :: 0 <= i < |front| ==> front[i] == events[i];
      HalvesConserve(front, address, x);
      HalfRunQueueOnly(front, address);
      HalfRunKeeps(front);
      HalfStepBalanced(HalfRun(front), HalfRun(events), last, address, x);
    }
  }

  // -- Whole detaches ----------------------------------------------------------------------------

  /** The same events, each detach as its two halves. */
  function Halved(events: seq<Event>): seq<HalfEvent> {
    if events == [] then []
    else
      var last := events[|events| - 1];
      Halved(events[..|events| - 1]) + if last.Detach? then [CloseLink(last.id)] + [LeaveRegistry(last.id)] else [Do(last)]
  }

  lemma HalfRunOn(events: seq<HalfEvent>, e: HalfEvent)
    ensures HalfRun(events + [e]) == HalfStep(HalfRun(events), e)
  {
    assert (events + [e])[..|events|] == events;
  }

  /** The two halves of a detach with nothing in between are the whole detach. */
  lemma TwoHalves(f: Halves, id: nat)
    requires HalfInv(f) && f.closing == map[]
    ensures HalfStep(HalfStep(f, CloseLink(id)), LeaveRegistry(id)) == f.(w := Step(f.w, Event.Detach(id)))
  {
    if id in f.w.links {
      var closed := CloseLinkStep(f, id);
      assert closed.closing - {id} == map[];
      assert closed.w.bus.channels - {id} == f.w.bus.channels - {id};
    }
  }

  /** So every run of whole detaches is one of these runs. */
  lemma {:induction false} WholeRunsAreHalved(events: seq<Event>)
    ensures HalfRun(Halved(events)) == Halves(Run(events), map[])
  {
    if events != [] {
      var front, last := events[..|events| - 1], events[|events| - 1];
      WholeRunsAreHalved(front);
      HalfRunKeeps(Halved(front));
      if last.Detach? {
        TwoHalves(HalfRun(Halved(front)), last.id);
        HalfRunOn(Halved(front), CloseLink(last.id));
        HalfRunOn(Halved(front) + [CloseLink(last.id)], LeaveRegistry(last.id));
        assert Halved(events) == Halved(front) + [CloseLink(last.id)] + [LeaveRegistry(last.id)];
      } else {
        HalfRunOn(Halved(front), Do(last));
      }
    }
  }
}
