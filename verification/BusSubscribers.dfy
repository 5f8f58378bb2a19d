/** Who is attached and who holds what, read off the events of a run; and what a topic subscription gets:
    every message of its address while it is attached, in order. */
module BusSubscribers {
  import opened Common
  import opened Router
  import opened BusWorld
  import opened BusConservation
  import opened BusDetachRuns

  // -- Attached subscriptions --------------------------------------------------------------------

  function Subscribes(events: seq<Event>): nat {
    if events == [] then 0 else Subscribes(events[..|events| - 1]) + One(events[|events| - 1].Subscribe?)
  }

  predicate Shut(events: seq<Event>) {
    events != [] && (Shut(events[..|events| - 1]) || events[|events| - 1].Close?)
  }

  /** The subscription with this number: attached by its `Subscribe`, on an open transport, until its link
      detaches or the transport closes. */
  function Attachment(events: seq<Event>, id: nat): Option<Subscription> {
    if events == [] then None
    else
      var front, last := events[..|events| - 1], events[|events| - 1];
      match last
      case Subscribe(address, routing, _) =>
        if Subscribes(front) == id && !Shut(front) then Some(Subscription(address, routing)) else Attachment(front, id)
      case Detach(k) => if k == id then None else Attachment(front, id)
      case Close => None
      case _ => Attachment(front, id)
  }

  function AttachedAs(s: State, id: nat): Option<Subscription> {
    if id in s.subs then Some(s.subs[id]) else None
  }

  lemma {:induction false} NotYetAttached(events: seq<Event>, id: nat)
    requires id >= Subscribes(events)
    ensures Attachment(events, id) == None
  {
    if events != [] {
      NotYetAttached(events[..|events| - 1], id);
    }
  }

  lemma QuietSubs(w: World, w': World, e: Event)
    requires (e.Publish? || e.Receive? || e.Settle? || e.DropHand?) && w' == Step(w, e)
    ensures w'.bus.subs == w.bus.subs
  {
    match e
    case Publish(b, payload, headers, replyId) => PublishRegisters(w.bus, b, Sent(w, payload, headers, replyId));
    case Settle(h, kind) => if h in w.hands { SettleRegisters(w, w', h, kind); }
    case DropHand(h) => if h in w.hands { DropRegisters(w, w', h); }
    case Receive(id) => if CanReceive(w, id) { ReceiveRegisters(w, w', id); }
  }

  lemma SubscribeSubs(w: World, address: string, routing: Routing, atMostOnce: bool, id: nat)
    requires Inv(w)
    ensures AttachedAs(SubscribeStep(w, address, routing, atMostOnce).bus, id) ==
      if w.bus.nextId == id && !w.bus.closed then Some(Subscription(address, routing)) else AttachedAs(w.bus, id)
  {
  }

  lemma DetachSubs(w: World, k: nat, id: nat)
    requires Inv(w)
    ensures AttachedAs(Step(w, Event.Detach(k)).bus, id) == if k == id then None else AttachedAs(w.bus, id)
  {
    if k in w.links {
      DetachAttaches(w, k, DetachStep(w, k).bus);
    }
  }

  /** In every run a subscription is in the registry, with its address and routing, exactly from its
      subscribe on an open transport to its detach or to the close. */
  lemma {:induction false} AttachedExactly(events: seq<Event>, id: nat)
    ensures var s := Run(events).bus;
      && AttachedAs(s, id) == Attachment(events, id) && s.nextId == Subscribes(events) && s.closed == Shut(events)
  {
    if events != [] {
      var front, last := events[..|events| - 1], events[|events| - 1];
      AttachedExactly(front, id);
      RunKeeps(front);
      StepAttaches(Run(front), last);
      match last
      case Subscribe(address, routing, atMostOnce) => SubscribeSubs(Run(front), address, routing, atMostOnce, id);
      case Detach(k) => DetachSubs(Run(front), k, id);
      case Close =>
      case _ => QuietSubs(Run(front), Run(events), last);
    }
  }

  // -- What consumers hold -----------------------------------------------------------------------

  /** The receive puts a delivery into a consumer's hands: the oldest of the channel, on a link that is not
      at-most-once. */
  predicate HandsOut(w: World, e: Event) {
    e.Receive? && e.id in w.links && Unread(w, e.id) != [] && !w.links[e.id].atMostOnce
  }

  function HandedOut(events: seq<Event>): nat {
    if events == [] then 0
    else var front := events[..|events| - 1]; HandedOut(front) + One(HandsOut(Run(front), events[|events| - 1]))
  }

  /** What is in hand number `h`: from its receive until it is settled or dropped. */
  function InHandOf(events: seq<Event>, h: nat): Option<Hand> {
    if events == [] then None
    else
      var front, last := events[..|events| - 1], events[|events| - 1];
      var w := Run(front);
      if HandsOut(w, last) && HandedOut(front) == h then Some(Hand(last.id, w.links[last.id].address, w.bus.channels[last.id].items[0]))
      else if (last.Settle? && last.hand == h) || (last.DropHand? && last.hand == h) then None
      else InHandOf(front, h)
  }

  function HeldAs(w: World, h: nat): Option<Hand> {
    if h in w.hands then Some(w.hands[h]) else None
  }

  lemma StepHands(w: World, e: Event, h: nat)
    requires LinkInv(w)
    ensures var w' := Step(w, e);
      && w'.nextHand == w.nextHand + One(HandsOut(w, e))
      && HeldAs(w', h) ==
           if HandsOut(w, e) && w.nextHand == h then Some(Hand(e.id, w.links[e.id].address, w.bus.channels[e.id].items[0]))
           else if (e.Settle? && e.hand == h) || (e.DropHand? && e.hand == h) then None
           else HeldAs(w, h)
  {
    match e
    case Settle(k, kind) =>
    case DropHand(k) =>
    case Receive(id) =>
    case _ =>
  }

  /** In every run a consumer holds exactly what it received and has neither settled nor dropped. */
  lemma {:induction false} HandsExactly(events: seq<Event>, h: nat)
    ensures HeldAs(Run(events), h) == InHandOf(events, h) && Run(events).nextHand == HandedOut(events)
  {
    if events != [] {
      var front := events[..|events| - 1];
      HandsExactly(front, h);
      RunKeeps(front);
      StepHands(Run(front), events[|events| - 1], h);
    }
  }

  // -- Topic subscriptions -----------------------------------------------------------------------

  /** What a topic subscription is sent in one step: a copy of each message published to its address, and
      its own deliveries that are returned to it. */
  function SentTo(w: World, e: Event, id: nat, address: string): seq<Delivery> {
    match e
    case Publish(b, payload, headers, replyId) => if b == address then [Sent(w, payload, headers, replyId)] else []
    case Settle(h, kind) => if Returns(w, h, kind) && w.hands[h].id == id then [Bump(w.hands[h].delivery)] else []
    case _ => []
  }

  /** All it was sent while it was attached, in order. */
  function Sends(events: seq<Event>, id: nat): seq<Delivery> {
    if events == [] then []
    else
      var front := events[..|events| - 1];
      Sends(front, id) +
      match Attachment(front, id)
      case Some(sub) => SentTo(Run(front), events[|events| - 1], id, sub.address)
      case None => []
  }

  /** What is read from it in one step. */
  function ReadBy(w: World, e: Event, id: nat): seq<Delivery> {
    if e == Receive(id) && id in w.links && Unread(w, id) != [] then [Unread(w, id)[0]] else []
  }

  /** All that was read from it, in order. */
  function Reads(events: seq<Event>, id: nat): seq<Delivery> {
    if events == [] then []
    else
      var front, last := events[..|events| - 1], events[|events| - 1];
      Reads(front, id) + ReadBy(Run(front), last, id)
  }

  predicate Topic(s: State, id: nat, address: string) {
    id in s.subs && s.subs[id] == Subscription(address, Multicast)
  }

  /** A hand-over leaves topic subscriptions alone. */
  lemma HandOverPassesTopics(s: State, b: string, d: Delivery, id: nat, address: string)
    requires Valid(s) && (forall k :: k in s.subs ==> Takes(s, k)) && Topic(s, id, address)
    ensures id in HandToOne(s, b, d).channels && HandToOne(s, b, d).channels[id] == s.channels[id]
  {
    var k := HandOverLands(s, b, d);
  }

  lemma PublishTopic(w: World, w': World, e: Event, id: nat, address: string)
    requires Inv(w) && Topic(w.bus, id, address) && e.Publish? && !w.bus.closed && w' == Step(w, e)
    ensures Unread(w', id) == Unread(w, id) + SentTo(w, e, id, address)
  {
    var d := Sent(w, e.payload, e.headers, e.replyId);
    var s1 := Copy(Note(w.bus, e.address, d), e.address, d);
    HandOverPassesTopics(s1, e.address, d, id, address);
  }

  lemma SettleTopic(w: World, w': World, h: nat, kind: Kind, id: nat, address: string)
    requires Inv(w) && Topic(w.bus, id, address) && h in w.hands && w' == SettleStep(w, h, kind)
    ensures Unread(w', id) == Unread(w, id) + SentTo(w, Settle(h, kind), id, address)
  {
    if Returns(w, h, kind) && w.hands[h].id !in w.bus.subs {
      HandOverPassesTopics(w.bus, w.hands[h].address, Bump(w.hands[h].delivery), id, address);
    }
  }

  lemma DropTopic(w: World, w': World, h: nat, id: nat, address: string)
    requires Inv(w) && Topic(w.bus, id, address) && h in w.hands && w' == DropStep(w, h)
    ensures Unread(w', id) == Unread(w, id)
  {
    if !w.bus.closed && w.hands[h].id !in w.bus.subs {
      HandOverPassesTopics(w.bus, w.hands[h].address, w.hands[h].delivery, id, address);
    }
  }

  lemma HandAllPassesTopics(s: State, b: string, ds: seq<Delivery>, id: nat, address: string)
    requires Valid(s) && (forall k :: k in s.subs ==> Takes(s, k)) && b in s.queues && Topic(s, id, address)
    ensures id in HandAll(s, b, ds).channels && HandAll(s, b, ds).channels[id] == s.channels[id]
  {
    HandAllKeeps(s, b, ds);
  }

  lemma PruneChannels(s: State, b: string)
    ensures Prune(s, b).channels == s.channels
  {
  }

  lemma UnsubscribePassesTopics(s: State, k: nat, pending: seq<Delivery>, id: nat, address: string)
    requires BusInv(s) && k in s.subs && k != id && Topic(s, id, address)
    ensures var s' := Unsubscribe(s.(channels := s.channels - {k}), k, pending);
      id in s'.channels && s'.channels[id] == s.channels[id]
  {
    var sub, s1, back := s.subs[k], Removed(s, k), Get(s.outstanding, k, []) + pending;
    UnsubscribeIs(s, k, pending);
    RemovedKeeps(s, k);
    if sub.routing.Anycast? {
      HandAllPassesTopics(s1, sub.address, back, id, address);
      PruneChannels(HandAll(s1, sub.address, back), sub.address);
    } else {
      PruneChannels(s1, sub.address);
    }
  }

  lemma DetachTopic(w: World, w': World, k: nat, id: nat, address: string)
    requires Inv(w) && Topic(w.bus, id, address) && k in w.links && k != id && w' == DetachStep(w, k)
    ensures Unread(w', id) == Unread(w, id)
  {
    if k in w.bus.subs {
      UnsubscribePassesTopics(w.bus, k, if w.links[k].atMostOnce then [] else Unread(w, k), id, address);
    }
  }

  lemma StepTopic(w: World, w': World, e: Event, id: nat, address: string)
    requires Inv(w) && Topic(w.bus, id, address) && !e.Close? && e != Event.Detach(id) && !w.bus.closed && w' == Step(w, e)
    ensures ReadBy(w, e, id) + Unread(w', id) == Unread(w, id) + SentTo(w, e, id, address)
  {
    assert [] + Unread(w', id) == Unread(w', id) && Unread(w, id) + [] == Unread(w, id);
    match e
    case Publish(_, _, _, _) => PublishTopic(w, w', e, id, address);
    case Settle(h, kind) => if h in w.hands { SettleTopic(w, w', h, kind, id, address); }
    case DropHand(h) => if h in w.hands { DropTopic(w, w', h, id, address); }
    case Detach(k) => if k in w.links { DetachTopic(w, w', k, id, address); }
    case Receive(k) => if CanReceive(w, k) { ReceiveTopic(w, w', k, id, address); }
    case Subscribe(b, routing, atMostOnce) =>
  }

  lemma ReceiveTopic(w: World, w': World, k: nat, id: nat, address: string)
    requires LinkInv(w) && Topic(w.bus, id, address) && CanReceive(w, k) && w' == ReceiveStep(w, k)
    ensures ReadBy(w, Receive(k), id) + Unread(w', id) == Unread(w, id)
  {
    var items := w.bus.channels[k].items;
    var s' := w.bus.(channels := w.bus.channels[k := w.bus.channels[k].(items := items[1..])]);
    ReceivedBus(w, k, s');
    assert [] + Unread(w', id) == Unread(w', id) && [items[0]] + items[1..] == items;
  }

  lemma {:induction false} NothingBefore(events: seq<Event>, id: nat)
    requires id >= Subscribes(events)
    ensures Sends(events, id) == [] && Reads(events, id) == []
  {
    if events != [] {
      var front := events[..|events| - 1];
      NothingBefore(front, id);
      NotYetAttached(front, id);
      AttachedExactly(front, id);
      RunKeeps(front);
    }
  }

  lemma Regroup(got: seq<Delivery>, all: seq<Delivery>, unread: seq<Delivery>, unread': seq<Delivery>, next: seq<Delivery>, more: seq<Delivery>)
    requires got + unread == all && next + unread' == unread + more
    ensures (got + next) + unread' == all + more
  {
    assert (got + next) + unread' == got + (next + unread');
    assert (got + unread) + more == got + (unread + more);
  }

  lemma {:induction false} AttachedIsOpen(events: seq<Event>, id: nat)
    requires Attachment(events, id).Some?
    ensures !Shut(events)
  {
    var front := events[..|events| - 1];
    if Attachment(front, id).Some? {
      AttachedIsOpen(front, id);
    }
  }

  lemma TopicOneMore(front: seq<Event>, last: Event, id: nat, address: string)
    requires var sub := Some(Subscription(address, Multicast)); Attachment(front, id) == sub && Attachment(front + [last], id) == sub
    requires Reads(front, id) + Unread(Run(front), id) == Sends(front, id)
    ensures Reads(front + [last], id) + Unread(Run(front + [last]), id) == Sends(front + [last], id)
  {
    var w, w' := Run(front), Run(front + [last]);
    assert (front + [last])[..|front|] == front;
    AttachedExactly(front, id);
    AttachedIsOpen(front, id);
    RunKeeps(front);
    StepTopic(w, w', last, id, address);
    Regroup(Reads(front, id), Sends(front, id), Unread(w, id), Unread(w', id), ReadBy(w, last, id), SentTo(w, last, id, address));
  }

  /** In every run a topic subscription, while it is attached, has been sent every message published to its
      address since it subscribed, and what was returned to it, each once and in order: what was read from
      it, followed by what waits. */
  lemma {:induction false} TopicGetsEverything(events: seq<Event>, id: nat, address: string)
    requires Attachment(events, id) == Some(Subscription(address, Multicast))
    ensures Reads(events, id) + Unread(Run(events), id) == Sends(events, id)
  {
    var front, last := events[..|events| - 1], events[|events| - 1];
    assert front + [last] == events;
    if Attachment(front, id).Some? {
      AttachedOnce(front, last, id);
      TopicGetsEverything(front, id, address);
      TopicOneMore(front, last, id, address);
    } else {
      TopicStarts(front, last, id, address);
    }
  }

  lemma TopicStarts(front: seq<Event>, last: Event, id: nat, address: string)
    requires Attachment(front, id).None? && Attachment(front + [last], id) == Some(Subscription(address, Multicast))
    ensures Reads(front + [last], id) + Unread(Run(front + [last]), id) == Sends(front + [last], id)
  {
    assert (front + [last])[..|front|] == front;
    AttachedExactly(front, id);
    RunKeeps(front);
    NothingBefore(front, id);
  }

  lemma AttachedOnce(front: seq<Event>, last: Event, id: nat)
    requires Attachment(front, id).Some? && Attachment(front + [last], id).Some?
    ensures Attachment(front + [last], id) == Attachment(front, id)
  {
    assert (front + [last])[..|front|] == front;
    if id >= Subscribes(front) { NotYetAttached(front, id); }
  }
}
