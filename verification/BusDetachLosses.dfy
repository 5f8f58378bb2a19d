/** Runs, event by event, in which a detach costs a delivery or brings it twice. */
module BusDetachLosses {
  import opened Common
  import opened Message
  import opened Router
  import opened RouterTurns
  import opened BusWorld
  import opened BusDetach
  import opened BusDetachRuns

  lemma RunOn(events: seq<Event>, e: Event)
    ensures Run(events + [e]) == Step(Run(events), e)
  {
    assert (events + [e])[..|events|] == events;
  }

  /** A message published to `address`, the first of its run. */
  datatype Sample = Sample(address: string, payload: Bytes, headers: Headers, replyId: ReplyId)

  function First(m: Sample): Delivery {
    Delivery(0, m.payload, m.headers, None, m.replyId)
  }

  function Publishing(m: Sample): Event {
    Event.Publish(m.address, m.payload, m.headers, m.replyId)
  }

  function Subscribing(m: Sample, routing: Routing): Event {
    Event.Subscribe(m.address, routing, false)
  }

  // -- One queue consumer ------------------------------------------------------------------------

  /** A consumer subscribes, a message is published, and the consumer takes it. */
  function TakesOne(m: Sample): seq<Event> {
    [Subscribing(m, Anycast)] + [Publishing(m)] + [Receive(0)]
  }

  lemma OneCompetitor(s: State, address: string)
    requires s.nextId == 1 && 0 in s.subs && s.subs[0] == Subscription(address, Anycast)
    ensures Competing(s, address, s.nextId) == [0]
  {
    assert Competing(s, address, 0) == [];
  }

  function OneConsumer(m: Sample, items: seq<Delivery>): State {
    Fresh().(subs := map[0 := Subscription(m.address, Anycast)], channels := map[0 := Channel(true, items)],
             queues := map[m.address := []], nextId := 1)
  }

  /** The registry but for the log and the turns, which no loss depends on. */
  function Bare(s: State): State {
    s.(log := map[], turn := map[])
  }

  lemma SubscribedOne(m: Sample)
    ensures Run([Subscribing(m, Anycast)]) == Start().(bus := OneConsumer(m, []), links := map[0 := Link(m.address, false)])
  {
    RunOn([], Subscribing(m, Anycast));
    assert [] + [Subscribing(m, Anycast)] == [Subscribing(m, Anycast)];
  }

  lemma PublishedOne(m: Sample)
    ensures Bare(PublishOne(OneConsumer(m, []), m.address, First(m))) == OneConsumer(m, [First(m)])
  {
    var s := Copy(Note(OneConsumer(m, []), m.address, First(m)), m.address, First(m));
    assert s.channels == map[0 := Channel(true, [])];
    OneCompetitor(s, m.address);
    HandOverInTurn(s, m.address, First(m));
    assert [] + [First(m)] == [First(m)];
  }

  lemma OneTaken(w: World, m: Sample)
    requires Bare(w.bus) == OneConsumer(m, [First(m)]) && w.links == map[0 := Link(m.address, false)]
    requires w.hands == map[] && w.nextHand == 0
    ensures var w' := Step(w, Receive(0));
      Bare(w'.bus) == OneConsumer(m, []) && w'.links == w.links && w'.hands == map[0 := Hand(0, m.address, First(m))] && w'.modified == w.modified
  {
    var s := w.bus;
    assert s.channels[0].items == [First(m)];
    var s' := s.(channels := s.channels[0 := Channel(true, [])]);
    assert [First(m)][1..] == [] && Step(w, Receive(0)).bus == s';
    assert s'.channels == map[0 := Channel(true, [])];
    assert Bare(s') == OneConsumer(m, []);
  }

  lemma TookOne(m: Sample)
    ensures var w := Run(TakesOne(m));
      && Bare(w.bus) == OneConsumer(m, []) && w.links == map[0 := Link(m.address, false)]
      && w.hands == map[0 := Hand(0, m.address, First(m))] && w.modified == map[]
  {
    SubscribedOne(m);
    RunOn([Subscribing(m, Anycast)], Publishing(m));
    PublishedOne(m);
    RunOn([Subscribing(m, Anycast)] + [Publishing(m)], Receive(0));
    OneTaken(Run([Subscribing(m, Anycast)] + [Publishing(m)]), m);
  }

  /** Nothing is attached and nothing is held. */
  predicate Empty(s: State) {
    s.subs == map[] && s.channels == map[] && s.queues == map[] && s.outstanding == map[] && !s.closed
  }

  /** The consumer's link leaves the registry with nothing unread, and its empty queue goes with it. */
  lemma LastLeaves(s: State, m: Sample, open: bool)
    requires Bare(s) == OneConsumer(m, []).(channels := map[0 := Channel(open, [])])
    ensures Empty(Unsubscribe(s.(channels := s.channels - {0}), 0, []))
  {
    var s1 := Removed(s, 0);
    UnsubscribeIs(s, 0, []);
    assert s.subs[0] == Subscription(m.address, Anycast) && Get(s.outstanding, 0, []) + [] == [];
    NoCompetitor(s1, m.address, s1.nextId);
    assert s1.subs == map[] && s1.channels == map[];
  }

  /** A consumer takes a delivery, its link starts to detach, the handler returns the delivery meanwhile,
      and the detach completes. */
  function ReturnsWhileClosing(m: Sample): seq<HalfEvent> {
    Halved(TakesOne(m)) + [CloseLink(0)] + [Do(Settle(0, Modify))] + [LeaveRegistry(0)]
  }

  lemma LinkCloses(f: Halves, m: Sample)
    requires Bare(f.w.bus) == OneConsumer(m, []) && f.w.links == map[0 := Link(m.address, false)] && f.closing == map[]
    ensures var f' := HalfStep(f, CloseLink(0));
      && Bare(f'.w.bus) == OneConsumer(m, []).(channels := map[0 := Channel(false, [])])
      && f'.w.hands == f.w.hands && f'.w.modified == f.w.modified && f'.closing == map[0 := []]
  {
  }

  lemma LinkLeaves(f: Halves, m: Sample)
    requires Bare(f.w.bus) == OneConsumer(m, []).(channels := map[0 := Channel(false, [])]) && f.closing == map[0 := []]
    ensures var f' := HalfStep(f, LeaveRegistry(0));
      Empty(f'.w.bus) && f'.w.hands == f.w.hands && f'.w.modified == f.w.modified && f'.closing == map[]
  {
    LastLeaves(f.w.bus, m, false);
    assert f.closing - {0} == map[];
  }

  lemma ReturnedIntoClosing(f: Halves, m: Sample)
    requires Bare(f.w.bus) == OneConsumer(m, []).(channels := map[0 := Channel(false, [])])
    requires f.w.hands == map[0 := Hand(0, m.address, First(m))] && f.w.modified == map[]
    ensures HalfStep(f, Do(Settle(0, Modify))) == f.(w := f.w.(hands := map[], modified := map[(m.address, 0) := 1]))
  {
    assert f.w.hands - {0} == map[];
    assert f.w.bus.channels[0 := f.w.bus.channels[0]] == f.w.bus.channels;
  }

  /** The return goes through, and in the end nothing holds the delivery. */
  lemma ReturnIntoAClosingLinkIsLost(m: Sample)
    ensures var f := HalfRun(ReturnsWhileClosing(m));
      f.w.modified == map[(m.address, 0) := 1] && Empty(f.w.bus) && f.w.hands == map[] && f.closing == map[]
  {
    var taken := Halved(TakesOne(m));
    var closing := taken + [CloseLink(0)];
    TookOne(m);
    WholeRunsAreHalved(TakesOne(m));
    HalfRunOn(taken, CloseLink(0));
    HalfRunOn(closing, Do(Settle(0, Modify)));
    HalfRunOn(closing + [Do(Settle(0, Modify))], LeaveRegistry(0));
    LinkCloses(HalfRun(taken), m);
    ReturnedIntoClosing(HalfRun(closing), m);
    LinkLeaves(HalfRun(closing + [Do(Settle(0, Modify))]), m);
  }

  lemma LastDetaches(w: World, m: Sample)
    requires Bare(w.bus) == OneConsumer(m, []) && w.links == map[0 := Link(m.address, false)]
    ensures Empty(Step(w, Event.Detach(0)).bus) && Step(w, Event.Detach(0)).hands == w.hands
  {
    LastLeaves(w.bus, m, true);
  }

  /** A consumer takes the only delivery, its subscription detaches, and then the handler drops it. */
  function DropsLate(m: Sample): seq<Event> {
    TakesOne(m) + [Event.Detach(0)] + [DropHand(0)]
  }

  lemma DroppedIntoNothing(w: World, address: string, d: Delivery)
    requires Empty(w.bus) && w.hands == map[0 := Hand(0, address, d)]
    ensures Step(w, DropHand(0)).bus == w.bus && Step(w, DropHand(0)).hands == map[]
  {
    NoCompetitor(w.bus, address, w.bus.nextId);
    assert w.hands - {0} == map[];
  }

  /** The empty queue went with the subscription, so in the end nothing holds the delivery. */
  lemma LateDropIsLost(m: Sample)
    ensures var w := Run(DropsLate(m)); Empty(w.bus) && w.hands == map[]
  {
    var w := Run(TakesOne(m));
    TookOne(m);
    RunOn(TakesOne(m), Event.Detach(0));
    RunOn(TakesOne(m) + [Event.Detach(0)], DropHand(0));
    LastDetaches(w, m);
    DroppedIntoNothing(Step(w, Event.Detach(0)), m.address, First(m));
  }

  // -- A topic consumer and a queue consumer -----------------------------------------------------

  /** Both subscribe, a message is published, and the topic consumer takes its copy. */
  function TakesACopy(m: Sample): seq<Event> {
    [Subscribing(m, Multicast)] + [Subscribing(m, Anycast)] + [Publishing(m)] + [Receive(0)]
  }

  function TwoConsumers(m: Sample, topic: seq<Delivery>, queue: seq<Delivery>): State {
    Fresh().(subs := map[0 := Subscription(m.address, Multicast), 1 := Subscription(m.address, Anycast)],
             channels := map[0 := Channel(true, topic), 1 := Channel(true, queue)],
             queues := map[m.address := []], nextId := 2)
  }

  function TwoLinks(m: Sample): map<nat, Link> {
    map[0 := Link(m.address, false), 1 := Link(m.address, false)]
  }

  lemma SecondCompetes(s: State, address: string)
    requires s.nextId == 2 && !Competes(s, 0, address)
    requires 1 in s.subs && s.subs[1] == Subscription(address, Anycast)
    ensures Competing(s, address, s.nextId) == [1]
  {
    assert Competing(s, address, 0) == [] && Competing(s, address, 1) == [];
  }

  lemma SubscribedTwo(m: Sample)
    ensures Run([Subscribing(m, Multicast)] + [Subscribing(m, Anycast)]) == Start().(bus := TwoConsumers(m, [], []), links := TwoLinks(m))
  {
    RunOn([], Subscribing(m, Multicast));
    assert [] + [Subscribing(m, Multicast)] == [Subscribing(m, Multicast)];
    RunOn([Subscribing(m, Multicast)], Subscribing(m, Anycast));
    var s := Router.Subscribe(Fresh(), m.address, Multicast);
    assert Router.Subscribe(s, m.address, Anycast) == TwoConsumers(m, [], []);
  }

  lemma PublishedTwo(m: Sample)
    ensures Bare(PublishOne(TwoConsumers(m, [], []), m.address, First(m))) == TwoConsumers(m, [First(m)], [First(m)])
  {
    var s := Copy(Note(TwoConsumers(m, [], []), m.address, First(m)), m.address, First(m));
    assert [] + [First(m)] == [First(m)];
    assert s.channels == map[0 := Channel(true, [First(m)]), 1 := Channel(true, [])];
    SecondCompetes(s, m.address);
    HandOverInTurn(s, m.address, First(m));
  }

  lemma CopyTaken(w: World, m: Sample)
    requires Bare(w.bus) == TwoConsumers(m, [First(m)], [First(m)]) && w.links == TwoLinks(m)
    requires w.hands == map[] && w.nextHand == 0
    ensures var w' := Step(w, Receive(0));
      Bare(w'.bus) == TwoConsumers(m, [], [First(m)]) && w'.links == w.links && w'.hands == map[0 := Hand(0, m.address, First(m))]
  {
    var s := w.bus;
    assert s.channels[0].items == [First(m)];
    var s' := s.(channels := s.channels[0 := Channel(true, [])]);
    assert [First(m)][1..] == [] && Step(w, Receive(0)).bus == s';
    assert s'.channels == map[0 := Channel(true, []), 1 := Channel(true, [First(m)])];
    assert Bare(s') == TwoConsumers(m, [], [First(m)]);
  }

  lemma TookACopy(m: Sample)
    ensures var w := Run(TakesACopy(m));
      Bare(w.bus) == TwoConsumers(m, [], [First(m)]) && w.links == TwoLinks(m) && w.hands == map[0 := Hand(0, m.address, First(m))]
  {
    var subscribed := [Subscribing(m, Multicast)] + [Subscribing(m, Anycast)];
    SubscribedTwo(m);
    RunOn(subscribed, Publishing(m));
    PublishedTwo(m);
    RunOn(subscribed + [Publishing(m)], Receive(0));
    CopyTaken(Run(subscribed + [Publishing(m)]), m);
  }

  /** The topic subscription detaches. */
  lemma TopicLeaves(s: State, m: Sample)
    requires Bare(s) == TwoConsumers(m, [], [First(m)])
    ensures var s' := Unsubscribe(s.(channels := s.channels - {0}), 0, []);
      s'.subs == map[1 := Subscription(m.address, Anycast)] && s'.channels == map[1 := Channel(true, [First(m)])] && !s'.closed
  {
    var s1 := Removed(s, 0);
    UnsubscribeIs(s, 0, []);
    assert s.subs[0] == Subscription(m.address, Multicast);
    assert s1.subs == map[1 := Subscription(m.address, Anycast)] && s1.channels == map[1 := Channel(true, [First(m)])];
    SecondCompetes(s1, m.address);
  }

  lemma TopicDetaches(w: World, m: Sample)
    requires Bare(w.bus) == TwoConsumers(m, [], [First(m)]) && w.links == TwoLinks(m)
    ensures var w' := Step(w, Event.Detach(0));
      && w'.bus.subs == map[1 := Subscription(m.address, Anycast)] && Unread(w', 1) == [First(m)] && !w'.bus.closed
      && w'.hands == w.hands
  {
    TopicLeaves(w.bus, m);
  }

  /** The queue consumer has the message unread, and the handler drops the topic consumer's copy. */
  lemma CopyJoins(w: World, m: Sample)
    requires Inv(w) && w.bus.subs == map[1 := Subscription(m.address, Anycast)] && Unread(w, 1) == [First(m)] && !w.bus.closed
    requires w.hands == map[0 := Hand(0, m.address, First(m))]
    ensures Unread(Step(w, DropHand(0)), 1) == [First(m), First(m)]
  {
    TopicCopyHandedBackIsASecondDelivery(w, m.address, 0, 1);
  }

  /** The topic consumer takes its copy, its subscription detaches, and then the handler drops the copy. */
  function DropsACopyLate(m: Sample): seq<Event> {
    TakesACopy(m) + [Event.Detach(0)] + [DropHand(0)]
  }

  /** One publish, and the queue consumer has it twice. */
  lemma TopicCopyIsDeliveredTwice(m: Sample)
    ensures Unread(Run(DropsACopyLate(m)), 1) == [First(m), First(m)]
  {
    var events := TakesACopy(m) + [Event.Detach(0)];
    TookACopy(m);
    RunOn(TakesACopy(m), Event.Detach(0));
    RunOn(events, DropHand(0));
    TopicDetaches(Run(TakesACopy(m)), m);
    RunKeeps(events);
    CopyJoins(Run(events), m);
  }
}
