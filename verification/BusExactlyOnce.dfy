/** Delivery conservation over whole runs of the in-process broker, on an address that only queue
    subscriptions attach to: each delivery it accepted is in one place or has left once, and wherever
    it is, it is what was published, with one counted attempt for each `modified` return. */
module BusExactlyOnce {
  import opened Common
  import opened Router
  import opened BusWorld
  import opened BusConservation

  /** Every subscription the run attaches to the address is a queue one. */
  predicate OnlyQueues(events: seq<Event>, address: string) {
    forall i :: 0 <= i < |events| && events[i].Subscribe? && events[i].address == address ==> events[i].routing.Anycast?
  }

  lemma {:induction false} RunQueueOnly(events: seq<Event>, address: string)
    requires OnlyQueues(events, address)
    ensures QueueOnly(Run(events).bus, address)
  {
    if events != [] {
      var front, last := events[..|events| - 1], events[|events| - 1];
      assert forall i :: 0 <= i < |front| ==> front[i] == events[i];
      RunQueueOnly(front, address);
      RunKeeps(front);
      StepAttaches(Run(front), last);
      if last.Subscribe? && last.address == address {
        assert last.routing.Anycast?;
      }
    }
  }

  /** The `delivery-count` of a delivery returned this often: a fresh one has no header section. */
  function CountAfter(times: nat): Option<nat> {
    if times == 0 then None else Some(times)
  }

  /** The delivery a serial stands for on the address: as published, with the returns counted. */
  function Expected(w: World, address: string, serial: nat): Delivery
    requires serial in w.published
  {
    w.published[serial].(count := CountAfter(Modified(w, address, serial)))
  }

  /** What is held of `x`, this often, is one delivery as it should be by now. */
  predicate AsExpected(w: World, address: string, x: Delivery, held: nat) {
    held > 0 ==> held == 1 && x.serial in w.published && x == Expected(w, address, x.serial)
  }

  /** Only what was published was ever returned. */
  ghost predicate ReturnsKnown(w: World, address: string) {
    forall serial :: (address, serial) in w.modified ==> serial in w.published
  }

  ghost predicate EachOnce(w: World, address: string) {
    (forall x :: AsExpected(w, address, x, Held(w, address, x))) && ReturnsKnown(w, address)
  }

  /** With nothing published or returned, no more of `x` is held than before. */
  lemma QuietExpected(w: World, w': World, address: string, x: Delivery, held: nat, held': nat)
    requires AsExpected(w, address, x, held) && held' <= held
    requires w'.published == w.published && Modified(w', address, x.serial) == Modified(w, address, x.serial)
    ensures AsExpected(w', address, x, held')
  {
  }

  /** A publish brings in its own, new delivery at most. */
  lemma PublishExpected(w: World, w': World, e: Event, address: string, x: Delivery, held: nat, held': nat)
    requires LinkInv(w) && e.Publish? && !w.bus.closed && ReturnsKnown(w, address)
    requires w' == PublishStep(w, e.address, Sent(w, e.payload, e.headers, e.replyId))
    requires AsExpected(w, address, x, held) && held' <= held + One(Sent(w, e.payload, e.headers, e.replyId) == x)
    ensures AsExpected(w', address, x, held')
  {
    assert Modified(w', address, w.nextSerial) == 0;
  }

  /** A return replaces `d` by the delivery with one more counted attempt. */
  lemma ReturnExpected(w: World, w': World, d: Delivery, address: string, x: Delivery, held: nat, held': nat)
    requires d.serial in w.published && d == Expected(w, address, d.serial)
    requires w'.published == w.published
    requires w'.modified == w.modified[(address, d.serial) := Modified(w, address, d.serial) + 1]
    requires AsExpected(w, address, x, held) && held' + One(d == x) <= held + One(Bump(d) == x)
    ensures AsExpected(w', address, x, held')
  {
    if x.serial != d.serial {
      assert Modified(w', address, x.serial) == Modified(w, address, x.serial);
    }
  }

  ghost predicate AllBalanced(w: World, w': World, e: Event, address: string) {
    forall x :: Balanced(w, w', e, address, x)
  }

  lemma StepAllBalanced(w: World, e: Event, address: string)
    requires Inv(w) && QueueOnly(w.bus, address)
    ensures AllBalanced(w, Step(w, e), e, address)
  {
    forall x ensures Balanced(w, Step(w, e), e, address, x) {
      StepBalanced(w, e, address, x);
    }
  }

  lemma {:induction false} HandIsHeld(hands: map<nat, Hand>, address: string, n: nat, h: nat)
    requires h < n && h in hands && hands[h].address == address
    ensures InHands(hands, address, n, hands[h].delivery) > 0
  {
    if h < n - 1 {
      HandIsHeld(hands, address, n - 1, h);
    }
  }

  /** A step that neither publishes nor returns brings nothing in and changes no expectation. */
  lemma QuietOnce(w: World, w': World, e: Event, address: string)
    requires EachOnce(w, address) && !e.Publish? && w'.published == w.published
    requires AllBalanced(w, w', e, address)
    requires forall x :: Enters(w, e, address, x) == 0
    requires forall serial :: Modified(w', address, serial) == Modified(w, address, serial)
    requires forall serial :: (address, serial) in w'.modified ==> (address, serial) in w.modified
    ensures EachOnce(w', address)
  {
    forall x ensures AsExpected(w', address, x, Held(w', address, x)) {
      assert Balanced(w, w', e, address, x) && Enters(w, e, address, x) == 0;
      QuietExpected(w, w', address, x, Held(w, address, x), Held(w', address, x));
    }
  }

  /** The step neither publishes nor returns a delivery on the address. */
  predicate IsQuiet(w: World, e: Event, address: string) {
    !e.Publish? && !(e.Settle? && Returns(w, e.hand, e.kind) && w.hands[e.hand].address == address)
  }

  lemma QuietHistory(w: World, w': World, e: Event, address: string)
    requires IsQuiet(w, e, address) && w' == Step(w, e)
    ensures w'.published == w.published
    ensures forall serial :: (address, serial) in w'.modified <==> (address, serial) in w.modified
    ensures forall serial :: Modified(w', address, serial) == Modified(w, address, serial)
  {
  }

  lemma PublishOnce(w: World, w': World, e: Event, address: string)
    requires LinkInv(w) && EachOnce(w, address) && e.Publish?
    requires w' == PublishStep(w, e.address, Sent(w, e.payload, e.headers, e.replyId))
    requires AllBalanced(w, w', e, address)
    ensures EachOnce(w', address)
  {
    forall x ensures AsExpected(w', address, x, Held(w', address, x)) {
      assert Balanced(w, w', e, address, x);
      if w.bus.closed {
        QuietExpected(w, w', address, x, Held(w, address, x), Held(w', address, x));
      } else {
        PublishExpected(w, w', e, address, x, Held(w, address, x), Held(w', address, x));
      }
    }
  }

  lemma ReturnOnce(w: World, w': World, h: nat, kind: Kind, address: string)
    requires LinkInv(w) && EachOnce(w, address) && Returns(w, h, kind) && w.hands[h].address == address
    requires w' == SettleStep(w, h, kind)
    requires AllBalanced(w, w', Settle(h, kind), address)
    ensures EachOnce(w', address)
  {
    var d := w.hands[h].delivery;
    HandIsHeld(w.hands, address, w.nextHand, h);
    assert AsExpected(w, address, d, Held(w, address, d));
    forall x ensures AsExpected(w', address, x, Held(w', address, x)) {
      assert Balanced(w, w', Settle(h, kind), address, x);
      ReturnExpected(w, w', d, address, x, Held(w, address, x), Held(w', address, x));
    }
  }

  lemma StepOnce(w: World, e: Event, address: string)
    requires Inv(w) && QueueOnly(w.bus, address) && EachOnce(w, address)
    ensures EachOnce(Step(w, e), address)
  {
    var w' := Step(w, e);
    StepAllBalanced(w, e, address);
    if e.Publish? {
      PublishOnce(w, w', e, address);
    } else if e.Settle? && Returns(w, e.hand, e.kind) && w.hands[e.hand].address == address {
      ReturnOnce(w, w', e.hand, e.kind, address);
    } else {
      QuietHistory(w, w', e, address);
      QuietOnce(w, w', e, address);
    }
  }

  lemma {:induction false} StartHolds(address: string, n: nat, x: Delivery)
    ensures Parts(Fresh(), map[], address, n, x) == 0 && InHands(map[], address, n, x) == 0
  {
    if n > 0 {
      StartHolds(address, n - 1, x);
    }
  }

  /** In every run, whatever the address holds anywhere, it holds once, as published and with its
      returns counted. */
  lemma {:induction false} HeldAsPublished(events: seq<Event>, address: string)
    requires OnlyQueues(events, address)
    ensures EachOnce(Run(events), address)
  {
    if events == [] {
      forall x ensures AsExpected(Start(), address, x, Held(Start(), address, x)) {
        StartHolds(address, 0, x);
      }
    } else {
      var front, last := events[..|events| - 1], events[|events| - 1];
      assert forall i :: 0 <= i < |front| ==> front[i] == events[i];
      HeldAsPublished(front, address);
      RunQueueOnly(front, address);
      RunKeeps(front);
      StepOnce(Run(front), last, address);
    }
  }

  // -- The account of one delivery ---------------------------------------------------------------

  /** Whether the step is the publish, accepted by the address, that made this delivery. */
  predicate Publishes(w: World, e: Event, address: string, serial: nat) {
    e.Publish? && !w.bus.closed && e.address == address && Accepting(w.bus, address) && w.nextSerial == serial
  }

  /** How often the step takes this delivery off the address for good. A `modified` settlement does so
      only when nobody there takes the delivery back. */
  function Ends(w: World, e: Event, address: string, serial: nat): nat {
    if serial !in w.published then 0
    else if e.Settle? && Returns(w, e.hand, e.kind) && TakesBack(w.bus, w.hands[e.hand]) then 0
    else Leaves(w, e, address, Expected(w, address, serial))
  }

  function Accepted(events: seq<Event>, address: string, serial: nat): nat {
    if events == [] then 0
    else
      var front := events[..|events| - 1];
      Accepted(front, address, serial) + One(Publishes(Run(front), events[|events| - 1], address, serial))
  }

  function Ended(events: seq<Event>, address: string, serial: nat): nat {
    if events == [] then 0
    else
      var front := events[..|events| - 1];
      Ended(front, address, serial) + Ends(Run(front), events[|events| - 1], address, serial)
  }

  /** How often the address holds the delivery now. */
  function HeldNow(w: World, address: string, serial: nat): nat {
    if serial in w.published then Held(w, address, Expected(w, address, serial)) else 0
  }

  predicate Accounted(w: World, w': World, e: Event, address: string, serial: nat) {
    HeldNow(w', address, serial) + Ends(w, e, address, serial) ==
    HeldNow(w, address, serial) + One(Publishes(w, e, address, serial))
  }

  lemma NewAccounted(w: World, w': World, e: Event, address: string)
    requires LinkInv(w) && EachOnce(w, address) && e.Publish? && !w.bus.closed
    requires w' == PublishStep(w, e.address, Sent(w, e.payload, e.headers, e.replyId))
    requires AllBalanced(w, w', e, address)
    ensures Accounted(w, w', e, address, w.nextSerial)
  {
    var x := Sent(w, e.payload, e.headers, e.replyId);
    assert Modified(w', address, w.nextSerial) == 0;
    assert Expected(w', address, w.nextSerial) == x;
    assert Balanced(w, w', e, address, x);
    assert AsExpected(w, address, x, Held(w, address, x));
  }

  lemma OldAccounted(w: World, w': World, e: Event, address: string, serial: nat)
    requires LinkInv(w) && e.Publish? && serial in w.published && AllBalanced(w, w', e, address)
    requires w' == PublishStep(w, e.address, Sent(w, e.payload, e.headers, e.replyId))
    ensures Accounted(w, w', e, address, serial)
  {
    var x := Expected(w, address, serial);
    assert Expected(w', address, serial) == x && x.serial == serial;
    assert Balanced(w, w', e, address, x);
  }

  lemma PublishAccounted(w: World, w': World, e: Event, address: string, serial: nat)
    requires LinkInv(w) && EachOnce(w, address) && e.Publish? && AllBalanced(w, w', e, address)
    requires w' == PublishStep(w, e.address, Sent(w, e.payload, e.headers, e.replyId))
    ensures Accounted(w, w', e, address, serial)
  {
    if serial in w.published {
      OldAccounted(w, w', e, address, serial);
    } else if serial == w.nextSerial && !w.bus.closed {
      NewAccounted(w, w', e, address);
    }
  }

  lemma ReturnAccounted(w: World, w': World, h: nat, kind: Kind, address: string, serial: nat)
    requires LinkInv(w) && EachOnce(w, address) && Returns(w, h, kind) && w.hands[h].address == address
    requires w' == SettleStep(w, h, kind)
    requires AllBalanced(w, w', Settle(h, kind), address)
    ensures Accounted(w, w', Settle(h, kind), address, serial)
  {
    var d := w.hands[h].delivery;
    HandIsHeld(w.hands, address, w.nextHand, h);
    assert AsExpected(w, address, d, Held(w, address, d));
    if serial in w.published {
      assert AsExpected(w, address, Expected(w, address, serial), Held(w, address, Expected(w, address, serial)));
      assert AsExpected(w, address, Expected(w', address, serial), Held(w, address, Expected(w', address, serial)));
      assert Balanced(w, w', Settle(h, kind), address, Expected(w', address, serial));
    }
  }

  lemma QuietAccounted(w: World, w': World, e: Event, address: string, serial: nat)
    requires !e.Publish? && w'.published == w.published && Modified(w', address, serial) == Modified(w, address, serial)
    requires e.Settle? && Returns(w, e.hand, e.kind) ==> w.hands[e.hand].address != address
    requires AllBalanced(w, w', e, address)
    ensures Accounted(w, w', e, address, serial)
  {
    if serial in w.published {
      assert Balanced(w, w', e, address, Expected(w, address, serial));
    }
  }

  lemma StepAccounted(w: World, e: Event, address: string, serial: nat)
    requires Inv(w) && QueueOnly(w.bus, address) && EachOnce(w, address)
    ensures Accounted(w, Step(w, e), e, address, serial)
  {
    var w' := Step(w, e);
    StepAllBalanced(w, e, address);
    if e.Publish? {
      PublishAccounted(w, w', e, address, serial);
    } else if e.Settle? && Returns(w, e.hand, e.kind) && w.hands[e.hand].address == address {
      ReturnAccounted(w, w', e.hand, e.kind, address, serial);
    } else {
      QuietHistory(w, w', e, address);
      QuietAccounted(w, w', e, address, serial);
    }
  }

  lemma SerialsGrow(w: World, e: Event)
    ensures Step(w, e).nextSerial == w.nextSerial + One(e.Publish? && !w.bus.closed)
  {
  }

  lemma {:induction false} SerialsAreNew(events: seq<Event>, address: string, serial: nat)
    ensures Accepted(events, address, serial) <= 1
    ensures serial >= Run(events).nextSerial ==> Accepted(events, address, serial) == 0
  {
    if events != [] {
      SerialsAreNew(events[..|events| - 1], address, serial);
      SerialsGrow(Run(events[..|events| - 1]), events[|events| - 1]);
    }
  }

  /** Conservation. For every run, every address that only queue subscriptions attach to and every
      publish: if the address accepted it, it holds the delivery in exactly one place or the delivery
      left it, exactly once; otherwise the address never holds it. */
  lemma {:induction false} DeliveryConserved(events: seq<Event>, address: string, serial: nat)
    requires OnlyQueues(events, address)
    ensures HeldNow(Run(events), address, serial) + Ended(events, address, serial) == Accepted(events, address, serial) <= 1
  {
    if events != [] {
      var front, last := events[..|events| - 1], events[|events| - 1];
      assert forall i :: 0 <= i < |front| ==> front[i] == events[i];
      DeliveryConserved(front, address, serial);
      RunQueueOnly(front, address);
      RunKeeps(front);
      HeldAsPublished(front, address);
      StepAccounted(Run(front), last, address, serial);
    }
    SerialsAreNew(events, address, serial);
  }
}
