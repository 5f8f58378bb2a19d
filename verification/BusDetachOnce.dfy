/** Delivery conservation with every detach in its two halves: what `BusExactlyOnce` says of whole
    detaches holds with anything in between the halves, where a return can be lost as well. */
module BusDetachOnce {
  import opened Router
  import opened BusWorld
  import opened BusConservation
  import opened BusDetach
  import opened BusDetachRuns
  import opened BusExactlyOnce

  ghost predicate EachOnceHalf(f: Halves, address: string) {
    (forall x :: AsExpected(f.w, address, x, HeldHalf(f, address, x))) && ReturnsKnown(f.w, address)
  }

  ghost predicate AllBalancedHalf(f: Halves, f': Halves, e: HalfEvent, address: string) {
    forall x :: BalancedHalf(f, f', e, address, x)
  }

  lemma StepAllBalancedHalf(f: Halves, f': Halves, e: HalfEvent, address: string)
    requires HalfInv(f) && QueueOnly(f.w.bus, address) && f' == HalfStep(f, e)
    ensures AllBalancedHalf(f, f', e, address)
  {
    forall x ensures BalancedHalf(f, f', e, address, x) {
      HalfStepBalanced(f, f', e, address, x);
    }
  }

  /** The step neither publishes nor returns a delivery on the address. */
  predicate IsQuietHalf(f: Halves, e: HalfEvent, address: string) {
    e.Do? ==> IsQuiet(f.w, e.event, address)
  }

  lemma QuietHistoryHalf(f: Halves, f': Halves, e: HalfEvent, address: string)
    requires IsQuietHalf(f, e, address) && f' == HalfStep(f, e)
    ensures f'.w.published == f.w.published
    ensures forall serial :: (address, serial) in f'.w.modified <==> (address, serial) in f.w.modified
    ensures forall serial :: Modified(f'.w, address, serial) == Modified(f.w, address, serial)
  {
    if e.Do? && !e.event.Detach? {
      QuietHistory(f.w, f'.w, e.event, address);
    }
  }

  lemma QuietOnceHalf(f: Halves, f': Halves, e: HalfEvent, address: string)
    requires EachOnceHalf(f, address) && IsQuietHalf(f, e, address) && f' == HalfStep(f, e)
    requires AllBalancedHalf(f, f', e, address)
    ensures EachOnceHalf(f', address)
  {
    QuietHistoryHalf(f, f', e, address);
    forall x ensures AsExpected(f'.w, address, x, HeldHalf(f', address, x)) {
      assert BalancedHalf(f, f', e, address, x);
      NothingEnters(f, e, address, x);
      QuietExpected(f.w, f'.w, address, x, HeldHalf(f, address, x), HeldHalf(f', address, x));
    }
  }

  lemma NothingEnters(f: Halves, e: HalfEvent, address: string, x: Delivery)
    requires IsQuietHalf(f, e, address)
    ensures EntersHalf(f, e, address, x) == 0
  {
  }

  lemma PublishOnceHalf(f: Halves, f': Halves, e: Event, address: string)
    requires LinkInv(f.w) && EachOnceHalf(f, address) && e.Publish?
    requires f'.w == PublishStep(f.w, e.address, Sent(f.w, e.payload, e.headers, e.replyId))
    requires AllBalancedHalf(f, f', Do(e), address)
    ensures EachOnceHalf(f', address)
  {
    forall x ensures AsExpected(f'.w, address, x, HeldHalf(f', address, x)) {
      assert BalancedHalf(f, f', Do(e), address, x);
      if f.w.bus.closed {
        QuietExpected(f.w, f'.w, address, x, HeldHalf(f, address, x), HeldHalf(f', address, x));
      } else {
        PublishExpected(f.w, f'.w, e, address, x, HeldHalf(f, address, x), HeldHalf(f', address, x));
      }
    }
  }

  /** A delivery in somebody's hands is as it should be by now, and held nowhere else. */
  lemma HandHeldOnce(f: Halves, address: string, h: nat)
    requires LinkInv(f.w) && EachOnceHalf(f, address) && h in f.w.hands && f.w.hands[h].address == address
    ensures var d := f.w.hands[h].delivery;
      d.serial in f.w.published && d == Expected(f.w, address, d.serial) && HeldHalf(f, address, d) == 1
  {
    var d := f.w.hands[h].delivery;
    HandIsHeld(f.w.hands, address, f.w.nextHand, h);
    assert AsExpected(f.w, address, d, HeldHalf(f, address, d));
  }

  lemma ReturnOnceHalf(f: Halves, f': Halves, h: nat, kind: Kind, address: string)
    requires LinkInv(f.w) && EachOnceHalf(f, address) && Returns(f.w, h, kind) && f.w.hands[h].address == address
    requires f'.w == SettleStep(f.w, h, kind)
    requires AllBalancedHalf(f, f', Do(Settle(h, kind)), address)
    ensures EachOnceHalf(f', address)
  {
    var d := f.w.hands[h].delivery;
    HandHeldOnce(f, address, h);
    forall x ensures AsExpected(f'.w, address, x, HeldHalf(f', address, x)) {
      assert BalancedHalf(f, f', Do(Settle(h, kind)), address, x);
      ReturnExpected(f.w, f'.w, d, address, x, HeldHalf(f, address, x), HeldHalf(f', address, x));
    }
  }

  lemma StepOnceHalf(f: Halves, f': Halves, e: HalfEvent, address: string)
    requires HalfInv(f) && QueueOnly(f.w.bus, address) && EachOnceHalf(f, address) && f' == HalfStep(f, e)
    ensures EachOnceHalf(f', address)
  {
    StepAllBalancedHalf(f, f', e, address);
    if IsQuietHalf(f, e, address) {
      QuietOnceHalf(f, f', e, address);
    } else if e.event.Publish? {
      PublishOnceHalf(f, f', e.event, address);
    } else {
      ReturnOnceHalf(f, f', e.event.hand, e.event.kind, address);
    }
  }

  /** In every run of half detaches, whatever the address holds anywhere, drained links included, it
      holds once, as published and with its returns counted. */
  lemma {:induction false} HeldAsPublishedInHalves(events: seq<HalfEvent>, address: string)
    requires BusDetachRuns.OnlyQueues(events, address)
    ensures EachOnceHalf(HalfRun(events), address)
  {
    if events == [] {
      forall x ensures HeldHalf(HalfRun([]), address, x) == 0 {
        NothingAtFirst(address, 0, x);
      }
    } else {
      var front, last := events[..|events| - 1], events[|events| - 1];
      assert forall i :: 0 <= i < |front| ==> front[i] == events[i];
      HeldAsPublishedInHalves(front, address);
      HalfRunQueueOnly(front, address);
      HalfRunKeeps(front);
      StepOnceHalf(HalfRun(front), HalfRun(events), last, address);
    }
  }

  // -- The account of one delivery ---------------------------------------------------------------

  predicate PublishesHalf(f: Halves, e: HalfEvent, address: string, serial: nat) {
    e.Do? && Publishes(f.w, e.event, address, serial)
  }

  /** The step returns a delivery to somebody who keeps it. */
  predicate ReturnsKept(f: Halves, e: HalfEvent) {
    e.Do? && e.event.Settle? && Returns(f.w, e.event.hand, e.event.kind) && ReturnKept(f.w.bus, f.w.hands[e.event.hand])
  }

  /** How often the step takes this delivery off the address for good. A return into a closing link does. */
  function EndsHalf(f: Halves, e: HalfEvent, address: string, serial: nat): nat {
    if serial !in f.w.published || ReturnsKept(f, e) then 0 else LeavesHalf(f, e, address, Expected(f.w, address, serial))
  }

  function AcceptedHalf(events: seq<HalfEvent>, address: string, serial: nat): nat {
    if events == [] then 0
    else
      var front := events[..|events| - 1];
      AcceptedHalf(front, address, serial) + One(PublishesHalf(HalfRun(front), events[|events| - 1], address, serial))
  }

  function EndedHalf(events: seq<HalfEvent>, address: string, serial: nat): nat {
    if events == [] then 0
    else
      var front := events[..|events| - 1];
      EndedHalf(front, address, serial) + EndsHalf(HalfRun(front), events[|events| - 1], address, serial)
  }

  function HeldNowHalf(f: Halves, address: string, serial: nat): nat {
    if serial in f.w.published then HeldHalf(f, address, Expected(f.w, address, serial)) else 0
  }

  predicate AccountedHalf(f: Halves, f': Halves, e: HalfEvent, address: string, serial: nat) {
    HeldNowHalf(f', address, serial) + EndsHalf(f, e, address, serial) ==
    HeldNowHalf(f, address, serial) + One(PublishesHalf(f, e, address, serial))
  }

  lemma NewAccountedHalf(f: Halves, f': Halves, e: Event, address: string)
    requires LinkInv(f.w) && EachOnceHalf(f, address) && e.Publish? && !f.w.bus.closed
    requires f'.w == PublishStep(f.w, e.address, Sent(f.w, e.payload, e.headers, e.replyId))
    requires AllBalancedHalf(f, f', Do(e), address)
    ensures AccountedHalf(f, f', Do(e), address, f.w.nextSerial)
  {
    var x := Sent(f.w, e.payload, e.headers, e.replyId);
    assert Modified(f'.w, address, f.w.nextSerial) == 0;
    assert Expected(f'.w, address, f.w.nextSerial) == x;
    assert BalancedHalf(f, f', Do(e), address, x);
    assert AsExpected(f.w, address, x, HeldHalf(f, address, x));
  }

  lemma OldAccountedHalf(f: Halves, f': Halves, e: Event, address: string, serial: nat)
    requires LinkInv(f.w) && e.Publish? && serial in f.w.published && AllBalancedHalf(f, f', Do(e), address)
    requires f'.w == PublishStep(f.w, e.address, Sent(f.w, e.payload, e.headers, e.replyId))
    ensures AccountedHalf(f, f', Do(e), address, serial)
  {
    var x := Expected(f.w, address, serial);
    assert Expected(f'.w, address, serial) == x && x.serial == serial;
    assert BalancedHalf(f, f', Do(e), address, x);
  }

  lemma PublishAccountedHalf(f: Halves, f': Halves, e: Event, address: string, serial: nat)
    requires LinkInv(f.w) && EachOnceHalf(f, address) && e.Publish? && AllBalancedHalf(f, f', Do(e), address)
    requires f'.w == PublishStep(f.w, e.address, Sent(f.w, e.payload, e.headers, e.replyId))
    ensures AccountedHalf(f, f', Do(e), address, serial)
  {
    if serial in f.w.published {
      OldAccountedHalf(f, f', e, address, serial);
    } else if serial == f.w.nextSerial && !f.w.bus.closed {
      NewAccountedHalf(f, f', e, address);
    }
  }

  /** The delivery with one more counted attempt is what is expected now, and was held nowhere before. */
  lemma BumpIsNew(w: World, w': World, d: Delivery, address: string, held: nat)
    requires d.serial in w.published && d == Expected(w, address, d.serial)
    requires w'.published == w.published
    requires w'.modified == w.modified[(address, d.serial) := Modified(w, address, d.serial) + 1]
    requires AsExpected(w, address, Bump(d), held)
    ensures Expected(w', address, d.serial) == Bump(d) && held == 0 && Bump(d) != d
  {
  }

  lemma ReturnMoves(f: Halves, h: nat, kind: Kind, address: string)
    requires Returns(f.w, h, kind) && f.w.hands[h].address == address && Bump(f.w.hands[h].delivery) != f.w.hands[h].delivery
    ensures var d, e := f.w.hands[h].delivery, Do(Settle(h, kind));
      && LeavesHalf(f, e, address, d) == 1 && LeavesHalf(f, e, address, Bump(d)) == 0
      && EntersHalf(f, e, address, Bump(d)) == One(ReturnsKept(f, e))
  {
  }

  /** The returned delivery itself: it counts one more return, and is held as such or lost. */
  lemma OwnReturnAccounted(f: Halves, f': Halves, h: nat, kind: Kind, address: string)
    requires LinkInv(f.w) && EachOnceHalf(f, address) && Returns(f.w, h, kind) && f.w.hands[h].address == address
    requires f'.w == SettleStep(f.w, h, kind)
    requires AllBalancedHalf(f, f', Do(Settle(h, kind)), address)
    ensures AccountedHalf(f, f', Do(Settle(h, kind)), address, f.w.hands[h].delivery.serial)
  {
    var d := f.w.hands[h].delivery;
    HandHeldOnce(f, address, h);
    BumpIsNew(f.w, f'.w, d, address, HeldHalf(f, address, Bump(d)));
    ReturnMoves(f, h, kind, address);
    assert BalancedHalf(f, f', Do(Settle(h, kind)), address, Bump(d));
  }

  lemma OtherReturnAccounted(f: Halves, f': Halves, h: nat, kind: Kind, address: string, serial: nat)
    requires Returns(f.w, h, kind) && serial in f.w.published && f.w.published[serial].serial == serial
    requires serial != f.w.hands[h].delivery.serial && f'.w == SettleStep(f.w, h, kind)
    requires AllBalancedHalf(f, f', Do(Settle(h, kind)), address)
    ensures AccountedHalf(f, f', Do(Settle(h, kind)), address, serial)
  {
    var x := Expected(f.w, address, serial);
    assert Modified(f'.w, address, serial) == Modified(f.w, address, serial);
    assert Expected(f'.w, address, serial) == x && x.serial == serial;
    assert BalancedHalf(f, f', Do(Settle(h, kind)), address, x);
  }

  lemma ReturnAccountedHalf(f: Halves, f': Halves, h: nat, kind: Kind, address: string, serial: nat)
    requires LinkInv(f.w) && EachOnceHalf(f, address) && Returns(f.w, h, kind) && f.w.hands[h].address == address
    requires f'.w == SettleStep(f.w, h, kind)
    requires AllBalancedHalf(f, f', Do(Settle(h, kind)), address)
    ensures AccountedHalf(f, f', Do(Settle(h, kind)), address, serial)
  {
    if serial == f.w.hands[h].delivery.serial {
      OwnReturnAccounted(f, f', h, kind, address);
    } else if serial in f.w.published {
      OtherReturnAccounted(f, f', h, kind, address, serial);
    }
  }

  lemma QuietAccountedHalf(f: Halves, f': Halves, e: HalfEvent, address: string, serial: nat)
    requires IsQuietHalf(f, e, address) && f' == HalfStep(f, e) && AllBalancedHalf(f, f', e, address)
    ensures AccountedHalf(f, f', e, address, serial)
  {
    QuietHistoryHalf(f, f', e, address);
    if serial in f.w.published {
      var x := Expected(f.w, address, serial);
      assert BalancedHalf(f, f', e, address, x);
      NothingEnters(f, e, address, x);
      ElsewhereEndsNothing(f, e, address, x);
    }
  }

  /** A return on another address takes nothing off this one. */
  lemma ElsewhereEndsNothing(f: Halves, e: HalfEvent, address: string, x: Delivery)
    requires IsQuietHalf(f, e, address)
    ensures ReturnsKept(f, e) ==> LeavesHalf(f, e, address, x) == 0
  {
  }

  lemma StepAccountedHalf(f: Halves, f': Halves, e: HalfEvent, address: string, serial: nat)
    requires HalfInv(f) && QueueOnly(f.w.bus, address) && EachOnceHalf(f, address) && f' == HalfStep(f, e)
    ensures AccountedHalf(f, f', e, address, serial)
  {
    StepAllBalancedHalf(f, f', e, address);
    if IsQuietHalf(f, e, address) {
      QuietAccountedHalf(f, f', e, address, serial);
    } else if e.event.Publish? {
      PublishAccountedHalf(f, f', e.event, address, serial);
    } else {
      ReturnAccountedHalf(f, f', e.event.hand, e.event.kind, address, serial);
    }
  }

  lemma SerialsGrowHalf(f: Halves, f': Halves, e: HalfEvent)
    requires f' == HalfStep(f, e)
    ensures f'.w.nextSerial == f.w.nextSerial + One(e.Do? && e.event.Publish? && !f.w.bus.closed)
  {
    if e.Do? && !e.event.Detach? {
      SerialsGrow(f.w, e.event);
    }
  }

  lemma {:induction false} SerialsAreNewHalf(events: seq<HalfEvent>, address: string, serial: nat)
    ensures AcceptedHalf(events, address, serial) <= 1
    ensures serial >= HalfRun(events).w.nextSerial ==> AcceptedHalf(events, address, serial) == 0
  {
    if events != [] {
      SerialsAreNewHalf(events[..|events| - 1], address, serial);
      SerialsGrowHalf(HalfRun(events[..|events| - 1]), HalfRun(events), events[|events| - 1]);
    }
  }

  /** Conservation with half detaches. For every run, every address that only queue subscriptions attach
      to and every publish: if the address accepted it, it holds the delivery in exactly one place,
      drained links included, or the delivery left it, exactly once; otherwise it never holds it. */
  lemma {:induction false} DeliveryConservedInHalves(events: seq<HalfEvent>, address: string, serial: nat)
    requires BusDetachRuns.OnlyQueues(events, address)
    ensures HeldNowHalf(HalfRun(events), address, serial) + EndedHalf(events, address, serial) == AcceptedHalf(events, address, serial) <= 1
  {
    if events != [] {
      var front, last := events[..|events| - 1], events[|events| - 1];
      assert forall i :: 0 <= i < |front| ==> front[i] == events[i];
      DeliveryConservedInHalves(front, address, serial);
      HalfRunQueueOnly(front, address);
      HalfRunKeeps(front);
      HeldAsPublishedInHalves(front, address);
      StepAccountedHalf(HalfRun(front), HalfRun(events), last, address, serial);
    }
    SerialsAreNewHalf(events, address, serial);
  }
}
