/** The objects of the in-process transport around the registry: the connection, one subscription's
    consuming end, a delivery's settlement, and the transaction buffers. */
module InProcess {
  import opened Common
  import R = Router
  import T = Transactions
  import Turns = RouterTurns
  import W = BusWorld
  import opened AddressRouters

  datatype AckError = Unsupported | SessionEnded

  datatype BusError = NotConnected

  type Buffered = (string, R.Delivery)

  // -- The consuming end is gone from the registry before its receiver is ---------------------------

  function Without(s: R.State, id: nat): R.State {
    s.(channels := s.channels - {id})
  }

  lemma {:induction false} OfferWithout(s: R.State, address: string, d: R.Delivery, ids: seq<nat>, first: nat, offset: nat, id: nat)
    requires ids != [] && offset <= |ids| && id !in ids
    ensures R.Offer(Without(s, id), address, d, ids, first, offset) == Without(R.Offer(s, address, d, ids, first, offset), id)
    decreases |ids| - offset
  {
    if offset < |ids| {
      var k := ids[R.Place(first, offset, |ids|)];
      assert k in ids;
      if R.Takes(s, k) {
        assert R.Send(Without(s, id), k, d).channels == R.Send(s, k, d).channels - {id};
      } else {
        OfferWithout(s, address, d, ids, first, offset + 1, id);
      }
    }
  }

  lemma HandOverWithout(s: R.State, address: string, d: R.Delivery, id: nat)
    requires id !in s.subs
    ensures R.HandToOne(Without(s, id), address, d) == Without(R.HandToOne(s, address, d), id)
    ensures R.HandToOne(s, address, d).subs == s.subs
  {
    var ids := R.Competing(s, address, s.nextId);
    Turns.CompetingDependsOnSubs(s, Without(s, id), address, s.nextId);
    if ids != [] {
      var first := R.Get(s.turn, address, 0);
      var s1 := s.(turn := s.turn[address := (first + 1) % R.WRAP]);
      OfferWithout(s1, address, d, ids, first, 0, id);
      OfferSubs(s1, address, d, ids, first, 0);
    }
  }

  lemma {:induction false} OfferSubs(s: R.State, address: string, d: R.Delivery, ids: seq<nat>, first: nat, offset: nat)
    requires ids != [] && offset <= |ids|
    ensures R.Offer(s, address, d, ids, first, offset).subs == s.subs
    decreases |ids| - offset
  {
    if offset < |ids| && !R.Takes(s, ids[R.Place(first, offset, |ids|)]) {
      OfferSubs(s, address, d, ids, first, offset + 1);
    }
  }

  lemma {:induction false} HandAllWithout(s: R.State, address: string, ds: seq<R.Delivery>, id: nat)
    requires id !in s.subs
    ensures R.HandAll(Without(s, id), address, ds) == Without(R.HandAll(s, address, ds), id)
    ensures R.HandAll(s, address, ds).subs == s.subs
  {
    if ds != [] {
      HandAllWithout(s, address, ds[..|ds| - 1], id);
      HandOverWithout(R.HandAll(s, address, ds[..|ds| - 1]), address, ds[|ds| - 1], id);
    }
  }

  lemma PruneWithout(s: R.State, address: string, id: nat)
    ensures R.Prune(Without(s, id), address) == Without(R.Prune(s, address), id)
  {
    Turns.CompetingDependsOnSubs(s, Without(s, id), address, s.nextId);
  }

  /** Whether the detaching link's own channel goes before or after unsubscribing makes no difference. */
  lemma UnsubscribeWithout(s: R.State, id: nat, pending: seq<R.Delivery>)
    ensures R.Unsubscribe(Without(s, id), id, pending) == Without(R.Unsubscribe(s, id, pending), id)
  {
    if id in s.subs {
      var sub, back := s.subs[id], R.Get(s.outstanding, id, []) + pending;
      var s1 := s.(subs := s.subs - {id}, outstanding := s.outstanding - {id});
      assert Without(s, id).(subs := s.subs - {id}, outstanding := s.outstanding - {id}) == Without(s1, id);
      HandAllWithout(s1, sub.address, back, id);
      PruneWithout(if sub.routing.Anycast? then R.HandAll(s1, sub.address, back) else s1, sub.address, id);
    }
  }

  /** Once unsubscribed, the link's channel can go. */
  lemma StaysValid(s: R.State, id: nat, pending: seq<R.Delivery>)
    requires R.Valid(s) && R.Valid(R.Unsubscribe(s, id, pending))
    ensures R.Valid(Without(R.Unsubscribe(s, id, pending), id))
  {
    if id in s.subs {
      var s1 := s.(subs := s.subs - {id}, outstanding := s.outstanding - {id});
      HandAllWithout(s1, s.subs[id].address, R.Get(s.outstanding, id, []) + pending, id);
    }
  }

  class Bus {
    const router: AddressRouter
    var closed: bool

    ghost predicate Valid()
      reads this, router
    {
      R.Valid(router.State()) && (router.closed ==> closed)
    }

    constructor ()
      ensures Valid() && fresh(router) && router.State() == R.Fresh() && !closed
    {
      router := new AddressRouter();
      closed := false;
    }

    method RaiseFlag()
      requires Valid()
      modifies this`closed
      ensures Valid() && closed
    {
      closed := true;
    }

    /** Empties the registry. The flag is up by then: a settlement that finds it down finds the registry
        open too. */
    method EmptyRegistry()
      requires Valid() && closed
      modifies router
      ensures Valid() && router.State() == R.Close(old(router.State()))
    {
      router.Close();
    }

    /** Shuts the connection down, the flag first: nothing routes again. */
    method Close()
      requires Valid()
      modifies this, router
      ensures Valid() && closed && router.State() == R.Close(old(router.State()))
    {
      RaiseFlag();
      EmptyRegistry();
    }

    method Route(address: string, d: R.Delivery) returns (r: Result<(), BusError>)
      requires Valid()
      modifies router
      ensures Valid()
      ensures router.State() == if old(router.closed) then old(router.State()) else R.PublishOne(old(router.State()), address, d)
      ensures r == if old(router.closed) then Err(NotConnected) else Ok(())
    {
      var routed := router.Publish(address, d);
      return if routed then Ok(()) else Err(NotConnected);
    }

    method RouteAll(messages: seq<Buffered>) returns (r: Result<(), BusError>)
      requires Valid()
      modifies router
      ensures Valid()
      ensures router.State() == if old(router.closed) then old(router.State()) else R.PublishAll(old(router.State()), messages)
      ensures r == if old(router.closed) then Err(NotConnected) else Ok(())
    {
      var routed := router.PublishAll(messages);
      return if routed then Ok(()) else Err(NotConnected);
    }
  }

  /** How a delivery settles. `origin` is absent once it arrived settled or was settled. */
  class Settlement {
    const bus: Bus
    var origin: Option<W.Hand>

    constructor (bus: Bus, origin: Option<W.Hand>)
      ensures this.bus == bus && this.origin == origin
    {
      this.bus, this.origin := bus, origin;
    }

    /** Settles the delivery as the link would. Only a `modified` one on a live connection goes back,
        with one more counted attempt, and nothing is left for the drop that follows. */
    method Settle(kind: W.Kind, d: R.Delivery) returns (r: Result<(), AckError>)
      requires bus.Valid()
      requires origin.Some? ==> origin.value.delivery == d
      modifies this, bus.router
      ensures bus.Valid() && origin == None
      ensures r == if old(origin).None? then Err(Unsupported) else if bus.closed then Err(SessionEnded) else Ok(())
      ensures var s, hand := old(bus.router.State()), old(origin);
        bus.router.State() == if r.Ok? && kind.Modify? then R.Requeue(s, hand.value.id, hand.value.address, W.Bump(d)) else s
    {
      if origin.None? {
        return Err(Unsupported);
      }
      var hand := origin.value;
      origin := None;
      if bus.closed {
        return Err(SessionEnded);
      }
      if kind.Modify? {
        var attempts := if d.count.Some? then d.count.value else 0;
        var returned := bus.router.Requeue(hand.id, hand.address, R.Delivery(d.serial, d.payload, d.headers, Some(attempts + 1), d.replyId));
        if !returned {
          return Err(SessionEnded);
        }
      }
      return Ok(());
    }

    /** A delivery dropped unsettled goes back to its subscription, or to its address. */
    method Drop()
      requires bus.Valid()
      modifies this, bus.router
      ensures bus.Valid() && origin == None
      ensures var s, hand := old(bus.router.State()), old(origin);
        bus.router.State() == if hand.Some? then R.Release(s, hand.value.id, hand.value.address, hand.value.delivery) else s
    {
      if origin.Some? {
        bus.router.Release(origin.value.id, origin.value.address, origin.value.delivery);
        origin := None;
      }
    }
  }

  /** Taking the first of what is left over to what is done. */
  lemma TakeNext(all: seq<R.Delivery>, done: nat)
    requires done < |all|
    ensures all[done..][0] == all[done] && all[done..][1..] == all[done + 1..]
    ensures all[..done] + [all[done]] == all[..done + 1]
  {
  }

  /** The consuming end of one subscription. */
  class BusDeliveries {
    const bus: Bus
    const id: nat
    const address: string
    const atMostOnce: bool

    constructor (bus: Bus, id: nat, address: string, atMostOnce: bool)
      ensures this.bus == bus && this.id == id && this.address == address && this.atMostOnce == atMostOnce
    {
      this.bus, this.id, this.address, this.atMostOnce := bus, id, address, atMostOnce;
    }

    /** Takes the next delivery with its settlement: an at-most-once one carries no way back. */
    method Next() returns (next: Option<(R.Delivery, Settlement)>)
      requires bus.Valid() && id in bus.router.channels
      modifies bus.router
      ensures bus.Valid()
      ensures var s, items := old(bus.router.State()), old(bus.router.channels[id].items);
        if items == [] then next.None? && bus.router.State() == s
        else
          && next.Some? && next.value.0 == items[0] && fresh(next.value.1) && next.value.1.bus == bus
          && next.value.1.origin == (if atMostOnce then None else Some(W.Hand(id, address, items[0])))
          && bus.router.State() == s.(channels := s.channels[id := s.channels[id].(items := items[1..])])
    {
      var c := bus.router.channels[id];
      if c.items == [] {
        return None;
      }
      bus.router.channels := bus.router.channels[id := c.(items := c.items[1..])];
      var settlement := new Settlement(bus, if atMostOnce then None else Some(W.Hand(id, address, c.items[0])));
      return Some((c.items[0], settlement));
    }

    /** Empties the channel, one delivery at a time. `released` is how many counted deliveries leave the
        flight; `pending` are those that go back. */
    method Drain() returns (pending: seq<R.Delivery>, released: nat)
      requires id in bus.router.channels
      modifies bus.router
      ensures var s := old(bus.router.State());
        && bus.router.State() == s.(channels := s.channels[id := R.Channel(s.channels[id].open, [])])
        && pending == (if atMostOnce then [] else s.channels[id].items)
        && released == |s.channels[id].items|
    {
      ghost var before, all := bus.router.State(), bus.router.channels[id].items;
      pending, released := [], 0;
      while bus.router.channels[id].items != []
        invariant id in bus.router.channels && released <= |all|
        invariant bus.router.State() == before.(channels := before.channels[id := R.Channel(before.channels[id].open, all[released..])])
        invariant pending == if atMostOnce then [] else all[..released]
        decreases |all| - released
      {
        var c := bus.router.channels[id];
        TakeNext(all, released);
        bus.router.channels := bus.router.channels[id := c.(items := c.items[1..])];
        released := released + 1;
        if !atMostOnce {
          pending := pending + [c.items[0]];
        }
      }
    }

    /** Detaching the link: closes the receiver, drains it, and hands back what was never read, but not
        what was settled on sending. */
    method Drop() returns (released: nat)
      requires bus.Valid() && id in bus.router.channels
      modifies bus.router
      ensures bus.Valid()
      ensures var s := old(bus.router.State());
        && bus.router.State() ==
             R.Unsubscribe(s.(channels := s.channels - {id}), id, if atMostOnce then [] else s.channels[id].items)
        && released == |s.channels[id].items|
    {
      ghost var before := bus.router.State();
      bus.router.channels := bus.router.channels[id := bus.router.channels[id].(open := false)];
      var pending;
      pending, released := Drain();
      ghost var drained := bus.router.State();
      bus.router.Unsubscribe(id, pending);
      T.CallLogs(drained, T.Unsubscribe(id, pending));
      UnsubscribeWithout(drained, id, pending);
      assert Without(drained, id) == Without(before, id);
      bus.router.channels := bus.router.channels - {id};
      StaysValid(drained, id, pending);
    }
  }
}
