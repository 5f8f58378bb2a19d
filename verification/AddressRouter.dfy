/** The registry as the object its handles share: every operation updates it in place under the
    lock, and does to its state what the routing functions say. */
module AddressRouters {
  import opened Common
  import R = Router
  import P = RouterPrediction

  class AddressRouter {
    var subscriptions: map<nat, R.Subscription>
    var channels: map<nat, R.Channel>
    var log: map<string, seq<R.Logged>>
    var anycastTurn: map<string, nat>
    var queues: map<string, seq<R.Delivery>>
    var outstanding: map<nat, seq<R.Delivery>>
    var nextId: nat
    var closed: bool

    ghost function State(): R.State
      reads this
    {
      R.State(subscriptions, channels, log, anycastTurn, queues, outstanding, nextId, closed)
    }

    constructor ()
      ensures State() == R.Fresh()
    {
      subscriptions, channels, log, anycastTurn, queues, outstanding := map[], map[], map[], map[], map[], map[];
      nextId, closed := 0, false;
    }

    /** Sends one delivery and says whether the channel took it. */
    method Send(id: nat, d: R.Delivery) returns (sent: bool)
      requires id in channels
      modifies this`channels
      ensures State() == R.Send(old(State()), id, d) && sent == R.Takes(old(State()), id)
    {
      sent := channels[id].open;
      if sent {
        channels := channels[id := channels[id].(items := channels[id].items + [d])];
      } else {
        assert channels[id := channels[id]] == channels;
      }
    }

    /** The ids of the competing consumers of an address, in attach order. */
    method Competitors(address: string) returns (ids: seq<nat>)
      ensures ids == R.Competing(State(), address, nextId)
    {
      ids := [];
      for id := 0 to nextId
        invariant ids == R.Competing(State(), address, id)
      {
        if id in subscriptions && subscriptions[id].address == address && subscriptions[id].routing.Anycast? {
          ids := ids + [id];
        }
      }
    }

    /** Hands the delivery to one competing consumer, in turn, going on until one takes it. */
    method HandToOne(address: string, d: R.Delivery)
      requires R.Valid(State())
      modifies this`channels, this`anycastTurn, this`queues
      ensures State() == R.HandToOne(old(State()), address, d) && R.Valid(State())
    {
      var competing := Competitors(address);
      if competing != [] {
        var first := R.Get(anycastTurn, address, 0);
        anycastTurn := anycastTurn[address := (first + 1) % R.WRAP];
        ghost var begun := State();
        for offset := 0 to |competing|
          invariant State() == begun && R.Valid(begun)
          invariant R.Offer(begun, address, d, competing, first, 0) == R.Offer(begun, address, d, competing, first, offset)
        {
          var id := competing[R.Place(first, offset, |competing|)];
          assert id in competing;
          var sent := Send(id, d);
          if sent {
            return;
          }
          assert R.Send(begun, id, d) == begun;
        }
      }
      if address in queues {
        queues := queues[address := queues[address] + [d]];
      }
    }

    /** Sends a copy to every topic subscription, whatever order the registry lists them in. */
    method CopyToTopics(address: string, d: R.Delivery)
      requires R.Valid(State())
      modifies this`channels
      ensures State() == R.Copy(old(State()), address, d) && R.Valid(State())
    {
      ghost var before := State();
      var left := subscriptions.Keys;
      R.CopyNone(before, address, d);
      while left != {}
        invariant left <= before.subs.Keys
        invariant State() == R.CopyOutside(before, address, d, left) && R.Valid(State())
        decreases left
      {
        var id :| id in left;
        R.CopyOneMore(before, address, d, left, id);
        left := left - {id};
        if subscriptions[id].address == address && subscriptions[id].routing.Multicast? {
          var _ := Send(id, d);
        }
      }
    }

    /** Logs one message and routes it: a copy to every topic subscription, and the message to one
        queue subscription. */
    method PublishOne(address: string, d: R.Delivery)
      requires R.Valid(State())
      modifies this`channels, this`anycastTurn, this`queues, this`log
      ensures State() == R.PublishOne(old(State()), address, d) && R.Valid(State())
    {
      log := log[address := R.Get(log, address, []) + [R.Logged(d.payload, d.headers)]];
      CopyToTopics(address, d);
      HandToOne(address, d);
    }

    method Publish(address: string, d: R.Delivery) returns (routed: bool)
      requires R.Valid(State())
      modifies this`channels, this`anycastTurn, this`queues, this`log
      ensures routed == !old(closed)
      ensures State() == (if routed then R.PublishOne(old(State()), address, d) else old(State())) && R.Valid(State())
    {
      if closed {
        return false;
      }
      PublishOne(address, d);
      return true;
    }

    /** Publishes every message of a committed transaction, or none once the connection is closed. */
    method PublishAll(messages: seq<(string, R.Delivery)>) returns (routed: bool)
      requires R.Valid(State())
      modifies this`channels, this`anycastTurn, this`queues, this`log
      ensures routed == !old(closed)
      ensures State() == (if routed then R.PublishAll(old(State()), messages) else old(State())) && R.Valid(State())
    {
      if closed {
        return false;
      }
      for i := 0 to |messages|
        invariant State() == R.PublishAll(old(State()), messages[..i]) && R.Valid(State())
      {
        assert messages[..i + 1][..i] == messages[..i];
        PublishOne(messages[i].0, messages[i].1);
      }
      assert messages[..|messages|] == messages;
      return true;
    }

    /** Registers a subscription; a queue subscription takes over what the address's queue holds. */
    method Subscribe(address: string, routing: R.Routing) returns (id: Option<nat>)
      requires R.Valid(State())
      modifies this
      ensures State() == R.Subscribe(old(State()), address, routing) && R.Valid(State())
      ensures id == if old(closed) then None else Some(old(nextId))
    {
      var id0 := nextId;
      nextId := nextId + 1;
      if closed {
        return None;
      }
      var channel := R.Channel(true, []);
      if routing.Anycast? {
        var stored := R.Get(queues, address, []);
        for i := 0 to |stored|
          invariant channel == R.Channel(true, stored[..i])
        {
          channel := channel.(items := channel.items + [stored[i]]);
        }
        assert stored[..|stored|] == stored;
        queues := queues[address := []];
      }
      channels := channels[id0 := channel];
      subscriptions := subscriptions[id0 := R.Subscription(address, routing)];
      return Some(id0);
    }

    /** How many queue and topic subscriptions are attached to an address. */
    method Termini(address: string) returns (anycast: nat, multicast: nat)
      ensures anycast == |R.Competing(State(), address, nextId)| && multicast == P.Topics(State(), address, nextId)
    {
      anycast, multicast := 0, 0;
      for id := 0 to nextId
        invariant anycast == |R.Competing(State(), address, id)| && multicast == P.Topics(State(), address, id)
      {
        if id in subscriptions && subscriptions[id].address == address {
          if subscriptions[id].routing.Anycast? {
            anycast := anycast + 1;
          } else {
            multicast := multicast + 1;
          }
        }
      }
    }

    /** Marks, in attach order, the subscriptions the next publish reaches. */
    method Recipients(address: string) returns (marks: seq<bool>)
      requires R.Valid(State())
      ensures marks == P.Recipients(State(), address, nextId)
    {
      var competing := Competitors(address);
      var turn := R.Get(anycastTurn, address, 0);
      marks := [];
      var anycast := 0;
      for id := 0 to nextId
        invariant marks == P.Recipients(State(), address, id) && anycast == |R.Competing(State(), address, id)|
      {
        if id in subscriptions && subscriptions[id].address == address {
          if subscriptions[id].routing.Multicast? {
            marks := marks + [true];
          } else {
            assert id in competing;
            marks := marks + [anycast == turn % |competing|];
            anycast := anycast + 1;
          }
        }
      }
    }

    /** Hands deliveries back to their address, one after another. */
    method HandBack(address: string, back: seq<R.Delivery>)
      requires R.Valid(State())
      modifies this`channels, this`anycastTurn, this`queues
      ensures State() == R.HandAll(old(State()), address, back) && R.Valid(State())
    {
      for i := 0 to |back|
        invariant State() == R.HandAll(old(State()), address, back[..i]) && R.Valid(State())
      {
        assert back[..i + 1][..i] == back[..i];
        HandToOne(address, back[i]);
      }
      assert back[..|back|] == back;
    }

    /** Removes the address's queue once it is empty with no consumer left. */
    method PruneQueue(address: string)
      requires R.Valid(State())
      modifies this`queues
      ensures State() == R.Prune(old(State()), address) && R.Valid(State())
    {
      var consumers := Competitors(address);
      if consumers == [] && address in queues && queues[address] == [] {
        queues := queues - {address};
      }
    }

    /** Removes a subscription and hands back what it held unsettled: what its consumer dropped, then
        `pending`, what its consumer never read. */
    method Unsubscribe(id: nat, pending: seq<R.Delivery>)
      requires R.Valid(State())
      modifies this
      ensures State() == R.Unsubscribe(old(State()), id, pending) && R.Valid(State())
    {
      if id !in subscriptions {
        return;
      }
      var sub := subscriptions[id];
      var held := R.Get(outstanding, id, []);
      subscriptions := subscriptions - {id};
      outstanding := outstanding - {id};
      if sub.routing.Anycast? {
        HandBack(sub.address, held + pending);
      }
      PruneQueue(sub.address);
    }

    /** Keeps a delivery its consumer dropped on its subscription, or hands it back at once. */
    method Release(id: nat, address: string, d: R.Delivery)
      requires R.Valid(State())
      modifies this
      ensures State() == R.Release(old(State()), id, address, d) && R.Valid(State()) && closed == old(closed)
    {
      if closed {
        return;
      }
      if id in subscriptions {
        outstanding := outstanding[id := R.Get(outstanding, id, []) + [d]];
      } else {
        HandToOne(address, d);
      }
    }

    /** Returns a released delivery to the subscription that had it, or to another consumer. */
    method Requeue(id: nat, address: string, d: R.Delivery) returns (returned: bool)
      requires R.Valid(State())
      modifies this
      ensures State() == R.Requeue(old(State()), id, address, d) && R.Valid(State()) && closed == old(closed)
      ensures returned == !old(closed)
    {
      if closed {
        return false;
      }
      if id in subscriptions {
        var _ := Send(id, d);
      } else {
        HandToOne(address, d);
      }
      return true;
    }

    method Published(address: string) returns (messages: seq<R.Logged>)
      ensures messages == R.Get(State().log, address, [])
    {
      messages := R.Get(log, address, []);
    }

    method Close()
      modifies this
      ensures State() == R.Close(old(State())) && (old(R.Valid(State())) ==> R.Valid(State()))
    {
      closed := true;
      subscriptions, anycastTurn, queues, outstanding := map[], map[], map[], map[];
    }
  }
}
