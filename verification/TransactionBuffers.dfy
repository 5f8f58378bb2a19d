/** The transaction objects of the in-process transport, updated in place. The interleaved steps they
    are made of are those of `Transactions`. */
module TransactionBuffers {
  import opened Common
  import R = Router
  import T = Transactions
  import opened InProcess

  datatype Failure = Shut | Unsendable | NoTransaction | AlreadyOpen

  /** What a publish checks before it does anything. */
  method Check(bus: Bus, post: T.Post) returns (r: Result<Buffered, Failure>)
    ensures r.Ok? <==> !bus.closed && T.Sendable(post)
    ensures r.Ok? ==> r.value == T.MessageOf(post)
    ensures r.Err? ==> r.error == if bus.closed then Shut else Unsendable
  {
    if bus.closed {
      return Err(Shut);
    }
    if post.address == "" || post.framed.None? {
      return Err(Unsendable);
    }
    return Ok((post.address, post.framed.value));
  }

  /** The shared handle: the publishes of its open transaction, if one is open. */
  class TxnBuffer {
    const bus: Bus
    var open: Option<seq<Buffered>>

    constructor (bus: Bus)
      ensures this.bus == bus && open == None
    {
      this.bus, open := bus, None;
    }

    /** Holds the message back while a transaction is open, and routes it at once otherwise. */
    method Publish(post: T.Post) returns (r: Result<(), Failure>)
      requires bus.Valid()
      modifies this, bus.router
      ensures bus.Valid()
      ensures var s, live := old(bus.router.State()), !bus.closed && T.Sendable(post);
        && open == (if live && old(open).Some? then Some(old(open).value + [T.MessageOf(post)]) else old(open))
        && bus.router.State() == (if live && old(open).None? then R.PublishOne(s, post.address, post.framed.value) else s)
        && (r.Ok? <==> live)
    {
      var checked := Check(bus, post);
      if checked.Err? {
        return Err(checked.error);
      }
      if open.Some? {
        open := Some(open.value + [checked.value]);
      } else {
        var routed := bus.Route(checked.value.0, checked.value.1);
        if routed.Err? {
          return Err(Shut);
        }
      }
      return Ok(());
    }

    method Begin() returns (r: Result<(), Failure>)
      modifies this
      ensures open == if !bus.closed && old(open).None? then Some([]) else old(open)
      ensures r == if bus.closed then Err(Shut) else if old(open).Some? then Err(AlreadyOpen) else Ok(())
    {
      if bus.closed {
        return Err(Shut);
      }
      if open.Some? {
        return Err(AlreadyOpen);
      }
      open := Some([]);
      return Ok(());
    }

    /** Takes the open transaction, whatever is reported after it. */
    method Take() returns (r: Result<seq<Buffered>, Failure>)
      modifies this
      ensures open == None
      ensures r == if old(open).Some? then Ok(old(open).value) else Err(NoTransaction)
    {
      if open.None? {
        return Err(NoTransaction);
      }
      r := Ok(open.value);
      open := None;
    }

    /** Routes the whole transaction, or nothing of it; either way it is over. */
    method Commit() returns (r: Result<(), Failure>)
      requires bus.Valid()
      modifies this, bus.router
      ensures bus.Valid() && open == None
      ensures r == if old(open).None? then Err(NoTransaction) else if bus.closed then Err(Shut) else Ok(())
      ensures bus.router.State() == if r.Ok? then R.PublishAll(old(bus.router.State()), old(open).value) else old(bus.router.State())
    {
      var taken := Take();
      if taken.Err? {
        return Err(taken.error);
      }
      if bus.closed {
        return Err(Shut);
      }
      var routed := bus.RouteAll(taken.value);
      return if routed.Ok? then Ok(()) else Err(Shut);
    }

    method Abort() returns (r: Result<(), Failure>)
      modifies this
      ensures open == None
      ensures r == if old(open).None? then Err(NoTransaction) else if bus.closed then Err(Shut) else Ok(())
    {
      var taken := Take();
      if taken.Err? {
        return Err(taken.error);
      }
      return if bus.closed then Err(Shut) else Ok(());
    }

    /** An owned transaction: a buffer of its own on the same connection. */
    method OpenOwned() returns (r: Result<OwnedBuffer, Failure>)
      ensures r.Ok? <==> !bus.closed
      ensures r.Ok? ==> fresh(r.value) && r.value.bus == bus && r.value.buffered == []
      ensures r.Err? ==> r.error == Shut
    {
      if bus.closed {
        return Err(Shut);
      }
      var owned := new OwnedBuffer(bus);
      return Ok(owned);
    }
  }

  class OwnedBuffer {
    const bus: Bus
    var buffered: seq<Buffered>

    constructor (bus: Bus)
      ensures this.bus == bus && buffered == []
    {
      this.bus, buffered := bus, [];
    }

    method Publish(post: T.Post) returns (r: Result<(), Failure>)
      modifies this
      ensures r.Ok? <==> !bus.closed && T.Sendable(post)
      ensures buffered == if r.Ok? then old(buffered) + [T.MessageOf(post)] else old(buffered)
    {
      var checked := Check(bus, post);
      if checked.Err? {
        return Err(checked.error);
      }
      buffered := buffered + [checked.value];
      return Ok(());
    }

    method Commit() returns (r: Result<(), Failure>)
      requires bus.Valid()
      modifies bus.router
      ensures bus.Valid()
      ensures r == if bus.closed then Err(Shut) else Ok(())
      ensures bus.router.State() == if r.Ok? then R.PublishAll(old(bus.router.State()), buffered) else old(bus.router.State())
    {
      if bus.closed {
        return Err(Shut);
      }
      var routed := bus.RouteAll(buffered);
      return if routed.Ok? then Ok(()) else Err(Shut);
    }

    method Abort() returns (r: Result<(), Failure>)
      ensures r == if bus.closed then Err(Shut) else Ok(())
    {
      return if bus.closed then Err(Shut) else Ok(());
    }
  }
}
