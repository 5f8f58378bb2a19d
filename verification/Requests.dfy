/** The reply loop of an in-process request: what it returns, what it discards, and that every counted
    reply leaves the flight exactly once. */
module Requests {
  import opened Common
  import opened Message
  import opened Router

  /** The names one connection gives its requests: a private reply address, and the correlation id made
      of it. `name` and `mark` are the texts around the number. */
  function ReplyAddress(name: Bytes, number: nat): Bytes {
    name + Decimal(number)
  }

  function CorrelationOf(name: Bytes, mark: Bytes, number: nat): Bytes {
    ReplyAddress(name, number) + mark
  }

  lemma SameMiddle(a: Bytes, b: Bytes, c: Bytes, d: Bytes)
    requires (a + b) + d == (a + c) + d
    ensures b == c
  {
    assert |b| == |c|;
    assert ((a + b) + d)[|a|..|a| + |b|] == b;
    assert ((a + c) + d)[|a|..|a| + |c|] == c;
  }

  /** No two requests of a connection share a correlation id, or a reply address. */
  lemma CorrelationsDiffer(name: Bytes, mark: Bytes, i: nat, j: nat)
    ensures CorrelationOf(name, mark, i) == CorrelationOf(name, mark, j) <==> i == j
    ensures ReplyAddress(name, i) == ReplyAddress(name, j) <==> i == j
  {
    if CorrelationOf(name, mark, i) == CorrelationOf(name, mark, j) {
      SameMiddle(name, Decimal(i), Decimal(j), mark);
    }
    if ReplyAddress(name, i) == ReplyAddress(name, j) {
      assert ReplyAddress(name, i) + [] == ReplyAddress(name, j) + [];
      SameMiddle(name, Decimal(i), Decimal(j), []);
    }
    DecimalReadsBack(i);
    DecimalReadsBack(j);
  }

  predicate Correlated(d: Delivery, correlation: Bytes) {
    CORRELATION_ID in d.headers && d.headers[CORRELATION_ID] == correlation
  }

  /** The first correlated one among `replies`, if there is one. */
  predicate IsFirst(replies: seq<Delivery>, correlation: Bytes, i: nat) {
    i < |replies| && Correlated(replies[i], correlation) && forall j :: 0 <= j < i ==> !Correlated(replies[j], correlation)
  }

  /** Reads the reply channel until the correlated reply or the deadline, then detaches and drains what
      raced it. `arrived` are the deliveries of the channel in order, of which `before` arrive before
      the deadline. `released` counts the deliveries whose place in the flight is let go. */
  method AwaitReply(arrived: seq<Delivery>, before: nat, correlation: Bytes) returns (reply: Option<Delivery>, released: nat)
    requires before <= |arrived|
    ensures reply.Some? <==> exists i: nat | i < before :: IsFirst(arrived, correlation, i)
    ensures forall i: nat | i < before && IsFirst(arrived, correlation, i) :: reply == Some(arrived[i])
    ensures released == |arrived| - (if reply.Some? then 1 else 0)
  {
    reply, released := None, 0;
    var next := 0;
    while next < before && reply.None?
      invariant next <= before && released == next - (if reply.Some? then 1 else 0)
      invariant reply.None? ==> forall j :: 0 <= j < next ==> !Correlated(arrived[j], correlation)
      invariant reply.Some? ==> next > 0 && IsFirst(arrived, correlation, next - 1) && reply == Some(arrived[next - 1])
      decreases before - next, reply.None?
    {
      var delivery := arrived[next];
      next := next + 1;
      if CORRELATION_ID in delivery.headers && delivery.headers[CORRELATION_ID] == correlation {
        reply := Some(delivery);
      } else {
        released := released + 1;
      }
    }
    while next < |arrived|
      invariant next <= |arrived| && released == next - (if reply.Some? then 1 else 0)
    {
      next := next + 1;
      released := released + 1;
    }
  }

  /** A late answer to another request of the connection never resolves this one: a reply that answers
      request `j` is the one returned only if it is this request's own. */
  lemma ReplyIsItsOwn(name: Bytes, mark: Bytes, i: nat, j: nat, replies: seq<Delivery>, k: nat)
    requires IsFirst(replies, CorrelationOf(name, mark, i), k) && Correlated(replies[k], CorrelationOf(name, mark, j))
    ensures i == j
  {
    CorrelationsDiffer(name, mark, i, j);
  }
}
