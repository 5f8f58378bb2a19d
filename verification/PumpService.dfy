/** What a pump does for the two it works for: its subscriber, who reads the channel, and the handlers,
    who hold deliveries and settle them. What either did is read off the events of a run. */
module PumpService {
  import opened Common
  import opened Pump

  // -- The kinds of turns ------------------------------------------------------------------------

  /** What one turn comes to: it moves on, takes a settlement off the queue, finishes one, leaves the
      loop, passes the item at hand to the channel (and leaves, after a failed link), rejects an
      unreadable delivery, or receives. */
  datatype Move = MovesOn | Takes | Finishes | Leaves | Passes | PassesLast | Rejects | Gets(r: Received)

  predicate Room(s: State) {
    |s.out| < s.capacity && !s.subscriberGone
  }

  predicate Did(s: State, s': State, m: Move) {
    match m
    case MovesOn =>
      && s' == s.(phase := s'.phase, sessionEnded := s'.sessionEnded)
      && !Applies(s.phase) && !Applies(s'.phase) && Winds(s'.phase) == Winds(s.phase) && Rest(s') == Rest(s)
    case Takes =>
      && s.commands != [] && !Applies(s.phase) && Applies(s'.phase) && s'.phase.command == s.commands[0]
      && s' == s.(phase := s'.phase, commands := s.commands[1..]) && Winds(s'.phase) == Winds(s.phase) && Rest(s') == Rest(s)
    case Finishes =>
      && Applies(s.phase) && !Applies(s'.phase) && s' == Apply(s, s.phase.command).(phase := s'.phase)
      && Winds(s'.phase) == Winds(s.phase) && Rest(s') == Rest(s)
    case Leaves => InLoop(s) && !Applies(s.phase) && s' == Break(s, s'.fatal, Rest(s))
    case Passes =>
      && InLoop(s) && !Applies(s.phase) && Rest(s).Some? && Room(s)
      && s' == Send(s, Rest(s).value).(pending := None, phase := IdleCommands)
    case PassesLast =>
      InLoop(s) && !Applies(s.phase) && s.pending.None? && Rest(s).Some? && Room(s) && s' == Break(Send(s, Rest(s).value), true, None)
    case Rejects =>
      && s.phase.Rejecting?
      && s' == s.(dispositions := s.dispositions + [Command(s.phase.serial, Reject)], phase := DeliverStop(Failure(s.phase.serial), false))
    case Gets(r) => s.phase.IdleReceive? && s' == Receive(s, r)
  }

  lemma CommandsMove(s: State, s': State) returns (m: Move)
    requires Shape(s) && (s.phase.IdleCommands? || s.phase.PendCommands?) && s' == TurnStep(s, None)
    ensures Did(s, s', m) && m == if s.commands == [] then MovesOn else Takes
  {
    m := if s.commands == [] then MovesOn else Takes;
  }

  lemma IdleMoves(s: State, s': State) returns (m: Move)
    requires Shape(s) && (s.phase.IdleClosed? || s.phase.IdleStop? || s.phase.IdleReceive?) && s' == TurnStep(s, None)
    ensures Did(s, s', m) && (m.MovesOn? || m.Leaves?)
  {
    m := if (s.phase.IdleClosed? && s.subscriberGone) || (s.phase.IdleStop? && s.stop) then Leaves else MovesOn;
  }

  lemma PendMoves(s: State, s': State) returns (m: Move)
    requires Shape(s) && (s.phase.PendReserve? || s.phase.PendStop?) && s' == TurnStep(s, None)
    ensures Did(s, s', m)
  {
    m := if s.phase.PendReserve? && Room(s) then Passes
      else if (s.phase.PendReserve? && s.subscriberGone) || (s.phase.PendStop? && s.stop) then Leaves else MovesOn;
  }

  lemma AppliedMoves(s: State, s': State) returns (m: Move)
    requires Shape(s) && (Applies(s.phase) || s.phase.Rejecting?) && s' == TurnStep(s, None)
    ensures Did(s, s', m)
  {
    m := if s.phase.Rejecting? then Rejects else Finishes;
  }

  lemma DeliverMoves(s: State, s': State) returns (m: Move)
    requires Shape(s) && Delivers(s.phase) && s' == TurnStep(s, None)
    ensures Did(s, s', m)
  {
    m := if s.phase.DeliverSend? && Room(s) then (if s.phase.fatal then PassesLast else Passes)
      else if (s.phase.DeliverSend? && s.subscriberGone) || (s.phase.DeliverStop? && s.stop) then Leaves else MovesOn;
  }

  lemma DrainCommandsMoves(s: State, s': State) returns (m: Move)
    requires Shape(s) && s.phase.DrainCommands? && s' == TurnStep(s, None)
    ensures Did(s, s', m)
  {
    m := if s.commands != [] then Takes else MovesOn;
  }

  lemma DrainStopMoves(s: State, s': State)
    requires Shape(s) && s.phase.DrainStop? && s' == TurnStep(s, None)
    ensures Did(s, s', MovesOn)
  {
  }

  lemma EndMoves(s: State, s': State) returns (m: Move)
    requires Shape(s) && Past(s.phase) && s' == TurnStep(s, None)
    ensures Did(s, s', m)
  {
    m := MovesOn;
  }

  lemma TurnMoves(s: State, s': State, arrives: Option<Received>) returns (m: Move)
    requires Shape(s) && s' == TurnStep(s, arrives)
    ensures Did(s, s', m)
  {
    if s.phase.IdleReceive? && arrives.Some? {
      m := Gets(arrives.value);
    } else {
      match s.phase
      case IdleCommands => m := CommandsMove(s, s');
      case PendCommands => m := CommandsMove(s, s');
      case IdleClosed => m := IdleMoves(s, s');
      case IdleStop => m := IdleMoves(s, s');
      case IdleReceive => m := IdleMoves(s, s');
      case PendReserve => m := PendMoves(s, s');
      case PendStop => m := PendMoves(s, s');
      case Applying(_) => m := AppliedMoves(s, s');
      case DrainApplying(_) => m := AppliedMoves(s, s');
      case Rejecting(_) => m := AppliedMoves(s, s');
      case DeliverStop(_, _) => m := DeliverMoves(s, s');
      case DeliverSend(_, _) => m := DeliverMoves(s, s');
      case DrainCommands => m := DrainCommandsMoves(s, s');
      case DrainStop => DrainStopMoves(s, s'); m := MovesOn;
      case _ => m := EndMoves(s, s');
    }
  }

  // -- The signals -------------------------------------------------------------------------------

  lemma MoveKeepsSignals(s: State, s': State, m: Move)
    requires Did(s, s', m)
    ensures s'.stop == s.stop && s'.subscriberGone == s.subscriberGone && s'.capacity == s.capacity && s'.atMostOnce == s.atMostOnce
  {
    match m
    case Gets(r) => GetsKeepsSignals(s, s', r);
    case MovesOn =>
    case Takes =>
    case Finishes =>
    case Leaves =>
    case Passes =>
    case PassesLast =>
    case Rejects =>
  }

  lemma GetsKeepsSignals(s: State, s': State, r: Received)
    requires s' == Receive(s, r)
    ensures s'.stop == s.stop && s'.subscriberGone == s.subscriberGone && s'.capacity == s.capacity && s'.atMostOnce == s.atMostOnce
  {
    match r
    case Readable =>
    case Unreadable =>
    case Failed(_) =>
  }

  lemma SettleSignals(s: State, s': State, n: nat, kind: Kind)
    requires s' == Step(s, Settle(n, kind))
    ensures s'.stop == s.stop && s'.subscriberGone == s.subscriberGone
    ensures s'.capacity == s.capacity && s'.atMostOnce == s.atMostOnce
  {
  }

  lemma ForgetSignals(s: State, s': State, n: nat)
    requires s' == Step(s, Forget(n))
    ensures s'.stop == s.stop && s'.subscriberGone == s.subscriberGone
    ensures s'.capacity == s.capacity && s'.atMostOnce == s.atMostOnce
  {
  }

  lemma WorldSignals(s: State, s': State, e: Event)
    requires (e.Stop? || e.Take? || e.LeaveStream?) && s' == Step(s, e)
    ensures s'.stop == (s.stop || e.Stop?) && s'.subscriberGone == (s.subscriberGone || e.LeaveStream?)
    ensures s'.capacity == s.capacity && s'.atMostOnce == s.atMostOnce
  {
  }

  lemma OtherSignals(s: State, s': State, e: Event)
    requires !e.Turn? && s' == Step(s, e)
    ensures s'.stop == (s.stop || e.Stop?) && s'.subscriberGone == (s.subscriberGone || e.LeaveStream?)
    ensures s'.capacity == s.capacity && s'.atMostOnce == s.atMostOnce
  {
    match e
    case Settle(n, kind) => SettleSignals(s, s', n, kind);
    case Forget(n) => ForgetSignals(s, s', n);
    case _ => WorldSignals(s, s', e);
  }

  lemma InFrontOrLast(events: seq<Event>, e: Event)
    requires events != []
    ensures e in events <==> e in events[..|events| - 1] || events[|events| - 1] == e
  {
    assert events == events[..|events| - 1] + [events[|events| - 1]];
  }

  /** In every run the pump is stopped exactly if shutdown has begun, and its subscriber is gone exactly
      if it was dropped. */
  lemma {:induction false} SignalsAreEvents(capacity: nat, atMostOnce: bool, events: seq<Event>)
    ensures var s := Run(capacity, atMostOnce, events);
      && (s.stop <==> Stop in events) && (s.subscriberGone <==> LeaveStream in events)
      && s.capacity == capacity && s.atMostOnce == atMostOnce
  {
    if events != [] {
      var front, last := events[..|events| - 1], events[|events| - 1];
      var s, s' := Run(capacity, atMostOnce, front), Run(capacity, atMostOnce, events);
      SignalsAreEvents(capacity, atMostOnce, front);
      InFrontOrLast(events, Stop);
      InFrontOrLast(events, LeaveStream);
      if last.Turn? {
        RunKeeps(capacity, atMostOnce, front);
        var m := TurnMoves(s, s', last.arrives);
        MoveKeepsSignals(s, s', m);
      } else {
        OtherSignals(s, s', last);
      }
    }
  }

  // -- The subscriber ----------------------------------------------------------------------------

  /** What a subscriber takes off its stream in one step. */
  function TakenBy(s: State, e: Event): seq<Item> {
    if e.Take? && !s.subscriberGone && s.out != [] then [s.out[0]] else []
  }

  /** What the subscriber has taken off its stream, in order. */
  function Taken(capacity: nat, atMostOnce: bool, events: seq<Event>): seq<Item> {
    if events == [] then []
    else
      var front := events[..|events| - 1];
      Taken(capacity, atMostOnce, front) + TakenBy(Run(capacity, atMostOnce, front), events[|events| - 1])
  }

  /** The channel holds what was sent and not taken, until it is dropped for a subscriber that is gone. */
  predicate Reading(s: State, taken: seq<Item>) {
    && taken + s.out <= s.sent
    && (!(s.subscriberGone && Winds(s.phase)) ==> taken + s.out == s.sent)
    && |s.out| <= s.capacity
  }

  lemma PassKeepsReading(s: State, s1: State, taken: seq<Item>, i: Item)
    requires Reading(s, taken) && InLoop(s) && Room(s) && s1 == Send(s, i)
    ensures taken + s1.out == s1.sent && |s1.out| <= s1.capacity
  {
    assert taken + (s.out + [i]) == (taken + s.out) + [i];
  }

  lemma MoveKeepsReading(s: State, s': State, m: Move, taken: seq<Item>)
    requires Reading(s, taken) && Did(s, s', m)
    ensures Reading(s', taken)
  {
    match m
    case Gets(r) => GetsKeepsReading(s, s', r, taken);
    case Passes => PassKeepsReading(s, Send(s, Rest(s).value), taken, Rest(s).value);
    case PassesLast => PassKeepsReading(s, Send(s, Rest(s).value), taken, Rest(s).value);
    case Leaves => assert taken + [] <= taken + s.out;
    case MovesOn =>
    case Takes =>
    case Finishes =>
    case Rejects =>
  }

  lemma GetsKeepsReading(s: State, s': State, r: Received, taken: seq<Item>)
    requires Reading(s, taken) && s.phase.IdleReceive? && s' == Receive(s, r)
    ensures Reading(s', taken)
  {
    match r
    case Readable =>
    case Unreadable =>
    case Failed(_) =>
  }

  /** What handlers and shutdown do touches neither the channel nor the subscriber. */
  lemma QuietChannel(s: State, s': State, e: Event)
    requires (e.Settle? || e.Forget? || e.Stop?) && s' == Step(s, e)
    ensures s'.out == s.out && s'.sent == s.sent && s'.capacity == s.capacity
    ensures s'.subscriberGone == s.subscriberGone && s'.phase == s.phase
  {
    match e
    case Settle(_, _) =>
    case Forget(_) =>
    case Stop =>
  }

  lemma TakeKeepsReading(s: State, s': State, taken: seq<Item>)
    requires Reading(s, taken) && s' == Step(s, Take)
    ensures Reading(s', taken + TakenBy(s, Take))
  {
    if s.subscriberGone || s.out == [] {
      assert taken + [] == taken;
    } else {
      assert s.out == [s.out[0]] + s.out[1..];
      assert (taken + [s.out[0]]) + s.out[1..] == taken + s.out;
    }
  }

  lemma LeaveKeepsReading(s: State, s': State, taken: seq<Item>)
    requires Reading(s, taken) && s' == Step(s, LeaveStream)
    ensures Reading(s', taken)
  {
    assert taken + [] <= taken + s.out;
  }

  lemma SameChannelReads(s: State, s': State, taken: seq<Item>)
    requires Reading(s, taken) && s'.out == s.out && s'.sent == s.sent && s'.capacity == s.capacity
    requires s'.subscriberGone == s.subscriberGone && s'.phase == s.phase
    ensures Reading(s', taken)
  {
  }

  lemma OtherKeepsReading(s: State, s': State, e: Event, taken: seq<Item>)
    requires Reading(s, taken) && !e.Turn? && s' == Step(s, e)
    ensures Reading(s', taken + TakenBy(s, e))
  {
    assert taken + [] == taken;
    match e
    case Take => TakeKeepsReading(s, s', taken);
    case LeaveStream => LeaveKeepsReading(s, s', taken);
    case _ => QuietChannel(s, s', e); SameChannelReads(s, s', taken);
  }

  lemma {:induction false} RunReads(capacity: nat, atMostOnce: bool, events: seq<Event>)
    ensures Reading(Run(capacity, atMostOnce, events), Taken(capacity, atMostOnce, events))
  {
    if events != [] {
      var front, last := events[..|events| - 1], events[|events| - 1];
      var s, s', taken := Run(capacity, atMostOnce, front), Run(capacity, atMostOnce, events), Taken(capacity, atMostOnce, front);
      RunReads(capacity, atMostOnce, front);
      if last.Turn? {
        RunKeeps(capacity, atMostOnce, front);
        var m := TurnMoves(s, s', last.arrives);
        MoveKeepsReading(s, s', m, taken);
        assert taken + [] == taken;
      } else {
        OtherKeepsReading(s, s', last, taken);
      }
    }
  }

  /** In every run the subscriber reads one item for each receive, in the order of the receives, without
      a gap; what it has not read yet, until it goes, waits in the channel, never more than fits. */
  lemma SubscriberReadsInOrder(capacity: nat, atMostOnce: bool, events: seq<Event>)
    ensures var s, taken := Run(capacity, atMostOnce, events), Taken(capacity, atMostOnce, events);
      && taken <= Items(s.received) && |s.out| <= capacity
      && (LeaveStream !in events ==> taken + s.out <= Items(s.received) && |s.received| - 1 <= |taken| + |s.out|)
  {
    RunReads(capacity, atMostOnce, events);
    OneItemPerReceive(capacity, atMostOnce, events);
    SignalsAreEvents(capacity, atMostOnce, events);
  }

  // -- The handlers ------------------------------------------------------------------------------

  /** A handler of delivery `n` settles it, drops it, or stops waiting, while it has it. */
  predicate LetsGo(s: State, e: Event, n: nat) {
    InHand(s, n) && ((e.Settle? && e.serial == n) || (e.Forget? && e.serial == n))
  }

  predicate LetGo(capacity: nat, atMostOnce: bool, events: seq<Event>, n: nat) {
    events != [] &&
    var front := events[..|events| - 1];
    LetGo(capacity, atMostOnce, front, n) || LetsGo(Run(capacity, atMostOnce, front), events[|events| - 1], n)
  }

  /** The message is at hand, in the channel, or with the subscriber. */
  predicate Somewhere(s: State, taken: seq<Item>, n: nat) {
    s.pending == Some(n) || Message(n) in s.out || Message(n) in taken
  }

  predicate Live(s: State, taken: seq<Item>, gone: bool, n: nat) {
    && (n in s.handles <==> !s.atMostOnce && Somewhere(s, taken, n) && !gone)
    && (gone ==> n < |s.received|)
  }

  lemma {:induction false} ItemSerials(received: seq<Received>, i: nat)
    requires i < |received|
    ensures |Items(received)| == |received| && Items(received)[i].serial == i
    ensures Items(received)[i].Message? <==> received[i].Readable?
  {
    var n := |received| - 1;
    ItemsLength(received);
    ItemsLength(received[..n]);
    if i < n {
      ItemSerials(received[..n], i);
    }
  }

  lemma SentSerials(s: State, i: nat)
    requires Stream(s) && i < |s.sent|
    ensures s.sent[i].serial == i && i < |s.received|
  {
    ItemsLength(s.received);
    assert s.sent[i] == Items(s.received)[i];
    ItemSerials(s.received, i);
  }

  /** The number of the item at hand is the number of items sent. */
  lemma RestSerial(s: State)
    requires Stream(s) && Rest(s).Some?
    ensures Rest(s).value.serial == |s.sent| == |s.received| - 1
    ensures Rest(s).value.Message? <==> s.received[|s.sent|].Readable?
  {
    ItemsLength(s.received);
    assert Items(s.received)[|s.sent|] == Rest(s).value;
    ItemSerials(s.received, |s.sent|);
  }

  lemma TakenSerials(s: State, taken: seq<Item>, i: Item)
    requires Stream(s) && Reading(s, taken)
    ensures i in taken ==> i.serial < |taken|
    ensures i in s.out ==> |taken| <= i.serial < |s.sent|
    ensures |taken| + |s.out| <= |s.sent| <= |s.received|
  {
    var all := taken + s.out;
    ItemsLength(s.received);
    if i in taken {
      var k :| 0 <= k < |taken| && taken[k] == i;
      assert all[k] == s.sent[k];
      SentSerials(s, k);
    }
    if i in s.out {
      var k :| 0 <= k < |s.out| && s.out[k] == i;
      assert all[|taken| + k] == s.sent[|taken| + k];
      SentSerials(s, |taken| + k);
    }
  }

  lemma PendingIsRest(s: State)
    requires Shape(s) && Stream(s) && s.pending.Some?
    ensures Rest(s) == Some(Message(s.pending.value)) && s.pending.value == |s.sent| == |s.received| - 1
  {
    RestSerial(s);
  }

  /** A live handle's delivery was received, before any that is still to come. */
  lemma HandleReceived(s: State, n: nat)
    requires Inv(s) && n in s.handles
    ensures n < |s.received|
  {
    assert Once(s, n);
  }

  lemma GetsKeepsLive(s: State, s': State, r: Received, taken: seq<Item>, gone: bool, n: nat)
    requires Inv(s) && Reading(s, taken) && Live(s, taken, gone, n) && s.phase.IdleReceive? && s' == Receive(s, r)
    ensures Live(s', taken, gone, n)
  {
    TakenSerials(s, taken, Message(n));
    match r
    case Readable =>
    case Unreadable =>
    case Failed(_) =>
  }

  /** Leaving the loop drops the item at hand, and the channel of a subscriber that is gone. */
  lemma LeavesKeepsLive(s: State, s': State, taken: seq<Item>, gone: bool, n: nat)
    requires Inv(s) && Reading(s, taken) && Live(s, taken, gone, n) && InLoop(s) && s' == Break(s, s'.fatal, Rest(s))
    ensures Live(s', taken, gone, n)
  {
    TakenSerials(s, taken, Message(n));
    if s.pending.Some? { PendingIsRest(s); }
    if Rest(s).Some? { RestSerial(s); }
    DroppedSerials(s, taken, n);
  }

  /** What is dropped with serial `n` is nowhere else. */
  lemma DroppedSerials(s: State, taken: seq<Item>, n: nat)
    requires Inv(s) && Reading(s, taken)
    ensures Message(n) in s.out ==> n in SerialsOf(s.out)
    ensures n in SerialsOf(s.out) ==> Message(n) !in taken && s.pending != Some(n)
    ensures Rest(s).Some? && InLoop(s) && Rest(s).value.serial == n ==> Message(n) !in taken && Message(n) !in s.out
  {
    TakenSerials(s, taken, Message(n));
    if s.pending.Some? { PendingIsRest(s); }
    if Rest(s).Some? { RestSerial(s); }
    if n in SerialsOf(s.out) {
      var i :| i in s.out && i.serial == n;
      TakenSerials(s, taken, i);
    }
  }

  lemma PassesKeepsLive(s: State, s1: State, taken: seq<Item>, gone: bool, n: nat)
    requires Inv(s) && Reading(s, taken) && Live(s, taken, gone, n) && InLoop(s) && Rest(s).Some?
    requires s1 == Send(s, Rest(s).value).(pending := None)
    ensures Live(s1, taken, gone, n)
  {
    RestSerial(s);
    if s.pending.Some? { PendingIsRest(s); }
    if Message(n) == Rest(s).value { MessageAtHandIsPending(s, n); }
  }

  lemma MessageAtHandIsPending(s: State, n: nat)
    requires Inv(s) && InLoop(s) && Rest(s) == Some(Message(n))
    ensures s.pending == Some(n)
  {
  }

  lemma MoveKeepsLive(s: State, s': State, m: Move, taken: seq<Item>, gone: bool, n: nat)
    requires Inv(s) && Reading(s, taken) && Live(s, taken, gone, n) && Did(s, s', m)
    ensures Live(s', taken, gone, n)
  {
    match m
    case Gets(r) => GetsKeepsLive(s, s', r, taken, gone, n);
    case Leaves => LeavesKeepsLive(s, s', taken, gone, n);
    case Passes => PassesKeepsLive(s, Send(s, Rest(s).value).(pending := None), taken, gone, n);
    case PassesLast => PassesLastKeepsLive(s, s', taken, gone, n);
    case MovesOn =>
    case Takes =>
    case Finishes =>
    case Rejects =>
  }

  lemma PassesLastKeepsLive(s: State, s': State, taken: seq<Item>, gone: bool, n: nat)
    requires Inv(s) && Reading(s, taken) && Live(s, taken, gone, n) && Did(s, s', PassesLast)
    ensures Live(s', taken, gone, n)
  {
    if Message(n) == Rest(s).value { MessageAtHandIsPending(s, n); }
    assert s'.handles == s.handles - {};
  }

  lemma TakeKeepsLive(s: State, s': State, taken: seq<Item>, gone: bool, n: nat)
    requires Live(s, taken, gone, n) && s' == Step(s, Take)
    ensures Live(s', taken + TakenBy(s, Take), gone, n)
  {
    assert taken + [] == taken;
    if !s.subscriberGone && s.out != [] {
      assert s.out == [s.out[0]] + s.out[1..];
    }
  }

  lemma LeaveKeepsLive(s: State, s': State, taken: seq<Item>, gone: bool, n: nat)
    requires Inv(s) && Reading(s, taken) && Live(s, taken, gone, n) && s' == Step(s, LeaveStream)
    ensures Live(s', taken, gone, n)
  {
    DroppedSerials(s, taken, n);
  }

  lemma SettleKeepsLive(s: State, s': State, k: nat, kind: Kind, taken: seq<Item>, gone: bool, n: nat)
    requires Inv(s) && Live(s, taken, gone, n) && s' == Step(s, Settle(k, kind))
    ensures Live(s', taken, gone || LetsGo(s, Settle(k, kind), n), n)
  {
    if n in s.handles { HandleReceived(s, n); }
  }

  /** What a handler that lets go of its delivery, or stops waiting, changes. */
  function Forgotten(s: State, n: nat): State {
    if InHand(s, n) then s.(handles := s.handles - {n}) else s.(asking := s.asking - {n})
  }

  lemma ForgetIs(s: State, n: nat)
    ensures Step(s, Forget(n)) == Forgotten(s, n)
  {
  }

  lemma ForgetKeepsLive(s: State, s': State, k: nat, taken: seq<Item>, gone: bool, n: nat)
    requires Inv(s) && Live(s, taken, gone, n) && s' == Forgotten(s, k)
    ensures Live(s', taken, gone || LetsGo(s, Forget(k), n), n)
  {
    if n in s.handles { HandleReceived(s, n); }
  }

  lemma OtherKeepsLive(s: State, s': State, e: Event, taken: seq<Item>, gone: bool, n: nat)
    requires Inv(s) && Reading(s, taken) && Live(s, taken, gone, n) && !e.Turn? && s' == Step(s, e)
    ensures Live(s', taken + TakenBy(s, e), gone || LetsGo(s, e, n), n)
  {
    assert taken + [] == taken;
    match e
    case Take => TakeKeepsLive(s, s', taken, gone, n);
    case LeaveStream => LeaveKeepsLive(s, s', taken, gone, n);
    case Settle(k, kind) => SettleKeepsLive(s, s', k, kind, taken, gone, n);
    case Forget(k) => ForgetIs(s, k); ForgetKeepsLive(s, s', k, taken, gone, n);
    case Stop =>
  }

  /** In every run a delivery's unsettled handle is alive exactly while its message is at hand, in the
      channel or was taken by the subscriber, and nobody has settled or dropped it; none is of a
      subscription that settles on receipt. */
  lemma {:induction false} HandlesAreLive(capacity: nat, atMostOnce: bool, events: seq<Event>, n: nat)
    ensures var s, taken := Run(capacity, atMostOnce, events), Taken(capacity, atMostOnce, events);
      && (n in s.handles <==> !atMostOnce && Somewhere(s, taken, n) && !LetGo(capacity, atMostOnce, events, n))
      && (LetGo(capacity, atMostOnce, events, n) ==> n < |s.received|)
  {
    SignalsAreEvents(capacity, atMostOnce, events);
    if events != [] {
      var front, last := events[..|events| - 1], events[|events| - 1];
      var s, s', taken := Run(capacity, atMostOnce, front), Run(capacity, atMostOnce, events), Taken(capacity, atMostOnce, front);
      var gone := LetGo(capacity, atMostOnce, front, n);
      HandlesAreLive(capacity, atMostOnce, front, n);
      SignalsAreEvents(capacity, atMostOnce, front);
      RunKeeps(capacity, atMostOnce, front);
      RunReads(capacity, atMostOnce, front);
      if last.Turn? {
        var m := TurnMoves(s, s', last.arrives);
        MoveKeepsLive(s, s', m, taken, gone, n);
        assert taken + [] == taken;
      } else {
        OtherKeepsLive(s, s', last, taken, gone, n);
      }
    }
  }

  lemma SerialsDiffer(items: seq<Item>, received: seq<Received>, i: nat, j: nat)
    requires items <= Items(received) && i < j < |items|
    ensures items[i] != items[j]
  {
    ItemsLength(received);
    ItemSerials(received, i);
    ItemSerials(received, j);
  }

  /** What was read is neither in the channel nor at hand any more. */
  lemma ReadIsElsewhere(s: State, taken: seq<Item>, n: nat)
    requires Shape(s) && Stream(s) && Reading(s, taken) && Message(n) in taken
    ensures Message(n) !in s.out && s.pending != Some(n)
  {
    var i :| 0 <= i < |taken| && taken[i] == Message(n);
    var items := With(s.sent, Rest(s));
    assert (taken + s.out)[i] == Message(n) && taken + s.out <= items;
    if Message(n) in s.out {
      var j :| 0 <= j < |s.out| && s.out[j] == Message(n);
      assert (taken + s.out)[|taken| + j] == Message(n);
      SerialsDiffer(items, s.received, i, |taken| + j);
    }
    if s.pending == Some(n) {
      SerialsDiffer(items, s.received, i, |s.sent|);
    }
  }

  /** In every run who has read a delivery that is still unsettled can settle it: the settlement is last in
      line then and its caller waits; once the pump is done it is gone. Nobody else can. */
  lemma HandlersSettle(capacity: nat, atMostOnce: bool, events: seq<Event>, n: nat, kind: Kind)
    ensures var s, taken := Run(capacity, atMostOnce, events), Taken(capacity, atMostOnce, events);
      Step(s, Settle(n, kind)) ==
        if n !in s.handles || Message(n) !in taken then s
        else if s.phase.Done? then s.(handles := s.handles - {n})
        else s.(handles := s.handles - {n}, asking := s.asking + {n}, commands := s.commands + [Command(n, kind)])
  {
    var s, taken := Run(capacity, atMostOnce, events), Taken(capacity, atMostOnce, events);
    RunKeeps(capacity, atMostOnce, events);
    RunReads(capacity, atMostOnce, events);
    HandlesAreLive(capacity, atMostOnce, events, n);
    if Message(n) in taken {
      ReadIsElsewhere(s, taken, n);
    }
  }

  // -- Settlements -------------------------------------------------------------------------------

  /** What a handler asks for in one step. */
  function AskedBy(s: State, e: Event): seq<Command> {
    if e.Settle? && InHand(s, e.serial) && !s.phase.Done? then [Command(e.serial, e.kind)] else []
  }

  /** The settlements handlers asked for, in order. */
  function Asked(capacity: nat, atMostOnce: bool, events: seq<Event>): seq<Command> {
    if events == [] then []
    else
      var front := events[..|events| - 1];
      Asked(capacity, atMostOnce, front) + AskedBy(Run(capacity, atMostOnce, front), events[|events| - 1])
  }

  /** The delivery reached a handler: it could be read. */
  predicate OfHandler(c: Command, received: seq<Received>) {
    c.serial < |received| && received[c.serial].Readable?
  }

  /** The dispositions that are not the pump's own rejections of what it could not read. */
  function Handlers(dispositions: seq<Command>, received: seq<Received>): seq<Command> {
    if dispositions == [] then []
    else
      var n := |dispositions| - 1;
      Handlers(dispositions[..n], received) + if OfHandler(dispositions[n], received) then [dispositions[n]] else []
  }

  function InProgress(p: Phase): seq<Command> {
    if Applies(p) then [p.command] else []
  }

  /** Everything asked for is done, in progress, or queued, in that order. */
  predicate Serving(s: State, asked: seq<Command>) {
    asked == Handlers(s.dispositions, s.received) + InProgress(s.phase) + s.commands
  }

  lemma HandlersMore(ds: seq<Command>, c: Command, received: seq<Received>)
    ensures Handlers(ds + [c], received) == Handlers(ds, received) + if OfHandler(c, received) then [c] else []
  {
    assert (ds + [c])[..|ds|] == ds;
  }

  lemma {:induction false} HandlersStay(ds: seq<Command>, received: seq<Received>, r: Received)
    requires forall i :: 0 <= i < |ds| ==> ds[i].serial < |received|
    ensures Handlers(ds, received + [r]) == Handlers(ds, received)
  {
    if ds != [] {
      HandlersStay(ds[..|ds| - 1], received, r);
    }
  }

  lemma CountedOnce(commands: seq<Command>, i: nat)
    requires i < |commands|
    ensures CountOf(commands, commands[i].serial) >= 1
  {
    assert commands[i] in multiset(commands);
    match commands[i].kind
    case Accept =>
    case Modify =>
    case Reject =>
  }

  lemma DispositionsReceived(s: State, i: nat)
    requires Inv(s) && i < |s.dispositions|
    ensures s.dispositions[i].serial < |s.received|
  {
    CountedOnce(s.dispositions, i);
    assert Once(s, s.dispositions[i].serial);
  }

  /** What is in a handler's hands, or asked for by one, could be read. */
  lemma HandledIsReadable(s: State, n: nat)
    requires Inv(s)
    requires n in s.handles || (Applies(s.phase) && s.phase.command.serial == n)
    ensures n < |s.received| && s.received[n].Readable?
  {
    assert Once(s, n);
  }

  lemma RejectingIsUnreadable(s: State)
    requires Inv(s) && s.phase.Rejecting?
    ensures !OfHandler(Command(s.phase.serial, Reject), s.received)
  {
    RestSerial(s);
  }

  lemma GetsKeepsServing(s: State, s': State, r: Received, asked: seq<Command>)
    requires Inv(s) && Serving(s, asked) && s.phase.IdleReceive? && s' == Receive(s, r)
    ensures Serving(s', asked)
  {
    forall i | 0 <= i < |s.dispositions| ensures s.dispositions[i].serial < |s.received| {
      DispositionsReceived(s, i);
    }
    HandlersStay(s.dispositions, s.received, r);
    match r
    case Readable =>
    case Unreadable =>
    case Failed(_) =>
  }

  lemma TakesKeepsServing(s: State, s': State, asked: seq<Command>)
    requires Serving(s, asked) && Did(s, s', Takes)
    ensures Serving(s', asked)
  {
    var done, c := Handlers(s.dispositions, s.received), s.commands[0];
    assert s.commands == [c] + s.commands[1..];
    assert done + [] + s.commands == done + [c] + s.commands[1..];
  }

  lemma Regroup(done: seq<Command>, c: Command, queued: seq<Command>)
    ensures done + [c] + queued == (done + [c]) + [] + queued
  {
  }

  lemma FinishedServes(s: State, s': State, asked: seq<Command>)
    requires Serving(s, asked) && Did(s, s', Finishes) && OfHandler(s.phase.command, s.received)
    ensures Serving(s', asked)
  {
    HandlersMore(s.dispositions, s.phase.command, s.received);
    Regroup(Handlers(s.dispositions, s.received), s.phase.command, s.commands);
  }

  lemma FinishesKeepsServing(s: State, s': State, asked: seq<Command>)
    requires Inv(s) && Serving(s, asked) && Did(s, s', Finishes)
    ensures Serving(s', asked)
  {
    HandledIsReadable(s, s.phase.command.serial);
    FinishedServes(s, s', asked);
  }

  lemma MoveKeepsServing(s: State, s': State, m: Move, asked: seq<Command>)
    requires Inv(s) && Serving(s, asked) && Did(s, s', m)
    ensures Serving(s', asked)
  {
    match m
    case Gets(r) => GetsKeepsServing(s, s', r, asked);
    case Takes => TakesKeepsServing(s, s', asked);
    case Finishes => FinishesKeepsServing(s, s', asked);
    case Rejects => RejectingIsUnreadable(s); HandlersMore(s.dispositions, Command(s.phase.serial, Reject), s.received);
    case MovesOn =>
    case Leaves =>
    case Passes =>
    case PassesLast =>
  }

  lemma OtherKeepsServing(s: State, s': State, e: Event, asked: seq<Command>)
    requires Serving(s, asked) && !e.Turn? && s' == Step(s, e)
    ensures Serving(s', asked + AskedBy(s, e))
  {
    var done := Handlers(s.dispositions, s.received) + InProgress(s.phase);
    OtherCommands(s, s', e);
    assert (done + s.commands) + AskedBy(s, e) == done + (s.commands + AskedBy(s, e));
  }

  lemma OtherCommands(s: State, s': State, e: Event)
    requires !e.Turn? && s' == Step(s, e)
    ensures s'.commands == s.commands + AskedBy(s, e)
    ensures s'.phase == s.phase && s'.dispositions == s.dispositions && s'.received == s.received
  {
    match e
    case Settle(n, kind) => SettleCommands(s, s', n, kind);
    case Forget(n) => ForgetCommands(s, s', n);
    case _ => WorldCommands(s, s', e);
  }

  lemma SettleCommands(s: State, s': State, n: nat, kind: Kind)
    requires s' == Step(s, Settle(n, kind))
    ensures s'.commands == s.commands + AskedBy(s, Settle(n, kind))
    ensures s'.phase == s.phase && s'.dispositions == s.dispositions && s'.received == s.received
  {
  }

  lemma ForgetCommands(s: State, s': State, n: nat)
    requires s' == Step(s, Forget(n))
    ensures s'.commands == s.commands && s'.phase == s.phase && s'.dispositions == s.dispositions && s'.received == s.received
  {
  }

  lemma WorldCommands(s: State, s': State, e: Event)
    requires (e.Take? || e.LeaveStream? || e.Stop?) && s' == Step(s, e)
    ensures s'.commands == s.commands && s'.phase == s.phase && s'.dispositions == s.dispositions && s'.received == s.received
  {
  }

  /** In every run the settlements the handlers asked for are, in the order they asked, applied, the one
      being applied, and those still queued: none is lost, changed or overtaken. */
  lemma {:induction false} SettlementsInOrder(capacity: nat, atMostOnce: bool, events: seq<Event>)
    ensures var s := Run(capacity, atMostOnce, events);
      Asked(capacity, atMostOnce, events) == Handlers(s.dispositions, s.received) + InProgress(s.phase) + s.commands
  {
    if events != [] {
      var front, last := events[..|events| - 1], events[|events| - 1];
      var s, s', asked := Run(capacity, atMostOnce, front), Run(capacity, atMostOnce, events), Asked(capacity, atMostOnce, front);
      SettlementsInOrder(capacity, atMostOnce, front);
      RunKeeps(capacity, atMostOnce, front);
      if last.Turn? {
        var m := TurnMoves(s, s', last.arrives);
        MoveKeepsServing(s, s', m, asked);
        assert asked + [] == asked;
      } else {
        OtherKeepsServing(s, s', last, asked);
      }
    }
  }

  /** A handler asked for delivery `n` to be settled. */
  predicate AskedFor(capacity: nat, atMostOnce: bool, events: seq<Event>, n: nat) {
    events != [] &&
    var front, last := events[..|events| - 1], events[|events| - 1];
    AskedFor(capacity, atMostOnce, front, n) || (AskedBy(Run(capacity, atMostOnce, front), last) != [] && last.serial == n)
  }

  /** A handler that asked for it stopped waiting for the answer. */
  predicate GaveUp(capacity: nat, atMostOnce: bool, events: seq<Event>, n: nat) {
    events != [] &&
    var front, last := events[..|events| - 1], events[|events| - 1];
    GaveUp(capacity, atMostOnce, front, n) || (last == Forget(n) && AskedFor(capacity, atMostOnce, front, n))
  }

  predicate Awaited(s: State, asked: bool, gaveUp: bool, n: nat) {
    && (n in s.asking <==> asked && !gaveUp && CountOf(s.dispositions, n) == 0)
    && (asked ==> n !in s.handles && n < |s.received| && s.received[n].Readable?)
  }

  lemma GetsKeepsAwaited(s: State, s': State, r: Received, asked: bool, gaveUp: bool, n: nat)
    requires Awaited(s, asked, gaveUp, n) && s.phase.IdleReceive? && s' == Receive(s, r)
    ensures Awaited(s', asked, gaveUp, n)
  {
    match r
    case Readable =>
    case Unreadable =>
    case Failed(_) =>
  }

  lemma RejectsKeepsAwaited(s: State, s': State, asked: bool, gaveUp: bool, n: nat)
    requires Inv(s) && Awaited(s, asked, gaveUp, n) && Did(s, s', Rejects)
    ensures Awaited(s', asked, gaveUp, n)
  {
    var k := s.phase.serial;
    RejectingIsUnreadable(s);
    Last(s.dispositions, Command(k, Reject), n);
    assert Once(s, k);
    if n == k {
      RestSerial(s);
    }
  }

  lemma MoveKeepsAwaited(s: State, s': State, m: Move, asked: bool, gaveUp: bool, n: nat)
    requires Inv(s) && Awaited(s, asked, gaveUp, n) && Did(s, s', m)
    ensures Awaited(s', asked, gaveUp, n)
  {
    match m
    case Gets(r) => GetsKeepsAwaited(s, s', r, asked, gaveUp, n);
    case Finishes => Last(s.dispositions, s.phase.command, n);
    case Rejects => RejectsKeepsAwaited(s, s', asked, gaveUp, n);
    case MovesOn =>
    case Takes =>
    case Leaves =>
    case Passes =>
    case PassesLast =>
  }

  lemma SettleKeepsAwaited(s: State, s': State, k: nat, kind: Kind, asked: bool, gaveUp: bool, n: nat)
    requires Inv(s) && Awaited(s, asked, gaveUp, n) && (!asked ==> !gaveUp) && s' == Step(s, Settle(k, kind))
    ensures Awaited(s', asked || (AskedBy(s, Settle(k, kind)) != [] && k == n), gaveUp, n)
  {
    if InHand(s, k) {
      HandledIsReadable(s, k);
      assert Once(s, k);
    }
  }

  lemma ForgetKeepsAwaited(s: State, s': State, k: nat, asked: bool, gaveUp: bool, n: nat)
    requires Awaited(s, asked, gaveUp, n) && s' == Forgotten(s, k)
    ensures Awaited(s', asked, gaveUp || (k == n && asked), n)
  {
  }

  lemma WorldKeepsAwaited(s: State, s': State, e: Event, asked: bool, gaveUp: bool, n: nat)
    requires Awaited(s, asked, gaveUp, n) && (e.Take? || e.LeaveStream? || e.Stop?) && s' == Step(s, e)
    ensures Awaited(s', asked, gaveUp, n)
  {
  }

  /** In every run a handler waits for an answer exactly while it asked for one, has not given up, and its
      settlement is not applied yet. */
  lemma {:induction false} AnswersExactly(capacity: nat, atMostOnce: bool, events: seq<Event>, n: nat)
    ensures var s := Run(capacity, atMostOnce, events);
      n in s.asking <==>
        AskedFor(capacity, atMostOnce, events, n) && !GaveUp(capacity, atMostOnce, events, n) && CountOf(s.dispositions, n) == 0
  {
    RunAwaits(capacity, atMostOnce, events, n);
  }

  lemma {:induction false} RunAwaits(capacity: nat, atMostOnce: bool, events: seq<Event>, n: nat)
    ensures Awaited(Run(capacity, atMostOnce, events), AskedFor(capacity, atMostOnce, events, n), GaveUp(capacity, atMostOnce, events, n), n)
    ensures GaveUp(capacity, atMostOnce, events, n) ==> AskedFor(capacity, atMostOnce, events, n)
  {
    if events != [] {
      var front, last := events[..|events| - 1], events[|events| - 1];
      var s, s' := Run(capacity, atMostOnce, front), Run(capacity, atMostOnce, events);
      var asked, gaveUp := AskedFor(capacity, atMostOnce, front, n), GaveUp(capacity, atMostOnce, front, n);
      RunAwaits(capacity, atMostOnce, front, n);
      RunKeeps(capacity, atMostOnce, front);
      match last
      case Turn(arrives) => var m := TurnMoves(s, s', arrives); MoveKeepsAwaited(s, s', m, asked, gaveUp, n);
      case Settle(k, kind) => SettleKeepsAwaited(s, s', k, kind, asked, gaveUp, n);
      case Forget(k) => ForgetIs(s, k); ForgetKeepsAwaited(s, s', k, asked, gaveUp, n);
      case _ => WorldKeepsAwaited(s, s', last, asked, gaveUp, n);
    }
  }
}
