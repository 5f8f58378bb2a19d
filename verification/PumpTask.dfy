/** The pump as an object: its locals and its channels, changed in place, one poll or one answered call
    at a time, each of which keeps it valid. `Finish` runs it to its end once shutdown has begun. */
module PumpTask {
  import opened Common
  import opened Pump
  import opened PumpService
  import opened PumpProgress

  lemma TooLateIs(s: State, n: nat, kind: Kind)
    requires InHand(s, n) && s.phase.Done?
    ensures Step(s, Event.Settle(n, kind)) == s.(handles := s.handles - {n})
  {
  }

  class Task {
    const capacity: nat
    const atMostOnce: bool
    var phase: Phase
    var pending: Option<nat>
    var out: seq<Item>
    var subscriberGone: bool
    var commands: seq<Command>
    var handles: set<nat>
    var asking: set<nat>
    var stop: bool
    var fatal: bool
    var sessionEnded: bool
    var received: seq<Received>
    ghost var sent: seq<Item>
    var dispositions: seq<Command>
    ghost var lost: Option<Item>

    ghost function Snapshot(): State
      reads this
    {
      State(phase, pending, out, capacity, subscriberGone, commands, handles, asking, stop, atMostOnce, fatal, sessionEnded,
            received, sent, dispositions, lost)
    }

    /** One item for each receive, at most one disposition for each delivery, and an end of the session
        before the guard goes. */
    ghost predicate Valid()
      reads this
    {
      Inv(Snapshot())
    }

    constructor (capacity: nat, atMostOnce: bool)
      ensures Valid() && Snapshot() == Start(capacity, atMostOnce)
    {
      StartKeeps(capacity, atMostOnce);
      this.capacity, this.atMostOnce := capacity, atMostOnce;
      phase, pending, out, subscriberGone, commands, handles, asking := IdleCommands, None, [], false, [], {}, {};
      stop, fatal, sessionEnded, received, sent, dispositions, lost := false, false, false, [], [], [], None;
    }

    /** Leaves the loop: the item at hand goes, and the channel with what it holds for a subscriber that
        is gone. */
    method BreakLoop(isFatal: bool, dropped: Option<Item>)
      modifies this
      ensures Snapshot() == Break(old(Snapshot()), isFatal, dropped)
    {
      handles := handles - Dropped(dropped, if subscriberGone then out else []);
      if subscriberGone {
        out := [];
      }
      phase, fatal, pending, lost := DrainCommands, isFatal, None, dropped;
    }

    /** Takes the next settlement, if one is queued. */
    method PollCommands(applying: Command -> Phase, otherwise: Phase)
      modifies this`phase, this`commands
      ensures Snapshot() ==
        if old(commands) != [] then old(Snapshot()).(phase := applying(old(commands)[0]), commands := old(commands)[1..])
        else old(Snapshot()).(phase := otherwise)
    {
      if commands != [] {
        phase := applying(commands[0]);
        commands := commands[1..];
      } else {
        phase := otherwise;
      }
    }

    method Push(item: Item)
      modifies this`out, this`sent
      ensures Snapshot() == Pump.Send(old(Snapshot()), item)
    {
      out := out + [item];
      sent := sent + [item];
    }

    /** The client applied the settlement: its caller gets the answer. */
    method Answer(c: Command)
      modifies this`dispositions, this`asking
      ensures Snapshot() == Apply(old(Snapshot()), c)
    {
      dispositions := dispositions + [c];
      asking := asking - {c.serial};
    }

    /** What the receiver delivers: a message for the channel, a rejection, or an error item. */
    method Accept(r: Received)
      modifies this
      ensures Snapshot() == Pump.Receive(old(Snapshot()), r)
    {
      var n := |received|;
      received := received + [r];
      match r
      case Readable =>
        pending := Some(n);
        phase := PendCommands;
        if !atMostOnce {
          handles := handles + {n};
        }
      case Unreadable => phase := if atMostOnce then DeliverStop(Failure(n), false) else Rejecting(n);
      case Failed(error) => phase := DeliverStop(Failure(n), !IsPerMessage(error));
    }

    /** The turns while nothing is pending. */
    method IdleTurn(arrives: Option<Received>)
      requires phase.IdleCommands? || phase.IdleClosed? || phase.IdleStop? || phase.IdleReceive?
      modifies this
      ensures Snapshot() == TurnStep(old(Snapshot()), arrives)
    {
      match phase
      case IdleCommands => PollCommands(c => Applying(c), IdleClosed);
      case IdleClosed => if subscriberGone { BreakLoop(false, None); } else { phase := IdleStop; }
      case IdleStop => if stop { BreakLoop(false, None); } else { phase := IdleReceive; }
      case IdleReceive => if arrives.Some? { Accept(arrives.value); } else { phase := IdleCommands; }
    }

    /** The turns while a message waits for its place. */
    method PendTurn()
      requires Pends(phase)
      modifies this
      ensures Snapshot() == TurnStep(old(Snapshot()), None)
    {
      if phase.PendCommands? {
        PollCommands(c => Applying(c), PendReserve);
      } else if pending.Some? {
        var item := Message(pending.value);
        if phase.PendReserve? {
          if subscriberGone {
            BreakLoop(false, Some(item));
          } else if |out| < capacity {
            Push(item);
            pending, phase := None, IdleCommands;
          } else {
            phase := PendStop;
          }
        } else if stop {
          BreakLoop(false, Some(item));
        } else {
          phase := PendCommands;
        }
      }
    }

    /** The turns of an error item: the wait for its place looks at the stop signal first. */
    method DeliverTurn()
      requires Delivers(phase)
      modifies this
      ensures Snapshot() == TurnStep(old(Snapshot()), None)
    {
      var item, isFatal := phase.item, phase.fatal;
      if phase.DeliverStop? {
        if stop { BreakLoop(isFatal, Some(item)); } else { phase := DeliverSend(item, isFatal); }
      } else if subscriberGone {
        BreakLoop(isFatal, Some(item));
      } else if |out| >= capacity {
        phase := DeliverStop(item, isFatal);
      } else {
        Push(item);
        if isFatal { BreakLoop(true, None); } else { phase := IdleCommands; }
      }
    }

    /** The turns that still serve settlements once the link is over. */
    method ServeTurn()
      requires phase.DrainCommands? || phase.DrainStop? || phase.DrainApplying?
      modifies this
      ensures Snapshot() == TurnStep(old(Snapshot()), None)
    {
      var afterDrain := if fatal then Ending else Detaching;
      if phase.DrainApplying? {
        Answer(phase.command);
        phase := DrainCommands;
      } else if phase.DrainStop? {
        phase := if stop then afterDrain else DrainCommands;
      } else {
        PollCommands(c => DrainApplying(c), if handles == {} && asking == {} && commands == [] then afterDrain else DrainStop);
      }
    }

    /** The last turns: the receiver detaches, the session ends, the guard goes. */
    method EndTurn()
      requires phase.Detaching? || phase.Ending? || phase.Releasing? || phase.Done?
      modifies this
      ensures Snapshot() == TurnStep(old(Snapshot()), None)
    {
      match phase
      case Detaching => phase := Ending;
      case Ending => phase, sessionEnded := Releasing, true;
      case Releasing => phase := Done;
      case Done =>
    }

    /** The pump's next turn. */
    method Turn(arrives: Option<Received>)
      requires Valid()
      modifies this
      ensures Valid() && Snapshot() == TurnStep(old(Snapshot()), arrives)
      ensures Going(old(Snapshot()), Snapshot(), Event.Turn(arrives))
    {
      StepKeeps(Snapshot(), TurnStep(Snapshot(), arrives), Event.Turn(arrives));
      TurnNow(arrives);
    }

    method TurnNow(arrives: Option<Received>)
      modifies this
      ensures Snapshot() == TurnStep(old(Snapshot()), arrives)
    {
      if phase.DrainCommands? || phase.DrainStop? || phase.DrainApplying? {
        ServeTurn();
      } else if Winds(phase) {
        EndTurn();
      } else if Pends(phase) {
        PendTurn();
      } else if Delivers(phase) {
        DeliverTurn();
      } else if phase.Applying? {
        Answer(phase.command);
        phase := if pending.Some? then PendCommands else IdleCommands;
      } else if phase.Rejecting? {
        var n := phase.serial;
        dispositions := dispositions + [Command(n, Reject)];
        phase := DeliverStop(Failure(n), false);
      } else {
        IdleTurn(arrives);
      }
    }

    /** Shutdown. */
    method RaiseStop()
      requires Valid()
      modifies this`stop
      ensures Valid() && stop && Snapshot() == Step(old(Snapshot()), Event.Stop)
    {
      StepKeeps(Snapshot(), Step(Snapshot(), Event.Stop), Event.Stop);
      stop := true;
    }

    /** A handler settles a delivery it was given. */
    method Settle(serial: nat, kind: Kind)
      requires Valid() && InHand(Snapshot(), serial)
      modifies this`handles, this`asking, this`commands
      ensures Valid() && Snapshot() == Step(old(Snapshot()), Event.Settle(serial, kind))
    {
      StepKeeps(Snapshot(), Step(Snapshot(), Event.Settle(serial, kind)), Event.Settle(serial, kind));
      if phase.Done? {
        TooLateIs(Snapshot(), serial, kind);
        handles := handles - {serial};
      } else {
        AskedIs(Snapshot(), serial, kind);
        handles := handles - {serial};
        asking := asking + {serial};
        commands := commands + [Command(serial, kind)];
      }
    }

    /** Runs the pump to its end once shutdown has begun: its session ends and its guard goes. It takes
        at most the one delivery that has `arrived`, and only from between its look at the signal and
        its receive; the channel got one item for each receive, but for the last; and whatever was
        settled stays settled. */
    method Finish(arrived: Option<Received>)
      requires Valid() && stop
      modifies this
      ensures Valid() && phase.Done? && sessionEnded
      ensures old(|received|) <= |received| <= old(|received|) + One(old(phase).IdleReceive?)
      ensures sent <= Items(received) && |received| - 1 <= |sent|
      ensures old(dispositions) <= dispositions
    {
      while !phase.Done?
        invariant Valid() && stop && old(|received|) <= |received|
        invariant |received| + Leeway(Snapshot()) <= old(|received|) + One(old(phase).IdleReceive?)
        invariant old(dispositions) <= dispositions
        decreases Measure(Snapshot())
      {
        DispositionsGrow(Snapshot(), TurnStep(Snapshot(), arrived), arrived);
        Turn(arrived);
      }
      ItemsLength(received);
    }

    /** Runs the pump to its end once its loop is over and the handlers have let go of every delivery,
        with no shutdown to stop it: it serves every settlement that is queued, in order, and only then
        ends its session. */
    method ServeOut()
      requires Valid() && !stop && Winds(phase) && handles == {} && InLine(Snapshot())
      modifies this
      ensures Valid() && phase.Done? && sessionEnded && received == old(received)
      ensures !(old(phase).Detaching? || old(phase).Ending? || old(phase).Releasing? || old(phase).Done?) ==>
        commands == [] && dispositions == old(dispositions) + InProgress(old(phase)) + old(commands)
    {
      ghost var all := dispositions + Line(Snapshot());
      while !phase.Done?
        invariant Valid() && !stop && Winds(phase) && handles == {} && InLine(Snapshot()) && received == old(received)
        invariant dispositions + Line(Snapshot()) == all
        decreases LeftToServe(Snapshot())
      {
        ghost var s := Snapshot();
        TurnWinds(s, TurnStep(s, None));
        var m := TurnMoves(s, TurnStep(s, None), None);
        MoveInLine(s, TurnStep(s, None), m);
        Turn(None);
      }
      NoMeasureLeft(Snapshot());
      assert dispositions + ([] + commands) == all;
      assert all == old(dispositions) + InProgress(old(phase)) + old(commands);
    }
  }
}
