/** The connection as the object its handles share: the closed flag, the slot guards are cloned from,
    the stop signal, and the subscriptions with how far each is, changed in place. Every step keeps it
    valid; `ShutDown` runs shutdown from its start to the closed connection. */
module Connection {
  import opened Common
  import Pump
  import opened Shutdown

  class Core {
    var subscribes: seq<Opening>
    var closed: bool
    var slot: bool
    var stop: bool
    var closing: Closing

    ghost function Snapshot(): State
      reads this
    {
      State(subscribes, closed, slot, stop, closing)
    }

    /** The signals are as far as shutdown is, every pump sees the stop signal and is valid, and nobody
        holds a guard once the wait is over. */
    ghost predicate Valid()
      reads this
    {
      Inv(Snapshot())
    }

    constructor ()
      ensures Valid() && Snapshot() == Start()
    {
      subscribes, closed, slot, stop, closing := [], false, true, false, Running;
    }

    /** The next step of one subscribe: its look at the closed flag, its guard, its session, its attach. */
    method Advance(i: nat, ok: bool)
      requires Valid() && i < |subscribes|
      modifies this`subscribes
      ensures Valid() && Snapshot() == Step(old(Snapshot()), Event.Advance(i, ok))
    {
      StepKeeps(Snapshot(), Event.Advance(i, ok));
      var next := subscribes[i];
      match subscribes[i] {
        case Asking => next := if closed then Refused else Open;
        case Open => next := if slot then Guarded else Refused;
        case Guarded => next := if ok then Attaching else NoSession;
        case Attaching => next := if ok then Attaching else Dropped;
        case _ =>
      }
      subscribes := subscribes[i := next];
    }

    /** A subscribe call comes in. */
    method Ask() returns (i: nat)
      requires Valid()
      modifies this`subscribes
      ensures Valid() && i == old(|subscribes|) && Snapshot() == Step(old(Snapshot()), Subscribe)
    {
      StepKeeps(Snapshot(), Subscribe);
      i := |subscribes|;
      subscribes := subscribes + [Asking];
    }

    /** One subscribe, from the call to its pump, while nobody else moves. `begins` and `attaches` are what
        the peer answers. On a live connection it gets its pump exactly if the peer answers both well; on
        one that shut down it is refused, without a session. */
    method OpenSubscription(begins: bool, attaches: bool, capacity: nat, atMostOnce: bool) returns (i: nat)
      requires Valid()
      modifies this`subscribes
      ensures Valid() && i == old(|subscribes|) && |subscribes| == i + 1 && subscribes[..i] == old(subscribes)
      ensures subscribes[i] == if !closing.Running? then Refused
        else if !begins then NoSession
        else if !attaches then Dropped
        else Pumping(Pump.Start(capacity, atMostOnce))
    {
      i := Ask();
      Advance(i, true);
      Advance(i, true);
      if subscribes[i].Guarded? {
        Advance(i, begins);
      }
      if subscribes[i].Attaching? {
        if attaches {
          Attach(i, capacity, atMostOnce);
        } else {
          Advance(i, false);
        }
      }
    }

    /** The peer attached the receiver: its pump starts, and sees the stop signal as it is now. */
    method Attach(i: nat, capacity: nat, atMostOnce: bool)
      requires Valid() && i < |subscribes| && subscribes[i].Attaching?
      modifies this`subscribes
      ensures Valid() && Snapshot() == Step(old(Snapshot()), Attached(i, capacity, atMostOnce))
    {
      StepKeeps(Snapshot(), Attached(i, capacity, atMostOnce));
      var pump := Pump.Start(capacity, atMostOnce);
      subscribes := subscribes[i := Pumping(pump.(stop := stop))];
    }

    /** Raises the stop signal in every pump. */
    method SendStop()
      modifies this`subscribes, this`stop
      ensures stop && |subscribes| == old(|subscribes|)
      ensures forall k :: 0 <= k < |subscribes| ==> subscribes[k] == Halted(old(subscribes)[k])
    {
      stop := true;
      for i := 0 to |subscribes|
        invariant stop && |subscribes| == old(|subscribes|)
        invariant forall k :: 0 <= k < i ==> subscribes[k] == Halted(old(subscribes)[k])
        invariant forall k :: i <= k < |subscribes| ==> subscribes[k] == old(subscribes)[k]
      {
        if subscribes[i].Pumping? {
          subscribes := subscribes[i := Pumping(subscribes[i].pump.(stop := true))];
        }
      }
    }

    /** Whether every sender of the wait's channel is gone: the slot's own, and every guard. */
    method AllGone() returns (gone: bool)
      ensures gone <==> GuardsGone(Snapshot())
    {
      if slot {
        return false;
      }
      for i := 0 to |subscribes|
        invariant forall k :: 0 <= k < i ==> !Holds(subscribes[k])
      {
        if subscribes[i].Guarded? || subscribes[i].Attaching? || (subscribes[i].Pumping? && !subscribes[i].pump.phase.Done?) {
          return false;
        }
      }
      return true;
    }

    /** The next step of shutdown. The wait goes on only once every guard is gone. */
    method Shut()
      requires Valid()
      modifies this
      ensures Valid() && Snapshot() == ShutStep(old(Snapshot()))
    {
      ghost var s := Snapshot();
      ShutKeeps(s);
      match closing
      case Running => closed, closing := true, Flagged;
      case Flagged => slot, closing := false, Taken;
      case Taken =>
        SendStop();
        closing := Stopped;
        assert subscribes == ShutStep(s).subscribes;
      case Stopped =>
        var gone := AllGone();
        if gone {
          closing := Awaited;
        }
      case Awaited => closing := SendersClosed;
      case SendersClosed => closing := SessionClosed;
      case SessionClosed => closing := Closed;
      case Closed =>
    }

    /** Runs one pump to its end: it sees the stop signal. */
    method EndPump(i: nat)
      requires Valid() && stop && i < |subscribes| && subscribes[i].Pumping?
      modifies this`subscribes
      ensures Valid() && |subscribes| == old(|subscribes|)
      ensures subscribes[i].Pumping? && subscribes[i].pump.phase.Done? && subscribes[i].pump.sessionEnded
      ensures forall k :: 0 <= k < |subscribes| && k != i ==> subscribes[k] == old(subscribes)[k]
    {
      while !subscribes[i].pump.phase.Done?
        invariant Valid() && |subscribes| == old(|subscribes|) && subscribes[i].Pumping?
        invariant forall k :: 0 <= k < |subscribes| && k != i ==> subscribes[k] == old(subscribes)[k]
        decreases Pump.Measure(subscribes[i].pump)
      {
        PumpStepEnds(Snapshot(), Step(Snapshot(), Run(i, Pump.Turn(None))), Run(i, Pump.Turn(None)), i);
        StepKeeps(Snapshot(), Run(i, Pump.Turn(None)));
        subscribes := subscribes[i := Pumping(Pump.TurnStep(subscribes[i].pump, None))];
      }
      assert Sound(Snapshot(), subscribes[i]);
    }

    /** Brings one subscribe to where it holds no guard. The peer answers its session's begin with
        `begins` and its attach with `attaches`. */
    method LetGo(i: nat, begins: bool, attaches: bool)
      requires Valid() && stop && i < |subscribes|
      modifies this`subscribes
      ensures Valid() && |subscribes| == old(|subscribes|) && !Holds(subscribes[i])
      ensures old(subscribes)[i].Pumping? ==> subscribes[i].Pumping?
      ensures forall k :: 0 <= k < |subscribes| && k != i ==> subscribes[k] == old(subscribes)[k]
    {
      if subscribes[i].Guarded? {
        Advance(i, begins);
      }
      if subscribes[i].Attaching? {
        if attaches {
          Attach(i, 1, false);
        } else {
          Advance(i, false);
        }
      }
      if subscribes[i].Pumping? {
        EndPump(i);
      }
    }

    /** Shutdown, from raising the closed flag to the closed connection, while the pumps run to their end
        and the peer answers the openings under way. When it is through nobody holds a guard, none can
        come out any more, and every subscription that was attached has ended its session. */
    method ShutDown(begins: nat -> bool, attaches: nat -> bool)
      requires Valid() && closing.Running?
      modifies this
      ensures Valid() && closing.Closed? && closed && !slot && |subscribes| == old(|subscribes|)
      ensures forall i :: 0 <= i < |subscribes| ==> !Holds(subscribes[i])
      ensures forall i :: 0 <= i < |subscribes| && old(subscribes)[i].Pumping? ==>
        subscribes[i].Pumping? && subscribes[i].pump.phase.Done? && subscribes[i].pump.sessionEnded
    {
      Shut();
      Shut();
      Shut();
      for i := 0 to |subscribes|
        invariant Valid() && closing.Stopped? && stop && |subscribes| == old(|subscribes|)
        invariant forall k :: 0 <= k < i ==> !Holds(subscribes[k])
        invariant forall k :: 0 <= k < |subscribes| && old(subscribes)[k].Pumping? ==> subscribes[k].Pumping?
      {
        LetGo(i, begins(i), attaches(i));
      }
      assert GuardsGone(Snapshot());
      Shut();
      Shut();
      Shut();
      Shut();
      assert forall i :: 0 <= i < |subscribes| ==> Sound(Snapshot(), subscribes[i]);
    }
  }
}
