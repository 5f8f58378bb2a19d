/** Shutdown of a live connection against any number of subscribes: a subscription takes a guard, begins
    a session, attaches its receiver and runs its pump, while one shutdown stops the pumps, waits for
    their guards and closes the layers from the inside out. */
module Shutdown {
  import opened Common
  import Pump

  datatype Opening =
    | Asking                     // the subscribe call, before its look at the closed flag
    | Open                       // the connection looked open; it asks for its guard next
    | Refused                    // told that the connection shut down
    | Guarded                    // the guard is out; the session begins
    | NoSession                  // the session did not begin; the guard is dropped
    | Attaching                  // the session is live; its receiver attaches
    | Dropped                    // the attach failed: guard and session are dropped, with no end awaited
    | Pumping(pump: Pump.State)  // the receiver is attached and the pump runs, until its phase is `Done`

  datatype Closing =
    | Running        // shutdown has not begun
    | Flagged        // the closed flag is up
    | Taken          // the registry's own sender is gone: no guard any more
    | Stopped        // the stop signal is up
    | Awaited        // every guard is gone
    | SendersClosed
    | SessionClosed  // the publishers' session ended
    | Closed         // the connection is closed

  /** `broker` is the connection's side: the closed flag, the slot new guards are cloned from, the
      stop signal, and how far shutdown is. */
  datatype State = State(subscribes: seq<Opening>, closed: bool, slot: bool, stop: bool, closing: Closing)

  datatype Event =
    | Subscribe                        // another subscribe call
    | Advance(i: nat, ok: bool)        // the next step of one subscribe; `ok` is what the peer answers
    | Attached(i: nat, capacity: nat, atMostOnce: bool)  // the peer attached its receiver
    | Run(i: nat, event: Pump.Event)   // one step of its pump, or of the world around it
    | Shut                             // the next step of shutdown

  function Start(): State {
    State([], false, true, false, Running)
  }

  /** Holds a guard, so the connection waits for it. */
  predicate Holds(o: Opening) {
    o.Guarded? || o.Attaching? || (o.Pumping? && !o.pump.phase.Done?)
  }

  predicate SomeoneHolds(s: State) {
    exists i :: 0 <= i < |s.subscribes| && Holds(s.subscribes[i])
  }

  /** The wait ends once the last sender is gone: every guard, and the slot's own. */
  predicate GuardsGone(s: State) {
    !s.slot && !SomeoneHolds(s)
  }

  function Put(s: State, i: nat, o: Opening): State
    requires i < |s.subscribes|
  {
    s.(subscribes := s.subscribes[i := o])
  }

  function Advanced(s: State, o: Opening, ok: bool): Opening {
    match o
    case Asking => if s.closed then Refused else Open
    case Open => if s.slot then Guarded else Refused
    case Guarded => if ok then Attaching else NoSession
    case Attaching => if ok then o else Dropped
    case _ => o
  }

  function Begun(s: State, capacity: nat, atMostOnce: bool): Opening {
    Pumping(Pump.Start(capacity, atMostOnce).(stop := s.stop))
  }

  /** The stop signal reaches every pump at once. */
  function Halted(o: Opening): Opening {
    if o.Pumping? then Pumping(o.pump.(stop := true)) else o
  }

  function ShutStep(s: State): State {
    match s.closing
    case Running => s.(closed := true, closing := Flagged)
    case Flagged => s.(slot := false, closing := Taken)
    case Taken => s.(stop := true, closing := Stopped, subscribes := seq(|s.subscribes|, i requires 0 <= i < |s.subscribes| => Halted(s.subscribes[i])))
    case Stopped => if GuardsGone(s) then s.(closing := Awaited) else s
    case Awaited => s.(closing := SendersClosed)
    case SendersClosed => s.(closing := SessionClosed)
    case SessionClosed => s.(closing := Closed)
    case Closed => s
  }

  function Step(s: State, e: Event): State {
    match e
    case Subscribe => s.(subscribes := s.subscribes + [Asking])
    case Advance(i, ok) => if i < |s.subscribes| then Put(s, i, Advanced(s, s.subscribes[i], ok)) else s
    case Attached(i, capacity, atMostOnce) =>
      if i < |s.subscribes| && s.subscribes[i].Attaching? then Put(s, i, Begun(s, capacity, atMostOnce)) else s
    case Run(i, e) =>
      if i < |s.subscribes| && s.subscribes[i].Pumping? && !e.Stop? then Put(s, i, Pumping(Pump.Step(s.subscribes[i].pump, e))) else s
    case Shut => ShutStep(s)
  }

  function RunAll(events: seq<Event>): State {
    if events == [] then Start() else Step(RunAll(events[..|events| - 1]), events[|events| - 1])
  }

  function RunFrom(s: State, events: seq<Event>): State {
    if events == [] then s else Step(RunFrom(s, events[..|events| - 1]), events[|events| - 1])
  }

  // -- What every run keeps ----------------------------------------------------------------------

  /** `stop_all` has returned. */
  predicate Waited(s: State) {
    s.closing.Awaited? || s.closing.SendersClosed? || s.closing.SessionClosed? || s.closing.Closed?
  }

  predicate Signals(s: State) {
    && (s.closed <==> !s.closing.Running?)
    && (s.slot <==> s.closing.Running? || s.closing.Flagged?)
    && (s.stop <==> !(s.closing.Running? || s.closing.Flagged? || s.closing.Taken?))
  }

  ghost predicate Sound(s: State, o: Opening) {
    && (o.Pumping? ==> Pump.Inv(o.pump) && o.pump.stop == s.stop)
    && (Waited(s) ==> !Holds(o))
  }

  ghost predicate Inv(s: State) {
    Signals(s) && forall i :: 0 <= i < |s.subscribes| ==> Sound(s, s.subscribes[i])
  }

  lemma BegunSound(s: State, capacity: nat, atMostOnce: bool)
    requires !Waited(s)
    ensures Sound(s, Begun(s, capacity, atMostOnce))
  {
    var p := Pump.Start(capacity, atMostOnce);
    Pump.StartKeeps(capacity, atMostOnce);
    Pump.StepKeeps(p, Pump.Step(p, Pump.Stop), Pump.Stop);
  }

  lemma HaltedSound(s: State, s': State, o: Opening)
    requires Sound(s, o) && s'.stop && !Waited(s')
    ensures Sound(s', Halted(o))
  {
    if o.Pumping? {
      Pump.StepKeeps(o.pump, Pump.Step(o.pump, Pump.Stop), Pump.Stop);
    }
  }

  lemma StepStop(p: Pump.State, e: Pump.Event)
    requires Pump.Inv(p) && !e.Stop?
    ensures Pump.Step(p, e).stop == p.stop
  {
    var p' := Pump.Step(p, e);
    if e.Turn? && p.phase.IdleReceive? && e.arrives.Some? {
      Pump.ReceiveWeighs(p, p', e.arrives.value);
    } else if e.Turn? {
      assert p' == Pump.TurnStep(p, None);
      Pump.TurnKeeps(p, p');
    }
  }

  lemma RunSound(s: State, p: Pump.State, e: Pump.Event)
    requires Sound(s, Pumping(p)) && !e.Stop?
    ensures Sound(s, Pumping(Pump.Step(p, e)))
  {
    Pump.StepKeeps(p, Pump.Step(p, e), e);
    StepStop(p, e);
  }

  lemma PutKeeps(s: State, i: nat, o: Opening)
    requires Inv(s) && i < |s.subscribes| && Sound(s, o)
    ensures Inv(Put(s, i, o))
  {
    var s' := Put(s, i, o);
    forall k | 0 <= k < |s'.subscribes| ensures Sound(s', s'.subscribes[k]) {
      assert Sound(s, s.subscribes[k]);
    }
  }

  lemma ShutKeeps(s: State)
    requires Inv(s)
    ensures Inv(ShutStep(s))
  {
    var s' := ShutStep(s);
    forall k | 0 <= k < |s'.subscribes| ensures Sound(s', s'.subscribes[k]) {
      assert Sound(s, s.subscribes[k]);
      if s.closing.Taken? {
        HaltedSound(s, s', s.subscribes[k]);
      } else if Waited(s') && !Waited(s) {
        assert !Holds(s.subscribes[k]);
      }
    }
  }

  lemma StepKeeps(s: State, e: Event)
    requires Inv(s)
    ensures Inv(Step(s, e))
  {
    match e
    case Subscribe =>
      forall k | 0 <= k < |s.subscribes| + 1 ensures Sound(Step(s, e), Step(s, e).subscribes[k]) {
        if k < |s.subscribes| { assert Sound(s, s.subscribes[k]); }
      }
    case Advance(i, ok) =>
      if i < |s.subscribes| {
        assert Sound(s, s.subscribes[i]);
        PutKeeps(s, i, Advanced(s, s.subscribes[i], ok));
      }
    case Attached(i, capacity, atMostOnce) =>
      if i < |s.subscribes| && s.subscribes[i].Attaching? {
        assert Sound(s, s.subscribes[i]);
        BegunSound(s, capacity, atMostOnce);
        PutKeeps(s, i, Begun(s, capacity, atMostOnce));
      }
    case Run(i, pe) =>
      if i < |s.subscribes| && s.subscribes[i].Pumping? && !pe.Stop? {
        assert Sound(s, s.subscribes[i]);
        RunSound(s, s.subscribes[i].pump, pe);
        PutKeeps(s, i, Pumping(Pump.Step(s.subscribes[i].pump, pe)));
      }
    case Shut => ShutKeeps(s);
  }

  lemma {:induction false} RunKeeps(events: seq<Event>)
    ensures Inv(RunAll(events))
  {
    if events != [] {
      RunKeeps(events[..|events| - 1]);
      StepKeeps(RunAll(events[..|events| - 1]), events[|events| - 1]);
    }
  }

  /** The session of this subscription is live. */
  predicate SessionLive(o: Opening) {
    o.Attaching? || o.Dropped? || (o.Pumping? && !o.pump.sessionEnded)
  }

  /** Safe shutdown. In every run, from the moment `stop_all` returns on, and so when the connection
      closes, no guard is alive, none can be minted, and every subscription whose receiver attached has
      ended its session. */
  lemma NothingLiveAtClose(events: seq<Event>)
    requires Waited(RunAll(events))
    ensures var s := RunAll(events);
      && !s.slot && !SomeoneHolds(s)
      && forall i :: 0 <= i < |s.subscribes| && s.subscribes[i].Pumping? ==>
           s.subscribes[i].pump.phase.Done? && s.subscribes[i].pump.sessionEnded
  {
    RunKeeps(events);
    var s := RunAll(events);
    forall i | 0 <= i < |s.subscribes| ensures Sound(s, s.subscribes[i]) && (s.subscribes[i].Pumping? ==> Pump.Inv(s.subscribes[i].pump)) {
    }
  }

  /** The only session that can be live then is one whose attach failed: it is dropped and nothing
      waits for its end. */
  lemma LiveAtCloseOnlyAfterFailedAttach(events: seq<Event>, i: nat)
    requires var s := RunAll(events); Waited(s) && i < |s.subscribes|
    ensures var s := RunAll(events); SessionLive(s.subscribes[i]) <==> s.subscribes[i].Dropped?
  {
    NothingLiveAtClose(events);
    assert !Holds(RunAll(events).subscribes[i]);
  }

  /** No guard comes out again, whatever still runs. */
  lemma NoGuardAfterTaken(s: State, e: Event, i: nat)
    requires Signals(s) && !s.slot && i < |s.subscribes| && !Holds(s.subscribes[i])
    ensures !Step(s, e).slot && i < |Step(s, e).subscribes| && !Holds(Step(s, e).subscribes[i])
  {
    if e.Run? && e.i == i && s.subscribes[i].Pumping? {
      DoneStays(s.subscribes[i].pump, e.event);
    }
  }

  lemma DoneStays(p: Pump.State, e: Pump.Event)
    requires p.phase.Done?
    ensures Pump.Step(p, e).phase.Done?
  {
  }

  /** And the wait ends: once no opening is under way and every pump is done, shutdown goes on. Each
      pump gets there in finitely many turns: see `EveryPumpEnds`. */
  lemma WaitEndsExactly(s: State)
    requires Signals(s) && s.closing.Stopped?
    ensures ShutStep(s).closing.Awaited? <==>
      forall i :: 0 <= i < |s.subscribes| ==>
        !s.subscribes[i].Guarded? && !s.subscribes[i].Attaching? && (s.subscribes[i].Pumping? ==> s.subscribes[i].pump.phase.Done?)
  {
    if forall i :: 0 <= i < |s.subscribes| ==>
        !s.subscribes[i].Guarded? && !s.subscribes[i].Attaching? && (s.subscribes[i].Pumping? ==> s.subscribes[i].pump.phase.Done?) {
      assert !SomeoneHolds(s);
    }
  }

  // -- The wait is finite ------------------------------------------------------------------------

  predicate TurnOf(e: Event, i: nat) {
    e.Run? && e.i == i && e.event.Turn?
  }

  /** How many turns the pump of subscribe `i` gets. */
  function TurnsOf(events: seq<Event>, i: nat): nat {
    if events == [] then 0 else TurnsOf(events[..|events| - 1], i) + if TurnOf(events[|events| - 1], i) then 1 else 0
  }

  /** The pump of subscribe `i` once shutdown has begun: every turn it gets brings it nearer to its end. */
  predicate Ends(s: State, s': State, e: Event, i: nat)
    requires i < |s.subscribes| && s.subscribes[i].Pumping?
  {
    && i < |s'.subscribes| && s'.subscribes[i].Pumping?
    && var p, p' := s.subscribes[i].pump, s'.subscribes[i].pump;
       (p.phase.Done? ==> p'.phase.Done?) &&
       Pump.Measure(p') + (if TurnOf(e, i) && !p.phase.Done? then 1 else 0) <= Pump.Measure(p)
  }

  lemma PumpStepEnds(s: State, s': State, e: Event, i: nat)
    requires Inv(s) && s.stop && i < |s.subscribes| && s.subscribes[i].Pumping? && s' == Step(s, e)
    ensures Ends(s, s', e, i)
  {
    assert Sound(s, s.subscribes[i]);
    if e.Run? && e.i == i && !e.event.Stop? {
      var p := s.subscribes[i].pump;
      Pump.StepKeeps(p, Pump.Step(p, e.event), e.event);
    } else if e.Shut? {
      assert s.closing != Taken;
    }
  }

  lemma StopLasts(s: State, e: Event)
    requires Signals(s) && s.stop
    ensures Step(s, e).stop
  {
  }

  lemma {:induction false} StoppedPumpGoes(s: State, more: seq<Event>, i: nat)
    requires Inv(s) && s.stop && i < |s.subscribes| && s.subscribes[i].Pumping?
    ensures var s' := RunFrom(s, more);
      && Inv(s') && s'.stop && i < |s'.subscribes| && s'.subscribes[i].Pumping?
      && (s'.subscribes[i].pump.phase.Done? || Pump.Measure(s'.subscribes[i].pump) + TurnsOf(more, i) <= Pump.Measure(s.subscribes[i].pump))
  {
    if more != [] {
      var front, last := more[..|more| - 1], more[|more| - 1];
      StoppedPumpGoes(s, front, i);
      StepKeeps(RunFrom(s, front), last);
      StopLasts(RunFrom(s, front), last);
      PumpStepEnds(RunFrom(s, front), RunFrom(s, more), last, i);
    }
  }

  /** Once the stop signal is up, every pump on the connection ends its session and drops its guard
      within as many of its own turns as it weighs, whatever everything else does meanwhile. */
  lemma {:induction false} EveryPumpEnds(events: seq<Event>, more: seq<Event>, i: nat)
    requires var s := RunAll(events); s.stop && i < |s.subscribes| && s.subscribes[i].Pumping?
    requires TurnsOf(more, i) >= Pump.Measure(RunAll(events).subscribes[i].pump)
    ensures var s' := RunFrom(RunAll(events), more);
      i < |s'.subscribes| && s'.subscribes[i].Pumping? && s'.subscribes[i].pump.phase.Done? && s'.subscribes[i].pump.sessionEnded
  {
    RunKeeps(events);
    StoppedPumpGoes(RunAll(events), more, i);
    var s' := RunFrom(RunAll(events), more);
    assert Sound(s', s'.subscribes[i]);
  }

  // -- A subscribe on a live connection ----------------------------------------------------------

  function Asks(events: seq<Event>): nat {
    if events == [] then 0 else Asks(events[..|events| - 1]) + if events[|events| - 1].Subscribe? then 1 else 0
  }

  /** Every subscribe call is there. */
  lemma {:induction false} SubscribesAreThere(events: seq<Event>)
    ensures |RunAll(events).subscribes| == Asks(events)
  {
    if events != [] {
      var front := events[..|events| - 1];
      SubscribesAreThere(front);
      assert |ShutStep(RunAll(front)).subscribes| == |RunAll(front).subscribes|;
    }
  }

  /** Nobody is refused but by a connection that shut down. */
  lemma {:induction false} RefusedOnlyOnceClosed(events: seq<Event>, i: nat)
    requires i < |RunAll(events).subscribes| && RunAll(events).subscribes[i].Refused?
    ensures RunAll(events).closed
  {
    RunKeeps(events);
    if events != [] {
      var front, last := events[..|events| - 1], events[|events| - 1];
      RunKeeps(front);
      if i < |RunAll(front).subscribes| && RunAll(front).subscribes[i].Refused? {
        RefusedOnlyOnceClosed(front, i);
        ClosedStays(RunAll(front), last);
      } else {
        RefusingIsClosed(RunAll(front), last, i);
      }
    }
  }

  lemma ClosedStays(s: State, e: Event)
    requires s.closed
    ensures Step(s, e).closed
  {
  }

  lemma RefusingIsClosed(s: State, e: Event, i: nat)
    requires Signals(s) && i < |Step(s, e).subscribes| && Step(s, e).subscribes[i].Refused?
    requires i < |s.subscribes| ==> !s.subscribes[i].Refused?
    ensures Step(s, e).closed
  {
  }

  predicate About(e: Event, i: nat) {
    (e.Advance? && e.i == i) || (e.Attached? && e.i == i) || (e.Run? && e.i == i)
  }

  /** No shutdown, and to subscribe `i` only steps that the peer answers well. */
  predicate Smooth(events: seq<Event>, i: nat) {
    forall k :: 0 <= k < |events| ==> !events[k].Shut? && (About(events[k], i) ==> events[k] == Advance(i, true))
  }

  /** How many steps of its own subscribe `i` takes. */
  function StepsOf(events: seq<Event>, i: nat): nat {
    if events == [] then 0 else StepsOf(events[..|events| - 1], i) + if About(events[|events| - 1], i) then 1 else 0
  }

  /** How far it is after so many of them. */
  function Stage(steps: nat): Opening {
    if steps == 0 then Asking else if steps == 1 then Open else if steps == 2 then Guarded else Attaching
  }

  lemma {:induction false} OpensStepByStep(s: State, more: seq<Event>, i: nat)
    requires Signals(s) && s.closing.Running? && i < |s.subscribes| && s.subscribes[i].Asking? && Smooth(more, i)
    ensures var s' := RunFrom(s, more);
      Signals(s') && s'.closing.Running? && i < |s'.subscribes| && s'.subscribes[i] == Stage(StepsOf(more, i))
  {
    if more != [] {
      var front, last := more[..|more| - 1], more[|more| - 1];
      assert forall k :: 0 <= k < |front| ==> front[k] == more[k];
      OpensStepByStep(s, front, i);
      SmoothStep(RunFrom(s, front), last, i, StepsOf(front, i));
    }
  }

  lemma SmoothStep(s: State, e: Event, i: nat, steps: nat)
    requires Signals(s) && s.closing.Running? && i < |s.subscribes| && s.subscribes[i] == Stage(steps)
    requires !e.Shut? && (About(e, i) ==> e == Advance(i, true))
    ensures var s' := Step(s, e);
      && Signals(s') && s'.closing.Running? && i < |s'.subscribes|
      && s'.subscribes[i] == Stage(steps + if About(e, i) then 1 else 0)
  {
  }

  lemma ThenOne(s: State, more: seq<Event>, e: Event)
    ensures RunFrom(s, more + [e]) == Step(RunFrom(s, more), e)
  {
    assert (more + [e])[..|more|] == more;
  }

  /** On a connection that is not shut down a subscribe that the peer answers gets its pump: whatever all
      the others do meanwhile, after its look, its guard, its session and its attach it runs from the
      start. A session that does not begin and a receiver that does not attach end it instead. */
  lemma SubscribeOpens(s: State, more: seq<Event>, i: nat, capacity: nat, atMostOnce: bool)
    requires Signals(s) && s.closing.Running? && i < |s.subscribes| && s.subscribes[i].Asking? && Smooth(more, i)
    ensures StepsOf(more, i) >= 3 ==> var s' := RunFrom(s, more + [Attached(i, capacity, atMostOnce)]);
      i < |s'.subscribes| && s'.subscribes[i] == Pumping(Pump.Start(capacity, atMostOnce))
    ensures var s' := RunFrom(s, more + [Advance(i, false)]);
      && i < |s'.subscribes|
      && (StepsOf(more, i) == 2 ==> s'.subscribes[i] == NoSession) && (StepsOf(more, i) >= 3 ==> s'.subscribes[i] == Dropped)
  {
    OpensStepByStep(s, more, i);
    ThenOne(s, more, Attached(i, capacity, atMostOnce));
    ThenOne(s, more, Advance(i, false));
    assert Pump.Start(capacity, atMostOnce).(stop := false) == Pump.Start(capacity, atMostOnce);
  }

  // -- From the inside out -----------------------------------------------------------------------

  /** The order of shutdown: the flag, the slot, the signal, the wait for the pumps, the publishers' links,
      their session, the connection. */
  const ORDER: seq<Closing> := [Running, Flagged, Taken, Stopped, Awaited, SendersClosed, SessionClosed, Closed]

  /** How far shutdown has come in a run, stage by stage. */
  function Visited(events: seq<Event>): seq<Closing> {
    if events == [] then [Start().closing]
    else
      var front := events[..|events| - 1];
      var before, now := RunAll(front).closing, RunAll(events).closing;
      Visited(front) + if now == before then [] else [now]
  }

  function Place(c: Closing): (k: nat)
    ensures k < |ORDER| && ORDER[k] == c
  {
    match c
    case Running => 0 case Flagged => 1 case Taken => 2 case Stopped => 3
    case Awaited => 4 case SendersClosed => 5 case SessionClosed => 6 case Closed => 7
  }

  /** Each step of shutdown takes it to the next stage, but for the wait, which goes on while somebody holds
      a guard; nothing else moves it. */
  lemma StagesInOrder(s: State, e: Event)
    ensures var k := Place(s.closing);
      Step(s, e).closing == if e.Shut? && k + 1 < |ORDER| && !(s.closing.Stopped? && !GuardsGone(s)) then ORDER[k + 1] else s.closing
  {
  }

  /** In every run each layer closes only after the one inside it: the stages are passed in order, none
      left out. */
  lemma {:induction false} ClosesFromTheInside(events: seq<Event>)
    ensures Visited(events) == ORDER[..Place(RunAll(events).closing) + 1]
  {
    if events != [] {
      var front, last := events[..|events| - 1], events[|events| - 1];
      ClosesFromTheInside(front);
      StagesInOrder(RunAll(front), last);
      var k := Place(RunAll(front).closing);
      assert k + 1 < |ORDER| ==> ORDER[..k + 1] + [ORDER[k + 1]] == ORDER[..k + 2];
      assert ORDER[..k + 1] + [] == ORDER[..k + 1];
    }
  }
}
