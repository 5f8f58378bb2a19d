/** What a pump gets done, in how many of its turns, whatever handlers and the subscriber do meanwhile:
    what is at hand is sent, what arrives is received, a dropped subscription is noticed, and a pump that
    nobody needs any more ends its session. */
module PumpProgress {
  import opened Common
  import opened Pump
  import opened PumpService

  // -- What gets done ----------------------------------------------------------------------------

  /** How far a phase of the loop is from passing on what is at hand, or from its look at the subscriber. */
  function LoopRank(p: Phase): nat {
    match p
    case PendReserve => 1 case PendCommands => 2 case PendStop => 3
    case DeliverSend(_, _) => 1 case DeliverStop(_, _) => 2 case Rejecting(_) => 3
    case Applying(_) => 3
    case IdleClosed => 1 case IdleCommands => 2 case IdleReceive => 6 case IdleStop => 7
    case _ => 0
  }

  /** Queued settlements, and those that live handles may still ask for, come first. */
  function Load(s: State): nat {
    2 * |s.commands| + 3 * |s.handles|
  }

  function Waits(s: State): nat {
    LoopRank(s.phase) + Load(s)
  }

  /** Nothing around the pump adds to its load. */
  lemma OtherLoad(s: State, s': State, e: Event)
    requires !e.Turn? && s' == Step(s, e)
    ensures Load(s') <= Load(s) && s'.phase == s.phase && s'.sent == s.sent
  {
    match e
    case Settle(n, kind) => SettleLoad(s, s', n, kind);
    case Forget(n) => ForgetLoad(s, s', n);
    case _ => WorldLoad(s, s', e);
  }

  lemma SettleLoad(s: State, s': State, n: nat, kind: Kind)
    requires s' == Step(s, Settle(n, kind))
    ensures Load(s') <= Load(s) && s'.phase == s.phase && s'.sent == s.sent
  {
  }

  lemma ForgetLoad(s: State, s': State, n: nat)
    requires s' == Step(s, Forget(n))
    ensures Load(s') <= Load(s) && s'.phase == s.phase && s'.sent == s.sent
  {
  }

  lemma WorldLoad(s: State, s': State, e: Event)
    requires (e.Take? || e.LeaveStream? || e.Stop?) && s' == Step(s, e)
    ensures Load(s') <= Load(s) && s'.phase == s.phase && s'.sent == s.sent
  {
    assert s'.handles <= s.handles;
    Fewer(s.handles, s'.handles);
  }

  // -- A subscriber that goes --------------------------------------------------------------------

  predicate OutSoon(s: State, left: nat) {
    Winds(s.phase) || (s.subscriberGone && Waits(s) <= left)
  }

  lemma GoneIdle(s: State, s': State)
    requires Shape(s) && s.subscriberGone && s' == TurnStep(s, None)
    requires s.phase.IdleCommands? || s.phase.IdleClosed? || s.phase.IdleStop? || s.phase.IdleReceive?
    ensures Winds(s'.phase) || (Waits(s') < Waits(s) && s'.subscriberGone)
  {
  }

  lemma GoneGets(s: State, s': State, r: Received)
    requires s.subscriberGone && s.phase.IdleReceive? && s' == Receive(s, r)
    ensures Waits(s') < Waits(s) && s'.subscriberGone
  {
    match r
    case Readable => assert |s.handles + {|s.received|}| <= |s.handles| + 1;
    case Unreadable =>
    case Failed(_) =>
  }

  lemma GonePends(s: State, s': State)
    requires Shape(s) && s.subscriberGone && Pends(s.phase) && s' == TurnStep(s, None)
    ensures Winds(s'.phase) || (Waits(s') < Waits(s) && s'.subscriberGone)
  {
  }

  lemma GoneDelivers(s: State, s': State)
    requires s.subscriberGone && (Delivers(s.phase) || s.phase.Rejecting? || s.phase.Applying?) && s' == TurnStep(s, None)
    ensures Winds(s'.phase) || (Waits(s') < Waits(s) && s'.subscriberGone)
  {
  }

  lemma StaysOut(s: State, s': State)
    requires Shape(s) && Winds(s.phase) && s' == TurnStep(s, None)
    ensures Winds(s'.phase)
  {
    var m := TurnMoves(s, s', None);
  }

  lemma GoneTurn(s: State, s': State, arrives: Option<Received>, left: nat)
    requires Shape(s) && OutSoon(s, left) && s' == TurnStep(s, arrives)
    ensures OutSoon(s', if left == 0 then 0 else left - 1)
  {
    if Winds(s.phase) {
      StaysOut(s, s');
    } else if s.phase.IdleReceive? && arrives.Some? {
      GoneGets(s, s', arrives.value);
    } else if Pends(s.phase) {
      GonePends(s, s');
    } else if Delivers(s.phase) || s.phase.Rejecting? || s.phase.Applying? {
      GoneDelivers(s, s');
    } else {
      GoneIdle(s, s');
    }
  }

  lemma GoneOther(s: State, s': State, e: Event, left: nat)
    requires OutSoon(s, left) && !e.Turn? && s' == Step(s, e)
    ensures OutSoon(s', left)
  {
    OtherLoad(s, s', e);
    OtherSignals(s, s', e);
  }

  lemma {:induction false} OutFrom(s: State, more: seq<Event>, left: nat)
    requires Inv(s) && OutSoon(s, left)
    ensures Inv(RunFrom(s, more)) && OutSoon(RunFrom(s, more), if Turns(more) <= left then left - Turns(more) else 0)
  {
    if more != [] {
      var front, last := more[..|more| - 1], more[|more| - 1];
      OutFrom(s, front, left);
      var s1, now := RunFrom(s, front), if Turns(front) <= left then left - Turns(front) else 0;
      StepKeeps(s1, Step(s1, last), last);
      if last.Turn? { GoneTurn(s1, Step(s1, last), last.arrives, now); } else { GoneOther(s1, Step(s1, last), last, now); }
    }
  }

  lemma NothingWaits(s: State)
    requires InLoop(s)
    ensures Waits(s) > 0
  {
  }

  /** A subscription that was dropped ends receiving: whatever still arrives and whatever handlers do, the
      pump is out of its loop within as many of its turns as its phase, the queued settlements and the
      live handles weigh. */
  lemma {:induction false} LeavesOnceUnsubscribed(capacity: nat, atMostOnce: bool, events: seq<Event>, more: seq<Event>)
    requires LeaveStream in events && Turns(more) >= Waits(Run(capacity, atMostOnce, events))
    ensures Winds(RunFrom(Run(capacity, atMostOnce, events), more).phase)
  {
    var s := Run(capacity, atMostOnce, events);
    SignalsAreEvents(capacity, atMostOnce, events);
    RunKeeps(capacity, atMostOnce, events);
    OutFrom(s, more, Waits(s));
    if InLoop(RunFrom(s, more)) { NothingWaits(RunFrom(s, more)); }
  }

  // -- What is at hand ---------------------------------------------------------------------------

  /** Shutdown has not begun and the subscriber stays. */
  predicate Undisturbed(events: seq<Event>) {
    forall i :: 0 <= i < |events| ==> !events[i].Stop? && !events[i].LeaveStream?
  }

  /** The item at hand is sent, or still at hand with room for it. */
  predicate SentSoon(s: State, before: seq<Item>, item: Item, left: nat) {
    || before + [item] <= s.sent
    || (InLoop(s) && !s.stop && Room(s) && s.sent == before && Busy(s) == Some(item) && Waits(s) <= left)
  }

  lemma AtHandTurn(s: State, s': State, before: seq<Item>, item: Item)
    requires Shape(s) && InLoop(s) && !s.stop && Room(s) && s.sent == before && Busy(s) == Some(item) && s' == TurnStep(s, None)
    ensures s'.sent == before + [item] ||
      (InLoop(s') && !s'.stop && Room(s') && s'.sent == before && Busy(s') == Some(item) && Waits(s') < Waits(s))
  {
    if Pends(s.phase) {
      AtHandPends(s, s', before, item);
    } else if Delivers(s.phase) {
      AtHandDelivers(s, s', before, item);
    } else {
      AtHandApplies(s, s', before, item);
    }
  }

  lemma AtHandPends(s: State, s': State, before: seq<Item>, item: Item)
    requires Shape(s) && Pends(s.phase) && !s.stop && Room(s) && s.sent == before && Busy(s) == Some(item) && s' == TurnStep(s, None)
    ensures s'.sent == before + [item] ||
      (InLoop(s') && !s'.stop && Room(s') && s'.sent == before && Busy(s') == Some(item) && Waits(s') < Waits(s))
  {
  }

  lemma AtHandDelivers(s: State, s': State, before: seq<Item>, item: Item)
    requires Shape(s) && Delivers(s.phase) && !s.stop && Room(s) && s.sent == before && Busy(s) == Some(item) && s' == TurnStep(s, None)
    ensures s'.sent == before + [item] ||
      (InLoop(s') && !s'.stop && Room(s') && s'.sent == before && Busy(s') == Some(item) && Waits(s') < Waits(s))
  {
  }

  lemma AtHandApplies(s: State, s': State, before: seq<Item>, item: Item)
    requires Shape(s) && (s.phase.Applying? || s.phase.Rejecting?) && !s.stop && Room(s)
    requires s.sent == before && Busy(s) == Some(item) && s' == TurnStep(s, None)
    ensures InLoop(s') && !s'.stop && Room(s') && s'.sent == before && Busy(s') == Some(item) && Waits(s') < Waits(s)
  {
  }

  lemma SentGrows(s: State, s': State, m: Move)
    requires Did(s, s', m)
    ensures s.sent <= s'.sent
  {
    match m
    case Gets(r) => GetsSendsNothing(s, s', r);
    case _ =>
  }

  lemma GetsSendsNothing(s: State, s': State, r: Received)
    requires s' == Receive(s, r)
    ensures s'.sent == s.sent
  {
    match r
    case Readable =>
    case Unreadable =>
    case Failed(_) =>
  }

  lemma SentSoonTurn(s: State, s': State, arrives: Option<Received>, before: seq<Item>, item: Item, left: nat)
    requires Shape(s) && SentSoon(s, before, item, left) && s' == TurnStep(s, arrives)
    ensures SentSoon(s', before, item, if left == 0 then 0 else left - 1)
  {
    if before + [item] <= s.sent {
      var m := TurnMoves(s, s', arrives);
      SentGrows(s, s', m);
    } else {
      assert s' == TurnStep(s, None);
      AtHandTurn(s, s', before, item);
    }
  }

  lemma SentSoonOther(s: State, s': State, e: Event, before: seq<Item>, item: Item, left: nat)
    requires SentSoon(s, before, item, left) && !e.Turn? && !e.Stop? && !e.LeaveStream? && s' == Step(s, e)
    ensures SentSoon(s', before, item, left)
  {
    OtherLoad(s, s', e);
    OtherSignals(s, s', e);
    OtherAround(s, s', e, 0);
    if e.Take? { } else { QuietChannel(s, s', e); }
  }

  lemma {:induction false} SentFrom(s: State, more: seq<Event>, before: seq<Item>, item: Item, left: nat)
    requires Inv(s) && SentSoon(s, before, item, left) && Undisturbed(more)
    ensures Inv(RunFrom(s, more)) && SentSoon(RunFrom(s, more), before, item, if Turns(more) <= left then left - Turns(more) else 0)
  {
    if more != [] {
      var front, last := more[..|more| - 1], more[|more| - 1];
      assert forall i :: 0 <= i < |front| ==> front[i] == more[i];
      SentFrom(s, front, before, item, left);
      var s1, now := RunFrom(s, front), if Turns(front) <= left then left - Turns(front) else 0;
      StepKeeps(s1, Step(s1, last), last);
      if last.Turn? {
        SentSoonTurn(s1, Step(s1, last), last.arrives, before, item, now);
      } else {
        SentSoonOther(s1, Step(s1, last), last, before, item, now);
      }
    }
  }

  /** Whatever is at hand, a message or an error, gets into the channel once it has room, within as many
      turns as phase, queued settlements and live handles weigh, unless shutdown begins or the subscriber
      goes. */
  lemma {:induction false} AtHandIsSent(capacity: nat, atMostOnce: bool, events: seq<Event>, more: seq<Event>)
    requires Undisturbed(events) && Undisturbed(more)
    requires var s := Run(capacity, atMostOnce, events); InLoop(s) && Busy(s).Some? && |s.out| < capacity && Turns(more) >= Waits(s)
    ensures var s := Run(capacity, atMostOnce, events); s.sent + [Busy(s).value] <= RunFrom(s, more).sent
  {
    var s := Run(capacity, atMostOnce, events);
    SignalsAreEvents(capacity, atMostOnce, events);
    RunKeeps(capacity, atMostOnce, events);
    SentFrom(s, more, s.sent, Busy(s).value, Waits(s));
    if InLoop(RunFrom(s, more)) { NothingWaits(RunFrom(s, more)); }
  }

  // -- Nothing left to do ------------------------------------------------------------------------

  /** How far the end of the session is once nobody holds anything. */
  function WindRank(p: Phase): nat {
    match p
    case Done => 0 case Releasing => 1 case Ending => 2 case Detaching => 3 case DrainCommands => 4
    case _ => 5
  }

  predicate EndsSoon(s: State, left: nat) {
    Winds(s.phase) && LineGone(s) && WindRank(s.phase) <= left
  }

  lemma DrainEnds(s: State, s': State, left: nat)
    requires EndsSoon(s, left) && (s.phase.DrainCommands? || s.phase.DrainStop?) && s' == TurnStep(s, None)
    ensures EndsSoon(s', if left == 0 then 0 else left - 1)
  {
  }

  lemma AppliedEnds(s: State, s': State, left: nat)
    requires EndsSoon(s, left) && s.phase.DrainApplying? && s' == TurnStep(s, None)
    ensures EndsSoon(s', if left == 0 then 0 else left - 1)
  {
  }

  lemma PastEnds(s: State, s': State, left: nat)
    requires EndsSoon(s, left) && Past(s.phase) && s' == TurnStep(s, None)
    ensures EndsSoon(s', if left == 0 then 0 else left - 1)
  {
  }

  lemma OtherEnds(s: State, s': State, e: Event, left: nat)
    requires Inv(s) && EndsSoon(s, left) && !e.Turn? && s' == Step(s, e)
    ensures EndsSoon(s', left)
  {
    OtherEnded(s, s', e);
    OtherLoad(s, s', e);
  }

  lemma {:induction false} EndsFrom(s: State, more: seq<Event>, left: nat)
    requires Inv(s) && EndsSoon(s, left)
    ensures Inv(RunFrom(s, more)) && EndsSoon(RunFrom(s, more), if Turns(more) <= left then left - Turns(more) else 0)
  {
    if more != [] {
      var front, last := more[..|more| - 1], more[|more| - 1];
      EndsFrom(s, front, left);
      var s1, now := RunFrom(s, front), if Turns(front) <= left then left - Turns(front) else 0;
      StepKeeps(s1, Step(s1, last), last);
      if !last.Turn? {
        OtherEnds(s1, Step(s1, last), last, now);
      } else if s1.phase.DrainCommands? || s1.phase.DrainStop? {
        DrainEnds(s1, Step(s1, last), now);
      } else if s1.phase.DrainApplying? {
        AppliedEnds(s1, Step(s1, last), now);
      } else {
        PastEnds(s1, Step(s1, last), now);
      }
    }
  }

  /** And once the loop is over and nobody holds anything any more, the session ends without waiting for a
      shutdown: within five turns. */
  lemma {:induction false} EndsOnceNobodyHolds(capacity: nat, atMostOnce: bool, events: seq<Event>, more: seq<Event>)
    requires var s := Run(capacity, atMostOnce, events); Winds(s.phase) && s.handles == {} && s.asking == {} && s.commands == []
    requires Turns(more) >= 5
    ensures var s' := RunFrom(Run(capacity, atMostOnce, events), more); s'.phase.Done? && s'.sessionEnded
  {
    var s := Run(capacity, atMostOnce, events);
    RunKeeps(capacity, atMostOnce, events);
    EndsFrom(s, more, 5);
    NoMeasureLeft(RunFrom(s, more));
  }

  // -- Serving what is queued ------------------------------------------------------------------------

  /** Whoever waits for an answer has its settlement queued or being applied. */
  predicate InLine(s: State) {
    forall n :: n in s.asking ==> CountOf(s.commands, n) + One(Applies(s.phase) && s.phase.command.serial == n) >= 1
  }

  lemma AskedIs(s: State, n: nat, kind: Kind)
    requires InHand(s, n) && !s.phase.Done?
    ensures Step(s, Settle(n, kind)) ==
      s.(handles := s.handles - {n}, asking := s.asking + {n}, commands := s.commands + [Command(n, kind)])
  {
  }

  lemma MoveInLine(s: State, s': State, m: Move)
    requires InLine(s) && Did(s, s', m)
    ensures InLine(s')
  {
    match m
    case Gets(r) => GetsInLine(s, s', r);
    case Takes => TakesInLine(s, s');
    case _ =>
  }

  lemma GetsInLine(s: State, s': State, r: Received)
    requires InLine(s) && s.phase.IdleReceive? && s' == Receive(s, r)
    ensures InLine(s')
  {
    match r
    case Readable =>
    case Unreadable =>
    case Failed(_) =>
  }

  lemma TakesInLine(s: State, s': State)
    requires InLine(s) && Did(s, s', Takes)
    ensures InLine(s')
  {
    forall n | n in s'.asking
      ensures CountOf(s'.commands, n) + One(Applies(s'.phase) && s'.phase.command.serial == n) >= 1
    {
      Head(s.commands, n);
    }
  }

  lemma SettleInLine(s: State, s': State, k: nat, kind: Kind)
    requires InLine(s) && s' == s.(handles := s.handles - {k}, asking := s.asking + {k}, commands := s.commands + [Command(k, kind)])
    ensures InLine(s')
  {
    forall n | n in s'.asking
      ensures CountOf(s'.commands, n) + One(Applies(s'.phase) && s'.phase.command.serial == n) >= 1
    {
      Last(s.commands, Command(k, kind), n);
    }
  }

  lemma WorldInLine(s: State, s': State, e: Event)
    requires InLine(s) && (e.Take? || e.LeaveStream? || e.Stop?) && s' == Step(s, e)
    ensures InLine(s')
  {
  }

  lemma ForgetInLine(s: State, s': State, n: nat)
    requires InLine(s) && s' == Forgotten(s, n)
    ensures InLine(s')
  {
  }

  lemma OtherInLine(s: State, s': State, e: Event)
    requires InLine(s) && !e.Turn? && s' == Step(s, e)
    ensures InLine(s')
  {
    match e
    case Settle(n, kind) => MaybeSettleInLine(s, s', n, kind);
    case Forget(n) => ForgetIs(s, n); ForgetInLine(s, s', n);
    case _ => WorldInLine(s, s', e);
  }

  lemma MaybeSettleInLine(s: State, s': State, n: nat, kind: Kind)
    requires InLine(s) && s' == Step(s, Settle(n, kind))
    ensures InLine(s')
  {
    if InHand(s, n) && !s.phase.Done? {
      AskedIs(s, n, kind);
      SettleInLine(s, s', n, kind);
    }
  }

  /** In every run that is so: nobody waits for nothing. */
  lemma {:induction false} NobodyWaitsForNothing(capacity: nat, atMostOnce: bool, events: seq<Event>)
    ensures InLine(Run(capacity, atMostOnce, events))
  {
    if events != [] {
      var front, last := events[..|events| - 1], events[|events| - 1];
      var s, s' := Run(capacity, atMostOnce, front), Run(capacity, atMostOnce, events);
      NobodyWaitsForNothing(capacity, atMostOnce, front);
      RunKeeps(capacity, atMostOnce, front);
      if last.Turn? {
        var m := TurnMoves(s, s', last.arrives);
        MoveInLine(s, s', m);
      } else {
        OtherInLine(s, s', last);
      }
    }
  }

  /** What is left to serve: the settlement being applied and the queued ones. */
  function Line(s: State): seq<Command> {
    InProgress(s.phase) + s.commands
  }

  /** How far the end is of a pump whose handlers have let go of everything. */
  function LeftToServe(s: State): nat {
    WindRank(s.phase) + 2 * |s.commands|
  }

  /** One turn of it: nearer to the end, with every settlement still done, in progress or queued. */
  predicate Winding(s: State, s': State) {
    && Winds(s'.phase) && s'.handles == {} && s'.stop == s.stop && s'.received == s.received
    && s'.dispositions + Line(s') == s.dispositions + Line(s) && LeftToServe(s') < LeftToServe(s)
  }

  lemma TakesWinds(s: State, s': State)
    requires s.phase.DrainCommands? && s.commands != [] && s.handles == {} && s' == TurnStep(s, None)
    ensures Winding(s, s')
  {
    assert s.commands == [s.commands[0]] + s.commands[1..];
  }

  lemma EmptyWinds(s: State, s': State)
    requires InLine(s) && s.phase.DrainCommands? && s.commands == [] && s.handles == {} && s' == TurnStep(s, None)
    ensures Winding(s, s')
  {
    assert forall n :: CountOf(s.commands, n) == 0;
    assert s.asking == {};
  }

  lemma AppliesWinds(s: State, s': State)
    requires s.phase.DrainApplying? && s.handles == {} && s' == TurnStep(s, None)
    ensures Winding(s, s')
  {
    var c := s.phase.command;
    assert s.dispositions + ([c] + s.commands) == (s.dispositions + [c]) + ([] + s.commands);
  }

  lemma RestWinds(s: State, s': State)
    requires (s.phase.DrainStop? || s.phase.Detaching? || s.phase.Ending? || s.phase.Releasing?) && s.handles == {} && s' == TurnStep(s, None)
    ensures Winding(s, s')
  {
  }

  lemma TurnWinds(s: State, s': State)
    requires InLine(s) && Winds(s.phase) && !s.phase.Done? && s.handles == {} && s' == TurnStep(s, None)
    ensures Winding(s, s')
  {
    if s.phase.DrainApplying? {
      AppliesWinds(s, s');
    } else if !s.phase.DrainCommands? {
      RestWinds(s, s');
    } else if s.commands == [] {
      EmptyWinds(s, s');
    } else {
      TakesWinds(s, s');
    }
  }

  // -- What arrives ------------------------------------------------------------------------------

  /** Every receive that is looked for finds something. */
  predicate AlwaysArrives(events: seq<Event>) {
    forall i :: 0 <= i < |events| && events[i].Turn? ==> events[i].arrives.Some?
  }

  /** How far an idle pump is from its receive. */
  function IdleRank(p: Phase): nat {
    match p
    case IdleReceive => 1 case IdleStop => 2 case IdleClosed => 3 case IdleCommands => 4 case Applying(_) => 5
    case _ => 0
  }

  function WaitsIdle(s: State): nat {
    IdleRank(s.phase) + Load(s)
  }

  predicate ReceivesSoon(s: State, before: nat, left: nat) {
    || |s.received| > before
    || (|s.received| == before && InLoop(s) && Busy(s).None? && !s.stop && !s.subscriberGone && WaitsIdle(s) <= left)
  }

  lemma IdleTurn(s: State, s': State, before: nat, left: nat)
    requires Shape(s) && ReceivesSoon(s, before, left) && |s.received| == before && !s.phase.IdleReceive? && s' == TurnStep(s, None)
    ensures ReceivesSoon(s', before, if left == 0 then 0 else left - 1)
  {
  }

  lemma ReceivesSoonTurn(s: State, s': State, arrives: Option<Received>, before: nat, left: nat)
    requires Shape(s) && ReceivesSoon(s, before, left) && arrives.Some? && s' == TurnStep(s, arrives)
    ensures ReceivesSoon(s', before, if left == 0 then 0 else left - 1)
  {
    if s.phase.IdleReceive? {
      ReceiveWeighs(s, s', arrives.value);
    } else if |s.received| == before {
      assert s' == TurnStep(s, None);
      IdleTurn(s, s', before, left);
    } else {
      var m := TurnMoves(s, s', arrives);
    }
  }

  lemma ReceivesSoonOther(s: State, s': State, e: Event, before: nat, left: nat)
    requires ReceivesSoon(s, before, left) && !e.Turn? && !e.Stop? && !e.LeaveStream? && s' == Step(s, e)
    ensures ReceivesSoon(s', before, left)
  {
    OtherSignals(s, s', e);
    OtherAround(s, s', e, 0);
    OtherLoad(s, s', e);
  }

  lemma {:induction false} ReceivesFrom(s: State, more: seq<Event>, before: nat, left: nat)
    requires Inv(s) && ReceivesSoon(s, before, left) && Undisturbed(more) && AlwaysArrives(more)
    ensures Inv(RunFrom(s, more)) && ReceivesSoon(RunFrom(s, more), before, if Turns(more) <= left then left - Turns(more) else 0)
  {
    if more != [] {
      var front, last := more[..|more| - 1], more[|more| - 1];
      assert forall i :: 0 <= i < |front| ==> front[i] == more[i];
      ReceivesFrom(s, front, before, left);
      var s1, now := RunFrom(s, front), if Turns(front) <= left then left - Turns(front) else 0;
      StepKeeps(s1, Step(s1, last), last);
      if last.Turn? {
        ReceivesSoonTurn(s1, Step(s1, last), last.arrives, before, now);
      } else {
        ReceivesSoonOther(s1, Step(s1, last), last, before, now);
      }
    }
  }

  lemma IdleWeighs(s: State)
    requires Inv(s) && InLoop(s) && Busy(s).None?
    ensures WaitsIdle(s) > 0
  {
  }

  /** With nothing at hand the pump receives what arrives, within as many turns as phase, queued
      settlements and live handles weigh, unless shutdown begins or the subscriber goes. */
  lemma {:induction false} ReceivesWhatArrives(capacity: nat, atMostOnce: bool, events: seq<Event>, more: seq<Event>)
    requires Undisturbed(events) && Undisturbed(more) && AlwaysArrives(more)
    requires var s := Run(capacity, atMostOnce, events); InLoop(s) && Busy(s).None? && Turns(more) >= WaitsIdle(s)
    ensures var s := Run(capacity, atMostOnce, events); |RunFrom(s, more).received| > |s.received|
  {
    var s := Run(capacity, atMostOnce, events);
    SignalsAreEvents(capacity, atMostOnce, events);
    RunKeeps(capacity, atMostOnce, events);
    ReceivesFrom(s, more, |s.received|, WaitsIdle(s));
    if |RunFrom(s, more).received| == |s.received| { IdleWeighs(RunFrom(s, more)); }
  }
}
