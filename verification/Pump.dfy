/** What pumps one subscription: it receives deliveries, hands them to the subscriber over a
    bounded channel, and applies settlements. A `select` polls its branches one after another, in the
    order written, so each poll is a step here and the world may move in between. */
module Pump {
  import opened Common

  datatype Kind = Accept | Modify | Reject

  /** A settlement the handler of delivery `serial` asks for. */
  datatype Command = Command(serial: nat, kind: Kind)

  /** What the client reports for a failed receive; the rest of its errors are one here. */
  datatype ReceiveError = MessageDecode | NoDeliveryId | NoDeliveryTag | InconsistentFrames | SizeExceeded | AnyOther

  /** An error that poisons one delivery only; the link keeps going. */
  predicate IsPerMessage(e: ReceiveError) {
    !e.AnyOther?
  }

  /** What one receive brings. Deliveries are numbered by their receive. */
  datatype Received = Readable | Unreadable | Failed(error: ReceiveError)

  /** What the subscriber's stream yields for it. */
  datatype Item = Message(serial: nat) | Failure(serial: nat)

  datatype Phase =
    | IdleCommands | IdleClosed | IdleStop | IdleReceive   // nothing pending: the four branches in order
    | PendCommands | PendReserve | PendStop                // a message pending: the three branches
    | Applying(command: Command)                           // the client has the settlement
    | Rejecting(serial: nat)                               // the client has the rejection of an unreadable one
    | DeliverStop(item: Item, fatal: bool)                 // an error item waits for its place
    | DeliverSend(item: Item, fatal: bool)
    | DrainCommands | DrainStop                            // the link is over; settlements are still served
    | DrainApplying(command: Command)
    | Detaching | Ending
    | Releasing                                            // the session has ended
    | Done                                                 // the guard is dropped

  /** `handles` are the deliveries whose unsettled message is alive somewhere; `asking` the settlements
      whose caller still waits. Both keep the settlement line alive. `received`, `sent`, `dispositions`
      and `lost` are history. */
  datatype State = State(
    phase: Phase,
    pending: Option<nat>,
    out: seq<Item>,
    capacity: nat,
    subscriberGone: bool,
    commands: seq<Command>,
    handles: set<nat>,
    asking: set<nat>,
    stop: bool,
    atMostOnce: bool,
    fatal: bool,
    sessionEnded: bool,
    received: seq<Received>,
    sent: seq<Item>,
    dispositions: seq<Command>,
    lost: Option<Item>)

  datatype Event =
    | Turn(arrives: Option<Received>)  // the pump's next step; `arrives` is what a receive finds
    | Stop                             // shutdown
    | Take                             // the subscriber polls its stream
    | LeaveStream                      // the subscriber is dropped
    | Settle(serial: nat, kind: Kind)  // a handler settles a delivery it was given
    | Forget(serial: nat)              // or drops it, or stops waiting for the answer

  function Start(capacity: nat, atMostOnce: bool): State {
    State(IdleCommands, None, [], capacity, false, [], {}, {}, false, atMostOnce, false, false, [], [], [], None)
  }

  function SerialsOf(items: seq<Item>): set<nat> {
    set i | i in items :: i.serial
  }

  function Dropped(lost: Option<Item>, out: seq<Item>): set<nat> {
    (if lost.Some? then {lost.value.serial} else {}) + SerialsOf(out)
  }

  /** Leaving the loop drops the pending message, and the channel with what it holds for a subscriber
      that is gone. */
  function Break(s: State, fatal: bool, lost: Option<Item>): State {
    var kept := if s.subscriberGone then [] else s.out;
    s.(phase := DrainCommands, fatal := fatal, pending := None, lost := lost, out := kept,
       handles := s.handles - Dropped(lost, if s.subscriberGone then s.out else []))
  }

  function Top(s: State): Phase {
    if s.pending.Some? then PendCommands else IdleCommands
  }

  function Send(s: State, i: Item): State {
    s.(out := s.out + [i], sent := s.sent + [i])
  }

  function Apply(s: State, c: Command): State {
    s.(dispositions := s.dispositions + [c], asking := s.asking - {c.serial})
  }

  function Receive(s: State, r: Received): State {
    var n := |s.received|;
    var s' := s.(received := s.received + [r]);
    match r
    case Readable => s'.(pending := Some(n), phase := PendCommands, handles := if s.atMostOnce then s.handles else s.handles + {n})
    case Unreadable => s'.(phase := if s.atMostOnce then DeliverStop(Failure(n), false) else Rejecting(n))
    case Failed(error) => s'.(phase := DeliverStop(Failure(n), !IsPerMessage(error)))
  }

  /** No message handle and no waiting settlement holds the line any more, and no command is left. */
  predicate LineGone(s: State) {
    s.handles == {} && s.asking == {} && s.commands == []
  }

  function TurnStep(s: State, arrives: Option<Received>): State {
    match s.phase
    case IdleCommands =>
      if s.commands != [] then s.(phase := Applying(s.commands[0]), commands := s.commands[1..]) else s.(phase := IdleClosed)
    case IdleClosed => if s.subscriberGone then Break(s, false, None) else s.(phase := IdleStop)
    case IdleStop => if s.stop then Break(s, false, None) else s.(phase := IdleReceive)
    case IdleReceive => if arrives.Some? then Receive(s, arrives.value) else s.(phase := IdleCommands)
    case PendCommands =>
      if s.commands != [] then s.(phase := Applying(s.commands[0]), commands := s.commands[1..]) else s.(phase := PendReserve)
    case PendReserve =>
      if s.pending.None? then s
      else if s.subscriberGone then Break(s, false, Some(Message(s.pending.value)))
      else if |s.out| < s.capacity then Send(s, Message(s.pending.value)).(pending := None, phase := IdleCommands)
      else s.(phase := PendStop)
    case PendStop =>
      if s.pending.None? then s
      else if s.stop then Break(s, false, Some(Message(s.pending.value))) else s.(phase := PendCommands)
    case Applying(c) => Apply(s, c).(phase := Top(s))
    case Rejecting(n) => s.(dispositions := s.dispositions + [Command(n, Reject)], phase := DeliverStop(Failure(n), false))
    case DeliverStop(i, fatal) => if s.stop then Break(s, fatal, Some(i)) else s.(phase := DeliverSend(i, fatal))
    case DeliverSend(i, fatal) =>
      if s.subscriberGone then Break(s, fatal, Some(i))
      else if |s.out| < s.capacity then (if fatal then Break(Send(s, i), true, None) else Send(s, i).(phase := IdleCommands))
      else s.(phase := DeliverStop(i, fatal))
    case DrainCommands =>
      if s.commands != [] then s.(phase := DrainApplying(s.commands[0]), commands := s.commands[1..])
      else if LineGone(s) then s.(phase := if s.fatal then Ending else Detaching)
      else s.(phase := DrainStop)
    case DrainStop => s.(phase := if !s.stop then DrainCommands else if s.fatal then Ending else Detaching)
    case DrainApplying(c) => Apply(s, c).(phase := DrainCommands)
    case Detaching => s.(phase := Ending)
    case Ending => s.(phase := Releasing, sessionEnded := true)
    case Releasing => s.(phase := Done)
    case Done => s
  }

  /** The pump still has the channel to the subscriber. */
  predicate InLoop(s: State) {
    !Winds(s.phase)
  }

  /** The loop is over. */
  predicate Winds(p: Phase) {
    p.DrainCommands? || p.DrainStop? || p.DrainApplying? || p.Detaching? || p.Ending? || p.Releasing? || p.Done?
  }

  /** A handler has the delivery: it is unsettled, and neither pending nor still in the channel. */
  predicate InHand(s: State, serial: nat) {
    serial in s.handles && s.pending != Some(serial) && Message(serial) !in s.out
  }

  function Step(s: State, e: Event): State {
    match e
    case Turn(arrives) => TurnStep(s, arrives)
    case Stop => s.(stop := true)
    case Take => if s.subscriberGone || s.out == [] then s else s.(out := s.out[1..])
    case LeaveStream =>
      if InLoop(s) then s.(subscriberGone := true)
      else s.(subscriberGone := true, out := [], handles := s.handles - SerialsOf(s.out))
    case Settle(n, kind) =>
      if !InHand(s, n) then s
      else if s.phase.Done? then s.(handles := s.handles - {n})
      else s.(handles := s.handles - {n}, asking := s.asking + {n}, commands := s.commands + [Command(n, kind)])
    case Forget(n) => if InHand(s, n) then s.(handles := s.handles - {n}) else s.(asking := s.asking - {n})
  }

  function Run(capacity: nat, atMostOnce: bool, events: seq<Event>): State {
    if events == [] then Start(capacity, atMostOnce)
    else Step(Run(capacity, atMostOnce, events[..|events| - 1]), events[|events| - 1])
  }

  // -- What one turn does ------------------------------------------------------------------------

  /** One item for each receive, in order. */
  function Items(received: seq<Received>): seq<Item> {
    if received == [] then []
    else
      var n := |received| - 1;
      Items(received[..n]) + [if received[n].Readable? then Message(n) else Failure(n)]
  }

  predicate Pends(p: Phase) {
    p.PendCommands? || p.PendReserve? || p.PendStop?
  }

  predicate Delivers(p: Phase) {
    p.DeliverStop? || p.DeliverSend?
  }

  predicate Applies(p: Phase) {
    p.Applying? || p.DrainApplying?
  }

  /** The item the pump is busy with. */
  function Busy(s: State): Option<Item> {
    if s.pending.Some? then Some(Message(s.pending.value))
    else if s.phase.Rejecting? then Some(Failure(s.phase.serial))
    else if Delivers(s.phase) then Some(s.phase.item)
    else None
  }

  /** What was received and is not in the channel: the item at hand, or the one lost at the end. */
  function Rest(s: State): Option<Item> {
    if InLoop(s) then Busy(s) else s.lost
  }

  function With(items: seq<Item>, rest: Option<Item>): seq<Item> {
    if rest.Some? then items + [rest.value] else items
  }

  /** A message is pending just where the pump's phase says so, an error item waits just where it says
      so, and the session ends before the guard goes. */
  predicate Shape(s: State) {
    && (Pends(s.phase) ==> s.pending.Some?)
    && (s.pending.Some? ==> Pends(s.phase) || s.phase.Applying?)
    && (Delivers(s.phase) ==> s.phase.item.Failure?)
    && (s.sessionEnded <==> s.phase.Releasing? || s.phase.Done?)
  }

  predicate Stream(s: State) {
    With(s.sent, Rest(s)) == Items(s.received)
  }

  function One(b: bool): nat {
    if b then 1 else 0
  }

  function Count(commands: seq<Command>, c: Command): nat {
    multiset(commands)[c]
  }

  function CountOf(commands: seq<Command>, n: nat): nat {
    Count(commands, Command(n, Accept)) + Count(commands, Command(n, Modify)) + Count(commands, Command(n, Reject))
  }

  /** How often delivery `n` is unsettled in someone's hands, on its way to a disposition, or disposed. */
  function Times(s: State, n: nat): nat {
    One(n in s.handles) + CountOf(s.commands, n) + CountOf(s.dispositions, n) +
    One((Applies(s.phase) && s.phase.command.serial == n) || s.phase == Rejecting(n))
  }

  /** How often it was rejected, or is being rejected, as unreadable. */
  function Rejects(s: State, n: nat): nat {
    Count(s.dispositions, Command(n, Reject)) + One(s.phase == Rejecting(n))
  }

  /** How far a phase is from the end once shutdown has begun. */
  function Rank(p: Phase): nat {
    match p
    case Done => 0 case Releasing => 1 case Ending => 2 case Detaching => 3
    case DrainStop => 4 case DrainCommands => 5 case DrainApplying(_) => 6
    case IdleStop => 7 case IdleClosed => 8 case IdleCommands => 9
    case DeliverStop(_, _) => 9 case DeliverSend(_, _) => 10 case Rejecting(_) => 11
    case PendStop => 10 case PendReserve => 11 case PendCommands => 12 case Applying(_) => 13
    case IdleReceive => 40
  }

  /** Queued commands and live unsettled handles weigh on top of the phase. */
  function Measure(s: State): nat {
    Rank(s.phase) + 10 * |s.commands| + 20 * |s.handles|
  }

  /** The item at hand stays, goes into the channel, or is lost. */
  predicate Carries(s: State, s': State) {
    && s'.received == s.received
    && ((s'.sent == s.sent && Rest(s') == Rest(s)) || (s'.sent == With(s.sent, Rest(s)) && Rest(s') == None))
  }

  /** Shutdown brings every turn closer to the end, and no turn back to receiving. */
  predicate Nears(s: State, s': State) {
    && s'.stop == s.stop && s'.atMostOnce == s.atMostOnce
    && (s.stop ==> !s'.phase.IdleReceive? && (s.phase.Done? || Measure(s') < Measure(s)))
  }

  /** A disposition is only ever made of a handle, a command or a rejection. */
  predicate Settles(s: State, s': State, n: nat) {
    Times(s', n) <= Times(s, n) && Rejects(s', n) >= Rejects(s, n)
  }

  /** What every turn that receives nothing does, with delivery `n` in view. */
  predicate Fine(s: State, s': State, n: nat) {
    Carries(s, s') && Shape(s') && Nears(s, s') && Settles(s, s', n)
  }

  lemma Fewer(a: set<nat>, b: set<nat>)
    requires b <= a
    ensures |b| <= |a|
  {
    if b != a {
      var x :| x in a && x !in b;
      Fewer(a - {x}, b);
    }
  }

  lemma CountHead(commands: seq<Command>, c: Command)
    requires commands != []
    ensures Count(commands, c) == Count(commands[1..], c) + One(commands[0] == c)
  {
    assert commands == [commands[0]] + commands[1..];
  }

  lemma Head(commands: seq<Command>, n: nat)
    requires commands != []
    ensures CountOf(commands, n) == CountOf(commands[1..], n) + One(commands[0].serial == n)
  {
    CountHead(commands, Command(n, Accept));
    CountHead(commands, Command(n, Modify));
    CountHead(commands, Command(n, Reject));
    match commands[0].kind
    case Accept =>
    case Modify =>
    case Reject =>
  }

  lemma Last(commands: seq<Command>, c: Command, n: nat)
    ensures CountOf(commands + [c], n) == CountOf(commands, n) + One(c.serial == n)
    ensures Count(commands + [c], Command(n, Reject)) == Count(commands, Command(n, Reject)) + One(c == Command(n, Reject))
  {
    match c.kind
    case Accept =>
    case Modify =>
    case Reject =>
  }

  /** Turns that only go on to another quiet phase. */
  lemma PhaseTurn(s: State, s': State, p: Phase, n: nat)
    requires Shape(s) && s' == s.(phase := p) && InLoop(s') == InLoop(s) && Pends(p) == Pends(s.phase)
    requires !Applies(s.phase) && !s.phase.Rejecting? && !Delivers(s.phase) && !s.sessionEnded
    requires !Applies(p) && !p.Rejecting? && !Delivers(p) && !p.Releasing? && !p.Done?
    requires s.stop ==> Rank(p) < Rank(s.phase) && !p.IdleReceive?
    ensures Fine(s, s', n)
  {
  }

  lemma BreakSettles(s: State, s': State, lost: Option<Item>, fatal: bool, n: nat)
    requires !Applies(s.phase) && !s.phase.Rejecting? && s' == Break(s, fatal, lost)
    ensures Settles(s, s', n)
  {
  }

  lemma BreakWeighs(s: State, s': State, lost: Option<Item>, fatal: bool)
    requires s' == Break(s, fatal, lost)
    ensures Measure(s') + Rank(s.phase) <= Measure(s) + 5 && s'.stop == s.stop && s'.atMostOnce == s.atMostOnce
  {
    Fewer(s.handles, s'.handles);
  }

  lemma BreakCarries(s: State, s': State, lost: Option<Item>, fatal: bool)
    requires Shape(s) && InLoop(s) && s' == Break(s, fatal, lost) && lost == Rest(s)
    ensures Carries(s, s') && Shape(s')
  {
  }

  lemma BreakIsFine(s: State, s': State, lost: Option<Item>, fatal: bool, n: nat)
    requires Shape(s) && InLoop(s) && !Applies(s.phase) && !s.phase.Rejecting? && s' == Break(s, fatal, lost)
    requires lost == Rest(s) && Rank(s.phase) > 5
    ensures Fine(s, s', n)
  {
    BreakSettles(s, s', lost, fatal, n);
    BreakWeighs(s, s', lost, fatal);
    BreakCarries(s, s', lost, fatal);
  }

  lemma CommandsTurn(s: State, s': State, n: nat)
    requires Shape(s) && (s.phase.IdleCommands? || s.phase.PendCommands?) && s' == TurnStep(s, None)
    ensures Fine(s, s', n)
  {
    if s.commands != [] { Head(s.commands, n); }
  }

  lemma ClosedTurn(s: State, s': State, n: nat)
    requires Shape(s) && s.phase.IdleClosed? && s' == TurnStep(s, None)
    ensures Fine(s, s', n)
  {
    if s.subscriberGone { BreakIsFine(s, s', None, false, n); }
  }

  lemma StopTurn(s: State, s': State, n: nat)
    requires Shape(s) && s.phase.IdleStop? && s' == TurnStep(s, None)
    ensures Fine(s, s', n)
  {
    if s.stop { BreakIsFine(s, s', None, false, n); }
  }

  lemma NothingTurn(s: State, s': State, n: nat)
    requires Shape(s) && s.phase.IdleReceive? && s' == TurnStep(s, None)
    ensures Fine(s, s', n)
  {
  }

  lemma PermitTurn(s: State, s': State, n: nat)
    requires Shape(s) && s.phase.PendReserve? && !s.subscriberGone && |s.out| < s.capacity && s' == TurnStep(s, None)
    ensures Fine(s, s', n)
  {
  }

  lemma ReserveTurn(s: State, s': State, n: nat)
    requires Shape(s) && s.phase.PendReserve? && s' == TurnStep(s, None)
    ensures Fine(s, s', n)
  {
    if s.subscriberGone {
      BreakIsFine(s, s', Some(Message(s.pending.value)), false, n);
    } else if |s.out| < s.capacity {
      PermitTurn(s, s', n);
    } else {
      PhaseTurn(s, s', PendStop, n);
    }
  }

  lemma PendStopTurn(s: State, s': State, n: nat)
    requires Shape(s) && s.phase.PendStop? && s' == TurnStep(s, None)
    ensures Fine(s, s', n)
  {
    if s.stop { BreakIsFine(s, s', Some(Message(s.pending.value)), false, n); }
  }

  lemma AppliedTurn(s: State, s': State, n: nat)
    requires Shape(s) && (s.phase.Applying? || s.phase.DrainApplying?) && s' == TurnStep(s, None)
    ensures Fine(s, s', n)
  {
    Last(s.dispositions, s.phase.command, n);
  }

  lemma RejectedTurn(s: State, s': State, n: nat)
    requires Shape(s) && s.phase.Rejecting? && s' == TurnStep(s, None)
    ensures Fine(s, s', n)
  {
    Last(s.dispositions, Command(s.phase.serial, Reject), n);
  }

  lemma DeliverStopTurn(s: State, s': State, n: nat)
    requires Shape(s) && s.phase.DeliverStop? && s' == TurnStep(s, None)
    ensures Fine(s, s', n)
  {
    if s.stop { BreakIsFine(s, s', Some(s.phase.item), s.phase.fatal, n); }
  }

  lemma FullTurn(s: State, s': State, n: nat)
    requires Shape(s) && s.phase.DeliverSend? && !s.subscriberGone && |s.out| >= s.capacity && s' == TurnStep(s, None)
    ensures Fine(s, s', n)
  {
  }

  lemma SentTurn(s: State, s': State, n: nat)
    requires Shape(s) && s.phase.DeliverSend? && !s.subscriberGone && |s.out| < s.capacity && !s.phase.fatal && s' == TurnStep(s, None)
    ensures Fine(s, s', n)
  {
  }

  lemma FatalTurn(s: State, s': State, n: nat)
    requires Shape(s) && s.phase.DeliverSend? && !s.subscriberGone && |s.out| < s.capacity && s.phase.fatal && s' == TurnStep(s, None)
    ensures Fine(s, s', n)
  {
    var s1 := Send(s, s.phase.item);
    assert s' == Break(s1, true, None) && s'.handles <= s.handles;
    Fewer(s.handles, s'.handles);
  }

  lemma DeliverSendTurn(s: State, s': State, n: nat)
    requires Shape(s) && s.phase.DeliverSend? && s' == TurnStep(s, None)
    ensures Fine(s, s', n)
  {
    if s.subscriberGone {
      BreakIsFine(s, s', Some(s.phase.item), s.phase.fatal, n);
    } else if |s.out| >= s.capacity {
      FullTurn(s, s', n);
    } else if s.phase.fatal {
      FatalTurn(s, s', n);
    } else {
      SentTurn(s, s', n);
    }
  }

  lemma DrainServesTurn(s: State, s': State, n: nat)
    requires Shape(s) && s.phase.DrainCommands? && s.commands != [] && s' == TurnStep(s, None)
    ensures Fine(s, s', n)
  {
    Head(s.commands, n);
  }

  lemma DrainIdleTurn(s: State, s': State, n: nat)
    requires Shape(s) && s.phase.DrainCommands? && s.commands == [] && s' == TurnStep(s, None)
    ensures Fine(s, s', n)
  {
    PhaseTurn(s, s', s'.phase, n);
  }

  lemma DrainCommandsTurn(s: State, s': State, n: nat)
    requires Shape(s) && s.phase.DrainCommands? && s' == TurnStep(s, None)
    ensures Fine(s, s', n)
  {
    if s.commands != [] { DrainServesTurn(s, s', n); } else { DrainIdleTurn(s, s', n); }
  }

  lemma EndTurn(s: State, s': State, n: nat)
    requires Shape(s) && (s.phase.DrainStop? || s.phase.Detaching? || s.phase.Ending? || s.phase.Releasing? || s.phase.Done?) && s' == TurnStep(s, None)
    ensures Fine(s, s', n)
  {
    if s.phase.DrainStop? || s.phase.Detaching? { PhaseTurn(s, s', s'.phase, n); }
  }

  lemma TurnIsFine(s: State, s': State, n: nat)
    requires Shape(s) && s' == TurnStep(s, None)
    ensures Fine(s, s', n)
  {
    match s.phase
    case IdleCommands => CommandsTurn(s, s', n);
    case PendCommands => CommandsTurn(s, s', n);
    case IdleClosed => ClosedTurn(s, s', n);
    case IdleStop => StopTurn(s, s', n);
    case IdleReceive => NothingTurn(s, s', n);
    case PendReserve => ReserveTurn(s, s', n);
    case PendStop => PendStopTurn(s, s', n);
    case Applying(_) => AppliedTurn(s, s', n);
    case DrainApplying(_) => AppliedTurn(s, s', n);
    case Rejecting(_) => RejectedTurn(s, s', n);
    case DeliverStop(_, _) => DeliverStopTurn(s, s', n);
    case DeliverSend(_, _) => DeliverSendTurn(s, s', n);
    case DrainCommands => DrainCommandsTurn(s, s', n);
    case _ => EndTurn(s, s', n);
  }

  // -- Every run ---------------------------------------------------------------------------------

  /** Whether a disposition can ever be due for delivery `n`. */
  predicate Due(s: State, n: nat) {
    n < |s.received| && !s.atMostOnce && (s.received[n].Readable? || s.received[n].Unreadable?)
  }

  predicate Once(s: State, n: nat) {
    && Times(s, n) <= One(Due(s, n))
    && (Due(s, n) && s.received[n].Unreadable? ==> Rejects(s, n) >= 1)
  }

  /** The drain is over: what is left is the detach and the end of the session. */
  predicate Past(p: Phase) {
    p.Detaching? || p.Ending? || p.Releasing? || p.Done?
  }

  /** The last receive brought an error that is not about one message. */
  predicate LinkFailed(s: State) {
    s.received != [] && s.received[|s.received| - 1] == Failed(AnyOther)
  }

  /** Without a stop the drain is over only when nobody is left to settle anything; and the loop ends
      fatally exactly when the link failed, which is when no detach follows. */
  predicate Ended(s: State) {
    && (Past(s.phase) && !s.stop ==> LineGone(s))
    && (s.phase.Detaching? ==> !s.fatal)
    && (if Winds(s.phase) then s.fatal == LinkFailed(s) else LinkFailed(s) == (Delivers(s.phase) && s.phase.fatal))
  }

  ghost predicate Inv(s: State) {
    Shape(s) && Stream(s) && Ended(s) && forall n: nat :: Once(s, n)
  }

  lemma ReceiveEnded(s: State, s': State, r: Received)
    requires s.phase.IdleReceive? && s' == Receive(s, r)
    ensures Ended(s')
  {
    match r
    case Readable =>
    case Unreadable =>
    case Failed(_) =>
  }

  lemma PhaseEnded(s: State, s': State, p: Phase)
    requires Ended(s) && s' == s.(phase := p) && Winds(p) == Winds(s.phase)
    requires (Delivers(p) && p.fatal) == (Delivers(s.phase) && s.phase.fatal)
    requires (Past(p) && !s.stop ==> LineGone(s)) && (p.Detaching? ==> !s.fatal)
    ensures Ended(s')
  {
  }

  lemma BreakEnded(s: State, s': State, lost: Option<Item>, fatal: bool)
    requires Ended(s) && InLoop(s) && s' == Break(s, fatal, lost) && fatal == (Delivers(s.phase) && s.phase.fatal)
    ensures Ended(s')
  {
  }

  lemma InLoopEnded(s: State, s': State)
    requires Ended(s) && InLoop(s) && InLoop(s') && !Delivers(s.phase) && !Delivers(s'.phase) && s'.received == s.received
    ensures Ended(s')
  {
  }

  lemma IdleCommandsEnded(s: State, s': State)
    requires Ended(s) && s.phase.IdleCommands? && s' == TurnStep(s, None)
    ensures Ended(s')
  {
    InLoopEnded(s, s');
  }

  lemma PendCommandsEnded(s: State, s': State)
    requires Ended(s) && s.phase.PendCommands? && s' == TurnStep(s, None)
    ensures Ended(s')
  {
    InLoopEnded(s, s');
  }

  lemma IdleEnded(s: State, s': State)
    requires Ended(s) && (s.phase.IdleClosed? || s.phase.IdleStop? || s.phase.IdleReceive?) && s' == TurnStep(s, None)
    ensures Ended(s')
  {
    if (s.phase.IdleClosed? && s.subscriberGone) || (s.phase.IdleStop? && s.stop) {
      BreakEnded(s, s', None, false);
    } else {
      PhaseEnded(s, s', s'.phase);
    }
  }

  lemma PendEnded(s: State, s': State)
    requires Shape(s) && Ended(s) && (s.phase.PendReserve? || s.phase.PendStop?) && s' == TurnStep(s, None)
    ensures Ended(s')
  {
    if (s.phase.PendReserve? && s.subscriberGone) || (s.phase.PendStop? && s.stop) {
      BreakEnded(s, s', Some(Message(s.pending.value)), false);
    } else if s.phase.PendStop? || |s.out| >= s.capacity {
      PhaseEnded(s, s', s'.phase);
    }
  }

  lemma AppliedEnded(s: State, s': State)
    requires Ended(s) && (Applies(s.phase) || s.phase.Rejecting?) && s' == TurnStep(s, None)
    ensures Ended(s')
  {
  }

  lemma DeliverEnded(s: State, s': State)
    requires Ended(s) && Delivers(s.phase) && s' == TurnStep(s, None)
    ensures Ended(s')
  {
    if (s.phase.DeliverStop? && s.stop) || (s.phase.DeliverSend? && s.subscriberGone) {
      BreakEnded(s, s', Some(s.phase.item), s.phase.fatal);
    } else if s.phase.DeliverStop? || |s.out| >= s.capacity {
      PhaseEnded(s, s', s'.phase);
    } else if s.phase.fatal {
      BreakEnded(Send(s, s.phase.item), s', None, true);
    }
  }

  lemma DrainEnded(s: State, s': State)
    requires Ended(s) && (s.phase.DrainCommands? || s.phase.DrainStop?) && s' == TurnStep(s, None)
    ensures Ended(s')
  {
    if s.phase.DrainStop? || s.commands == [] {
      PhaseEnded(s, s', s'.phase);
    }
  }

  lemma EndEnded(s: State, s': State)
    requires Ended(s) && Past(s.phase) && s' == TurnStep(s, None)
    ensures Ended(s')
  {
  }

  lemma TurnEnded(s: State, s': State)
    requires Shape(s) && Ended(s) && s' == TurnStep(s, None)
    ensures Ended(s')
  {
    match s.phase
    case IdleCommands => IdleCommandsEnded(s, s');
    case PendCommands => PendCommandsEnded(s, s');
    case IdleClosed => IdleEnded(s, s');
    case IdleStop => IdleEnded(s, s');
    case IdleReceive => IdleEnded(s, s');
    case PendReserve => PendEnded(s, s');
    case PendStop => PendEnded(s, s');
    case Applying(_) => AppliedEnded(s, s');
    case DrainApplying(_) => AppliedEnded(s, s');
    case Rejecting(_) => AppliedEnded(s, s');
    case DeliverStop(_, _) => DeliverEnded(s, s');
    case DeliverSend(_, _) => DeliverEnded(s, s');
    case DrainCommands => DrainEnded(s, s');
    case DrainStop => DrainEnded(s, s');
    case _ => EndEnded(s, s');
  }

  lemma KeepsEnded(s: State, s': State)
    requires Ended(s) && s'.phase == s.phase && s'.received == s.received && s'.fatal == s.fatal && (s.stop ==> s'.stop)
    requires LineGone(s) ==> LineGone(s')
    ensures Ended(s')
  {
  }

  /** Once nobody holds anything, nobody gets to hold anything again. */
  lemma SettleStaysGone(s: State, s': State, n: nat, kind: Kind)
    requires s' == Step(s, Settle(n, kind))
    ensures LineGone(s) ==> LineGone(s')
    ensures s'.phase == s.phase && s'.received == s.received && s'.fatal == s.fatal && s'.stop == s.stop
  {
  }

  lemma ForgetStaysGone(s: State, s': State, n: nat)
    requires s' == Step(s, Forget(n))
    ensures LineGone(s) ==> LineGone(s')
    ensures s'.phase == s.phase && s'.received == s.received && s'.fatal == s.fatal && s'.stop == s.stop
  {
  }

  lemma WorldStaysGone(s: State, s': State, e: Event)
    requires (e.Stop? || e.Take? || e.LeaveStream?) && s' == Step(s, e)
    ensures LineGone(s) ==> LineGone(s')
    ensures s'.phase == s.phase && s'.received == s.received && s'.fatal == s.fatal && (s.stop ==> s'.stop)
  {
  }

  lemma OtherEnded(s: State, s': State, e: Event)
    requires Ended(s) && !e.Turn? && s' == Step(s, e)
    ensures Ended(s') && (LineGone(s) ==> LineGone(s'))
  {
    match e
    case Settle(n, kind) => SettleStaysGone(s, s', n, kind); KeepsEnded(s, s');
    case Forget(n) => ForgetStaysGone(s, s', n); KeepsEnded(s, s');
    case _ => WorldStaysGone(s, s', e); KeepsEnded(s, s');
  }

  lemma ItemsMore(received: seq<Received>, r: Received)
    ensures Items(received + [r]) == Items(received) + [if r.Readable? then Message(|received|) else Failure(|received|)]
  {
    assert (received + [r])[..|received|] == received;
  }

  /** The item a receive makes is the one at hand then. */
  predicate Arrived(s: State, s': State, r: Received) {
    && s'.received == s.received + [r] && s'.sent == s.sent && Shape(s') && s'.atMostOnce == s.atMostOnce
    && Rest(s') == Some(if r.Readable? then Message(|s.received|) else Failure(|s.received|))
  }

  lemma ReceiveArrives(s: State, s': State, r: Received)
    requires Shape(s) && s.phase.IdleReceive? && s' == Receive(s, r)
    ensures Arrived(s, s', r)
  {
    match r
    case Readable =>
    case Unreadable =>
    case Failed(_) =>
  }

  lemma ReceiveOnce(s: State, s': State, r: Received, n: nat)
    requires s.phase.IdleReceive? && s' == Receive(s, r) && Once(s, n) && s'.received == s.received + [r] && s'.atMostOnce == s.atMostOnce
    ensures Once(s', n)
  {
    match r
    case Readable =>
    case Unreadable =>
    case Failed(_) =>
  }

  lemma ReceiveKeeps(s: State, s': State, r: Received)
    requires Inv(s) && s.phase.IdleReceive? && s' == Receive(s, r)
    ensures Inv(s')
  {
    ReceiveArrives(s, s', r);
    ReceiveEnded(s, s', r);
    ItemsMore(s.received, r);
    forall n: nat ensures Once(s', n) {
      ReceiveOnce(s, s', r, n);
    }
  }

  lemma TurnKeeps(s: State, s': State)
    requires Inv(s) && s' == TurnStep(s, None)
    ensures Inv(s') && Nears(s, s') && s'.received == s.received
  {
    TurnIsFine(s, s', 0);
    TurnEnded(s, s');
    forall n: nat ensures Once(s', n) {
      TurnIsFine(s, s', n);
      assert Once(s, n);
    }
  }

  /** What the world around the pump does to it: it adds no disposition and no item, and what it does
      to the settlements weighs no more than before. */
  predicate Around(s: State, s': State, n: nat) {
    && s'.phase == s.phase && s'.received == s.received && s'.sent == s.sent && s'.lost == s.lost && s'.pending == s.pending
    && s'.sessionEnded == s.sessionEnded && s'.atMostOnce == s.atMostOnce && s'.dispositions == s.dispositions
    && (s.stop ==> s'.stop)
    && Times(s', n) <= Times(s, n) && Measure(s') <= Measure(s)
  }

  lemma AskedAround(s: State, s': State, k: nat, kind: Kind, n: nat)
    requires k in s.handles
    requires s' == s.(handles := s.handles - {k}, asking := s.asking + {k}, commands := s.commands + [Command(k, kind)])
    ensures Around(s, s', n)
  {
    Last(s.commands, Command(k, kind), n);
  }

  lemma LetGoAround(s: State, s': State, k: nat, n: nat)
    requires k in s.handles && s' == s.(handles := s.handles - {k})
    ensures Around(s, s', n)
  {
  }

  lemma AskingAround(s: State, s': State, asking: set<nat>, n: nat)
    requires s' == s.(asking := asking)
    ensures Around(s, s', n)
  {
  }

  lemma SettleAround(s: State, s': State, k: nat, kind: Kind, n: nat)
    requires s' == Step(s, Settle(k, kind))
    ensures Around(s, s', n)
  {
    if !InHand(s, k) {
    } else if s.phase.Done? {
      LetGoAround(s, s', k, n);
    } else {
      AskedAround(s, s', k, kind, n);
    }
  }

  lemma ForgetAround(s: State, s': State, k: nat, n: nat)
    requires s' == Step(s, Forget(k))
    ensures Around(s, s', n)
  {
    if InHand(s, k) {
      LetGoAround(s, s', k, n);
    } else {
      AskingAround(s, s', s.asking - {k}, n);
    }
  }

  lemma StreamAround(s: State, s': State, e: Event, n: nat)
    requires (e.Stop? || e.Take?) && s' == Step(s, e)
    ensures Around(s, s', n)
  {
  }

  lemma LeaveInLoopAround(s: State, s': State, n: nat)
    requires s' == s.(subscriberGone := true)
    ensures Around(s, s', n)
  {
  }

  lemma LeaveLateAround(s: State, s': State, gone: set<nat>, n: nat)
    requires s' == s.(subscriberGone := true, out := [], handles := s.handles - gone)
    ensures Around(s, s', n)
  {
    Fewer(s.handles, s'.handles);
  }

  lemma LeaveAround(s: State, s': State, n: nat)
    requires s' == Step(s, LeaveStream)
    ensures Around(s, s', n)
  {
    if InLoop(s) {
      LeaveInLoopAround(s, s', n);
    } else {
      LeaveLateAround(s, s', SerialsOf(s.out), n);
    }
  }

  lemma OtherAround(s: State, s': State, e: Event, n: nat)
    requires !e.Turn? && s' == Step(s, e)
    ensures Around(s, s', n)
  {
    match e
    case Settle(k, kind) => SettleAround(s, s', k, kind, n);
    case Forget(k) => ForgetAround(s, s', k, n);
    case LeaveStream => LeaveAround(s, s', n);
    case _ => StreamAround(s, s', e, n);
  }

  lemma AroundKeeps(s: State, s': State, e: Event)
    requires Inv(s) && !e.Turn? && s' == Step(s, e)
    ensures Inv(s') && Around(s, s', 0)
  {
    OtherAround(s, s', e, 0);
    OtherEnded(s, s', e);
    forall n: nat ensures Once(s', n) {
      OtherAround(s, s', e, n);
      assert Once(s, n);
    }
  }

  /** How many receives can still happen once shutdown has begun: one, if the look at the stop signal
      was over just before it. */
  function Leeway(s: State): nat {
    One(s.phase.IdleReceive?)
  }

  /** What any step keeps, and what shutdown adds to that. */
  predicate Going(s: State, s': State, e: Event) {
    && (s.stop ==> s'.stop)
    && |s.received| <= |s'.received|
    && (s.stop ==> |s'.received| + Leeway(s') <= |s.received| + Leeway(s))
    && (s.stop ==> Measure(s') + One(e.Turn? && !s.phase.Done?) <= Measure(s))
    && (s.phase.Done? ==> s'.phase.Done?)
  }

  lemma ReceiveWeighs(s: State, s': State, r: Received)
    requires Shape(s) && s.phase.IdleReceive? && s' == Receive(s, r)
    ensures Measure(s') < Measure(s) && !s'.phase.IdleReceive? && |s'.received| == |s.received| + 1 && s'.stop == s.stop
  {
    match r
    case Readable => assert |s.handles + {|s.received|}| <= |s.handles| + 1;
    case Unreadable =>
    case Failed(_) =>
  }

  lemma StepKeeps(s: State, s': State, e: Event)
    requires Inv(s) && s' == Step(s, e)
    ensures Inv(s') && Going(s, s', e)
  {
    if e.Turn? && s.phase.IdleReceive? && e.arrives.Some? {
      ReceiveKeeps(s, s', e.arrives.value);
      ReceiveWeighs(s, s', e.arrives.value);
    } else if e.Turn? {
      assert s' == TurnStep(s, None);
      TurnKeeps(s, s');
    } else {
      AroundKeeps(s, s', e);
    }
  }

  function RunFrom(s: State, events: seq<Event>): State {
    if events == [] then s else Step(RunFrom(s, events[..|events| - 1]), events[|events| - 1])
  }

  lemma StartKeeps(capacity: nat, atMostOnce: bool)
    ensures Inv(Start(capacity, atMostOnce))
  {
    forall n: nat ensures Once(Start(capacity, atMostOnce), n) {
    }
  }

  lemma {:induction false} RunKeeps(capacity: nat, atMostOnce: bool, events: seq<Event>)
    ensures Inv(Run(capacity, atMostOnce, events))
  {
    if events == [] {
      StartKeeps(capacity, atMostOnce);
    } else {
      RunKeeps(capacity, atMostOnce, events[..|events| - 1]);
      StepKeeps(Run(capacity, atMostOnce, events[..|events| - 1]), Run(capacity, atMostOnce, events), events[|events| - 1]);
    }
  }

  lemma {:induction false} ItemsLength(received: seq<Received>)
    ensures |Items(received)| == |received|
  {
    if received != [] {
      ItemsLength(received[..|received| - 1]);
    }
  }

  /** In every run the channel gets one item for each receive, in receive order: all but the one the
      pump is busy with while its loop runs, and all but at most the last once the loop is over. */
  lemma {:induction false} OneItemPerReceive(capacity: nat, atMostOnce: bool, events: seq<Event>)
    ensures var s := Run(capacity, atMostOnce, events);
      && s.sent <= Items(s.received)
      && |s.received| - 1 <= |s.sent|
      && (InLoop(s) ==> With(s.sent, Busy(s)) == Items(s.received))
  {
    RunKeeps(capacity, atMostOnce, events);
    ItemsLength(Run(capacity, atMostOnce, events).received);
  }

  /** In every run each delivery gets at most one disposition, and none if it was settled on sending,
      was no delivery, or is still unsettled in someone's hands or queued. */
  lemma {:induction false} OneDispositionEach(capacity: nat, atMostOnce: bool, events: seq<Event>, n: nat)
    ensures var s := Run(capacity, atMostOnce, events);
      CountOf(s.dispositions, n) + CountOf(s.commands, n) + One(n in s.handles) <= One(Due(s, n))
  {
    RunKeeps(capacity, atMostOnce, events);
    assert Once(Run(capacity, atMostOnce, events), n);
  }

  /** In every run an unreadable at-least-once delivery is rejected, once, unless its rejection is the
      call the pump is in; nobody ever holds a handle on it, and nothing else settles it. */
  lemma {:induction false} UnreadableRejectedOnce(capacity: nat, atMostOnce: bool, events: seq<Event>, n: nat)
    requires var s := Run(capacity, atMostOnce, events); Due(s, n) && s.received[n].Unreadable?
    ensures var s := Run(capacity, atMostOnce, events);
      && Count(s.dispositions, Command(n, Reject)) == One(s.phase != Rejecting(n)) == CountOf(s.dispositions, n)
      && n !in s.handles && CountOf(s.commands, n) == 0
  {
    RunKeeps(capacity, atMostOnce, events);
    assert Once(Run(capacity, atMostOnce, events), n);
  }

  /** In every run: until shutdown has begun, the pump detaches, ends its session or is done only once no
      message handle is alive, no settlement waits for its answer, and none is queued. */
  lemma DrainServesEveryone(capacity: nat, atMostOnce: bool, events: seq<Event>)
    requires var s := Run(capacity, atMostOnce, events);
      !s.stop && (s.phase.Detaching? || s.phase.Ending? || s.phase.Releasing? || s.phase.Done?)
    ensures var s := Run(capacity, atMostOnce, events); s.handles == {} && s.asking == {} && s.commands == []
  {
    RunKeeps(capacity, atMostOnce, events);
  }

  /** The session ends next, or has ended. */
  predicate Over(s: State) {
    s.phase.Ending? || s.phase.Releasing? || s.phase.Done?
  }

  /** How often the pump of a run detached its receiver. */
  function Detaches(capacity: nat, atMostOnce: bool, events: seq<Event>): nat {
    if events == [] then 0
    else
      var front := events[..|events| - 1];
      Detaches(capacity, atMostOnce, front) + One(events[|events| - 1].Turn? && Run(capacity, atMostOnce, front).phase.Detaching?)
  }

  /** A session that is about to end or has ended did so after one detach, or, after an error of the
      link itself and then only, without one. */
  lemma {:induction false} DetachesUnlessTheLinkFailed(capacity: nat, atMostOnce: bool, events: seq<Event>)
    ensures var s := Run(capacity, atMostOnce, events);
      Detaches(capacity, atMostOnce, events) ==
        One(Over(s) && !LinkFailed(s))
  {
    if events != [] {
      var front, last := events[..|events| - 1], events[|events| - 1];
      DetachesUnlessTheLinkFailed(capacity, atMostOnce, front);
      RunKeeps(capacity, atMostOnce, front);
      StepDetaches(Run(capacity, atMostOnce, front), Run(capacity, atMostOnce, events), last);
    }
  }

  lemma StepDetaches(s: State, s': State, e: Event)
    requires Inv(s) && s' == Step(s, e)
    ensures One(Over(s') && !LinkFailed(s')) == One(Over(s) && !LinkFailed(s)) + One(e.Turn? && s.phase.Detaching?)
  {
    if !e.Turn? {
      OtherAround(s, s', e, 0);
    } else if s.phase.IdleReceive? {
      if e.arrives.Some? { ReceiveWeighs(s, s', e.arrives.value); }
    } else if InLoop(s) {
      TurnKeeps(s, s');
      LoopStaysUnder(s, s');
    } else {
      WindDetaches(s, s');
    }
  }

  /** No turn in the loop gets past the drain. */
  lemma LoopStaysUnder(s: State, s': State)
    requires Shape(s) && InLoop(s) && s' == TurnStep(s, None)
    ensures !Past(s'.phase)
  {
    if Delivers(s.phase) {
      DeliverStaysUnder(s, s');
    } else if Pends(s.phase) {
      PendStaysUnder(s, s');
    }
  }

  lemma PendStaysUnder(s: State, s': State)
    requires Shape(s) && Pends(s.phase) && s' == TurnStep(s, None)
    ensures !Past(s'.phase)
  {
  }

  lemma DeliverStaysUnder(s: State, s': State)
    requires Delivers(s.phase) && s' == TurnStep(s, None)
    ensures !Past(s'.phase)
  {
  }

  lemma WindDetaches(s: State, s': State)
    requires Ended(s) && Winds(s.phase) && s' == TurnStep(s, None)
    ensures One(Over(s') && !LinkFailed(s')) == One(Over(s) && !LinkFailed(s)) + One(s.phase.Detaching?)
  {
    if s.phase.DrainCommands? || s.phase.DrainStop? {
      DrainDetaches(s, s');
    } else if !Past(s.phase) {
      AppliedTurnApplies(s, s', None);
    }
  }

  lemma DrainDetaches(s: State, s': State)
    requires Ended(s) && (s.phase.DrainCommands? || s.phase.DrainStop?) && s' == TurnStep(s, None)
    ensures Over(s') ==> LinkFailed(s')
  {
  }

  lemma {:induction false} StoppedGoes(s: State, events: seq<Event>)
    requires Inv(s) && s.stop
    ensures var s' := RunFrom(s, events);
      && Inv(s') && s'.stop && |s'.received| + Leeway(s') <= |s.received| + Leeway(s)
      && (s'.phase.Done? || Measure(s') + Turns(events) <= Measure(s))
  {
    if events != [] {
      var front := events[..|events| - 1];
      StoppedGoes(s, front);
      StepKeeps(RunFrom(s, front), RunFrom(s, events), events[|events| - 1]);
    }
  }

  function Turns(events: seq<Event>): nat {
    if events == [] then 0 else Turns(events[..|events| - 1]) + One(events[|events| - 1].Turn?)
  }

  /** Once shutdown has begun the pump takes at most one further delivery, and none unless it stood
      between its look at the stop signal and its receive. */
  lemma AtMostOneMoreReceive(capacity: nat, atMostOnce: bool, events: seq<Event>, more: seq<Event>)
    requires Run(capacity, atMostOnce, events).stop
    ensures var s := Run(capacity, atMostOnce, events);
      |s.received| <= |RunFrom(s, more).received| <= |s.received| + One(s.phase.IdleReceive?)
  {
    RunKeeps(capacity, atMostOnce, events);
    StoppedGoes(Run(capacity, atMostOnce, events), more);
    ReceivedGrows(Run(capacity, atMostOnce, events), more);
  }

  lemma {:induction false} ReceivedGrows(s: State, events: seq<Event>)
    requires Inv(s)
    ensures Inv(RunFrom(s, events)) && |s.received| <= |RunFrom(s, events).received|
  {
    if events != [] {
      var front := events[..|events| - 1];
      ReceivedGrows(s, front);
      StepKeeps(RunFrom(s, front), RunFrom(s, events), events[|events| - 1]);
    }
  }

  /** That one receive is real: after shutdown has begun the pump can still receive exactly if it
      stands at its receive. */
  lemma {:induction false} ReceivesAfterStopExactly(capacity: nat, atMostOnce: bool, events: seq<Event>)
    requires Run(capacity, atMostOnce, events).stop
    ensures var s := Run(capacity, atMostOnce, events);
      (exists more: seq<Event> :: |RunFrom(s, more).received| > |s.received|) <==> s.phase.IdleReceive?
  {
    var s := Run(capacity, atMostOnce, events);
    RunKeeps(capacity, atMostOnce, events);
    if s.phase.IdleReceive? {
      var turn := Turn(Some(Readable));
      assert [turn][..0] == [] && RunFrom(s, [turn]) == Step(s, turn);
      ReceiveWeighs(s, TurnStep(s, Some(Readable)), Readable);
      assert |RunFrom(s, [turn]).received| > |s.received|;
    }
    forall more: seq<Event> ensures |RunFrom(s, more).received| <= |s.received| + One(s.phase.IdleReceive?) {
      StoppedGoes(s, more);
    }
  }

  lemma {:induction false} FromStart(capacity: nat, atMostOnce: bool, events: seq<Event>)
    ensures RunFrom(Start(capacity, atMostOnce), events) == Run(capacity, atMostOnce, events)
  {
    if events != [] {
      FromStart(capacity, atMostOnce, events[..|events| - 1]);
    }
  }

  lemma {:induction false} Joined(s: State, a: seq<Event>, b: seq<Event>)
    ensures RunFrom(s, a + b) == RunFrom(RunFrom(s, a), b)
  {
    if b == [] {
      assert a + b == a;
    } else {
      var front := b[..|b| - 1];
      assert (a + b)[..|a + b| - 1] == a + front;
      Joined(s, a, front);
    }
  }

  lemma OneEvent(s: State, e: Event)
    ensures RunFrom(s, [e]) == Step(s, e)
  {
    assert [e][..0] == [] && RunFrom(s, [e][..0]) == s;
  }

  /** Three looks that find nothing: no settlement, a subscriber that is there, and no stop. */
  function Looks(): seq<Event> {
    [Turn(None)] + [Turn(None)] + [Turn(None)]
  }

  lemma LooksFindNothing(s: State)
    requires s.phase.IdleCommands? && s.commands == [] && !s.subscriberGone && !s.stop
    ensures RunFrom(s, Looks()) == s.(phase := IdleReceive)
  {
    var t: Event := Turn(None);
    OneEvent(s, t);
    Joined(s, [t], [t]);
    OneEvent(s.(phase := IdleClosed), t);
    Joined(s, [t] + [t], [t]);
    OneEvent(s.(phase := IdleStop), t);
  }

  /** The run that gets there: three looks that find nothing, and then the stop. */
  lemma StopCanComeAfterTheLook(capacity: nat, atMostOnce: bool)
    ensures var s := Run(capacity, atMostOnce, Looks() + [Stop]); s.stop && s.phase.IdleReceive?
  {
    var s0 := Start(capacity, atMostOnce);
    LooksFindNothing(s0);
    Joined(s0, Looks(), [Stop]);
    OneEvent(s0.(phase := IdleReceive), Stop);
    FromStart(capacity, atMostOnce, Looks() + [Stop]);
  }

  /** Termination. Once shutdown has begun, whatever handlers and the subscriber do, the pump ends its
      session within as many of its turns as its phase, its queued commands and the live unsettled
      handles weigh. Its turns wait for nobody but the client's answers. */
  lemma {:induction false} ReachesTheEnd(capacity: nat, atMostOnce: bool, events: seq<Event>, more: seq<Event>)
    requires Run(capacity, atMostOnce, events).stop
    ensures var s := Run(capacity, atMostOnce, events);
      Turns(more) >= Measure(s) ==> RunFrom(s, more).phase.Done? && RunFrom(s, more).sessionEnded
  {
    RunKeeps(capacity, atMostOnce, events);
    if Turns(more) >= Measure(Run(capacity, atMostOnce, events)) {
      StoppedEnds(Run(capacity, atMostOnce, events), more);
    }
  }

  lemma StoppedEnds(s: State, more: seq<Event>)
    requires Inv(s) && s.stop && Turns(more) >= Measure(s)
    ensures RunFrom(s, more).phase.Done? && RunFrom(s, more).sessionEnded
  {
    StoppedGoes(s, more);
    NoMeasureLeft(RunFrom(s, more));
  }

  lemma NoMeasureLeft(s: State)
    requires Inv(s)
    ensures Measure(s) == 0 ==> s.phase.Done?
    ensures s.phase.Done? ==> s.sessionEnded
  {
  }

  // -- Serving settlements while something waits -------------------------------------------------

  /** How many of the pump's turns a queued settlement waits at most, where that has a bound. */
  function Wait(p: Phase): Option<nat> {
    match p
    case PendReserve => Some(4)
    case PendStop => Some(3)
    case PendCommands => Some(2)
    case IdleCommands => Some(2)
    case DrainCommands => Some(2)
    case _ => None
  }

  /** The settlement that was first in line, after the dispositions `before`, is applied within `left`
      turns. */
  predicate Soon(s: State, before: seq<Command>, c: Command, left: nat) {
    || before + [c] <= s.dispositions
    || (s.dispositions == before && Applies(s.phase) && s.phase.command == c && left >= 1)
    || (s.dispositions == before && s.commands != [] && s.commands[0] == c && Wait(s.phase).Some? && left >= Wait(s.phase).value)
  }

  lemma QueuedTurn(s: State, s': State, arrives: Option<Received>, c: Command)
    requires Shape(s) && s.commands != [] && s.commands[0] == c && Wait(s.phase).Some? && s' == TurnStep(s, arrives)
    ensures s'.dispositions == s.dispositions
    ensures (Applies(s'.phase) && s'.phase.command == c && Wait(s.phase).value == 2) ||
      (s'.commands == s.commands && Wait(s'.phase).Some? && Wait(s'.phase).value < Wait(s.phase).value)
  {
    match s.phase
    case PendReserve =>
    case PendStop =>
    case PendCommands =>
    case IdleCommands =>
    case DrainCommands =>
  }

  lemma AppliedTurnApplies(s: State, s': State, arrives: Option<Received>)
    requires Applies(s.phase) && s' == TurnStep(s, arrives)
    ensures s'.dispositions == s.dispositions + [s.phase.command]
  {
  }

  lemma DispositionsGrow(s: State, s': State, arrives: Option<Received>)
    requires Shape(s) && s' == TurnStep(s, arrives)
    ensures s.dispositions <= s'.dispositions
  {
    if s.phase.IdleReceive? && arrives.Some? {
      match arrives.value
      case Readable =>
      case Unreadable =>
      case Failed(_) =>
    } else {
      GrowQuietly(s, s');
    }
  }

  lemma GrowQuietly(s: State, s': State)
    requires s' == TurnStep(s, None)
    ensures s.dispositions <= s'.dispositions
  {
    if Applies(s.phase) {
      AppliedTurnApplies(s, s', None);
    } else if Pends(s.phase) {
      PendSettlesNothing(s, s');
    } else if Delivers(s.phase) {
      DeliverSettlesNothing(s, s');
    } else if Winds(s.phase) {
      WindSettlesNothing(s, s');
    } else if !s.phase.Rejecting? {
      IdleSettlesNothing(s, s');
    }
  }

  lemma IdleSettlesNothing(s: State, s': State)
    requires s' == TurnStep(s, None) && (s.phase.IdleCommands? || s.phase.IdleClosed? || s.phase.IdleStop? || s.phase.IdleReceive?)
    ensures s'.dispositions == s.dispositions
  {
  }

  lemma PendSettlesNothing(s: State, s': State)
    requires s' == TurnStep(s, None) && Pends(s.phase)
    ensures s'.dispositions == s.dispositions
  {
  }

  lemma DeliverSettlesNothing(s: State, s': State)
    requires s' == TurnStep(s, None) && Delivers(s.phase)
    ensures s'.dispositions == s.dispositions
  {
  }

  lemma WindSettlesNothing(s: State, s': State)
    requires s' == TurnStep(s, None) && Winds(s.phase) && !Applies(s.phase)
    ensures s'.dispositions == s.dispositions
  {
  }

  lemma TurnSoon(s: State, s': State, arrives: Option<Received>, before: seq<Command>, c: Command, left: nat)
    requires Shape(s) && Soon(s, before, c, left) && s' == TurnStep(s, arrives)
    ensures Soon(s', before, c, if left == 0 then 0 else left - 1)
  {
    if before + [c] <= s.dispositions {
      DispositionsGrow(s, s', arrives);
    } else if Applies(s.phase) && s.phase.command == c && s.dispositions == before {
      AppliedTurnApplies(s, s', arrives);
    } else {
      QueuedTurn(s, s', arrives, c);
    }
  }

  lemma OtherSoon(s: State, s': State, e: Event, before: seq<Command>, c: Command, left: nat)
    requires !e.Turn? && Soon(s, before, c, left) && s' == Step(s, e)
    ensures Soon(s', before, c, left)
  {
    OtherAround(s, s', e, 0);
    CommandsStay(s, s', e);
  }

  lemma CommandsStay(s: State, s': State, e: Event)
    requires !e.Turn? && s' == Step(s, e)
    ensures s.commands <= s'.commands
  {
  }

  lemma {:induction false} SoonFrom(s: State, more: seq<Event>, before: seq<Command>, c: Command, left: nat)
    requires Inv(s) && Soon(s, before, c, left)
    ensures Inv(RunFrom(s, more)) && Soon(RunFrom(s, more), before, c, if Turns(more) <= left then left - Turns(more) else 0)
  {
    if more != [] {
      var front, last := more[..|more| - 1], more[|more| - 1];
      SoonFrom(s, front, before, c, left);
      var s1 := RunFrom(s, front);
      StepKeeps(s1, Step(s1, last), last);
      var now := if Turns(front) <= left then left - Turns(front) else 0;
      if last.Turn? {
        TurnSoon(s1, Step(s1, last), last.arrives, before, c, now);
      } else {
        OtherSoon(s1, Step(s1, last), last, before, c, now);
      }
    }
  }

  /** While a message waits for its place, the next settlement is applied within four of the pump's
      turns, whatever handlers, the subscriber and a shutdown do in between. */
  lemma {:induction false} PendingServesSettlements(capacity: nat, atMostOnce: bool, events: seq<Event>, more: seq<Event>)
    requires var s := Run(capacity, atMostOnce, events); Pends(s.phase) && s.commands != []
    requires Turns(more) >= 4
    ensures var s := Run(capacity, atMostOnce, events); s.dispositions + [s.commands[0]] <= RunFrom(s, more).dispositions
  {
    var s := Run(capacity, atMostOnce, events);
    RunKeeps(capacity, atMostOnce, events);
    SoonFrom(s, more, s.dispositions, s.commands[0], 4);
  }

  predicate Blocked(s: State) {
    !s.stop && !s.subscriberGone && |s.out| >= s.capacity
  }

  /** Nobody stops the pump, polls the stream or drops it. */
  predicate Unread(events: seq<Event>) {
    forall i :: 0 <= i < |events| ==> events[i].Turn? || events[i].Settle? || events[i].Forget?
  }

  /** The error item still waits, and what was queued for the pump is queued still. */
  predicate ServesNone(s: State, s': State) {
    Delivers(s'.phase) && Blocked(s') && s'.dispositions == s.dispositions && s.commands <= s'.commands
  }

  lemma BlockedTurn(s: State, s': State, arrives: Option<Received>)
    requires Delivers(s.phase) && Blocked(s) && s' == TurnStep(s, arrives)
    ensures ServesNone(s, s')
  {
  }

  lemma BlockedSettle(s: State, s': State, n: nat, kind: Kind)
    requires Delivers(s.phase) && Blocked(s) && s' == Step(s, Settle(n, kind))
    ensures ServesNone(s, s')
  {
  }

  lemma BlockedForget(s: State, s': State, n: nat)
    requires Delivers(s.phase) && Blocked(s) && s' == Step(s, Forget(n))
    ensures ServesNone(s, s')
  {
  }

  /** An error item is different: while it waits for its place in a full channel that nobody reads, no
      number of turns serves any settlement, whatever handlers ask for meanwhile. */
  lemma {:induction false} ErrorItemServesNone(s: State, more: seq<Event>)
    requires Delivers(s.phase) && Blocked(s) && Unread(more)
    ensures ServesNone(s, RunFrom(s, more))
  {
    if more != [] {
      var front, last := more[..|more| - 1], more[|more| - 1];
      assert forall i :: 0 <= i < |front| ==> front[i] == more[i];
      ErrorItemServesNone(s, front);
      var s1 := RunFrom(s, front);
      match last
      case Turn(arrives) => BlockedTurn(s1, Step(s1, last), arrives);
      case Settle(n, kind) => BlockedSettle(s1, Step(s1, last), n, kind);
      case Forget(n) => BlockedForget(s1, Step(s1, last), n);
    }
  }

  function Receives(r: Received): seq<Event> {
    Looks() + [Turn(Some(r))]
  }

  lemma LooksAndReceives(s: State, r: Received)
    requires s.phase.IdleCommands? && s.commands == [] && !s.subscriberGone && !s.stop
    ensures RunFrom(s, Receives(r)) == Receive(s.(phase := IdleReceive), r)
  {
    LooksFindNothing(s);
    Joined(s, Looks(), [Turn(Some(r))]);
    OneEvent(s.(phase := IdleReceive), Turn(Some(r)));
  }

  /** Two looks that find a place for the pending message. */
  function HandsOver(): seq<Event> {
    [Turn(None)] + [Turn(None)]
  }

  lemma HandsItOver(s: State, n: nat)
    requires s.phase.PendCommands? && s.pending == Some(n) && s.commands == [] && !s.subscriberGone && |s.out| < s.capacity
    ensures RunFrom(s, HandsOver()) == Send(s, Message(n)).(pending := None, phase := IdleCommands)
  {
    var t: Event := Turn(None);
    OneEvent(s, t);
    Joined(s, [t], [t]);
    OneEvent(s.(phase := PendReserve), t);
  }

  /** The pump of a channel with one place at rest: `sent` messages went out, the last `kept` of them
      unread, and the others are with their handlers. */
  function AtRest(received: seq<Received>, sent: seq<Item>, out: seq<Item>, handles: set<nat>): State {
    Start(1, false).(received := received, sent := sent, out := out, handles := handles)
  }

  lemma PassesOn(received: seq<Received>, sent: seq<Item>, handles: set<nat>)
    ensures var n := |received|;
      RunFrom(AtRest(received, sent, [], handles), Receives(Readable) + HandsOver()) ==
        AtRest(received + [Readable], sent + [Message(n)], [Message(n)], handles + {n})
  {
    var s := AtRest(received, sent, [], handles);
    LooksAndReceives(s, Readable);
    Joined(s, Receives(Readable), HandsOver());
    HandsItOver(Receive(s.(phase := IdleReceive), Readable), |received|);
    assert [] + [Message(|received|)] == [Message(|received|)];
  }

  /** A receive, its message's way into the channel, and the subscriber taking it; then all but the last
      once more. */
  function FillsTheChannel(): seq<Event> {
    (Receives(Readable) + HandsOver()) + [Take] + (Receives(Readable) + HandsOver())
  }

  lemma ChannelFills()
    ensures RunFrom(AtRest([], [], [], {}), FillsTheChannel()) ==
      AtRest([Readable] + [Readable], [Message(0)] + [Message(1)], [Message(1)], {0} + {1})
  {
    var passes := Receives(Readable) + HandsOver();
    var s0, s1 := AtRest([], [], [], {}), AtRest([] + [Readable], [] + [Message(0)], [Message(0)], {} + {0});
    PassesOn([], [], {});
    Joined(s0, passes, [Take]);
    OneEvent(s1, Take);
    assert [] + [Readable] == [Readable] && [] + [Message(0)] == [Message(0)] && {} + {0} == {0};
    var s2 := AtRest([Readable], [Message(0)], [], {0});
    assert Step(s1, Take) == s2;
    Joined(s0, passes + [Take], passes);
    PassesOn([Readable], [Message(0)], {0});
  }

  /** Such a state comes about: with one place in the channel, a first message goes to its handler, a
      second one fills the channel, a receive fails, and the handler settles. From then on its settlement
      waits for the subscriber. */
  lemma ErrorItemHoldsUpASettlement(more: seq<Event>)
    requires Unread(more)
    ensures var s := Run(1, false, FillsTheChannel() + Receives(Failed(MessageDecode)) + [Settle(0, Accept)]);
      s.commands == [Command(0, Accept)] && RunFrom(s, more).dispositions == [] && s.commands <= RunFrom(s, more).commands
  {
    var s0, fills, fails := Start(1, false), FillsTheChannel(), Receives(Failed(MessageDecode));
    ChannelFills();
    assert s0 == AtRest([], [], [], {});
    FailsAndSettles(RunFrom(s0, fills), more);
    Joined(s0, fills, fails);
    Joined(s0, fills + fails, [Settle(0, Accept)]);
    FromStart(1, false, fills + fails + [Settle(0, Accept)]);
  }

  lemma FailsAndSettles(s: State, more: seq<Event>)
    requires s.phase.IdleCommands? && s.commands == [] && !s.subscriberGone && !s.stop && s.dispositions == []
    requires |s.out| >= s.capacity && InHand(s, 0) && Unread(more)
    ensures var s' := RunFrom(RunFrom(s, Receives(Failed(MessageDecode))), [Settle(0, Accept)]);
      s'.commands == [Command(0, Accept)] && RunFrom(s', more).dispositions == [] && s'.commands <= RunFrom(s', more).commands
  {
    LooksAndReceives(s, Failed(MessageDecode));
    var s1 := RunFrom(s, Receives(Failed(MessageDecode)));
    OneEvent(s1, Settle(0, Accept));
    ErrorItemServesNone(Step(s1, Settle(0, Accept)), more);
  }
}
