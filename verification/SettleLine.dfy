/** The settlement line of one subscription, as the atomic steps its concurrent settlements take.

    Every settlement is one task with a program counter. A step is one atomic operation of the
    source: a queue pop or push, a load, a compare-exchange, a fetch-and-add, or one operation of
    the wake-up object (`Notify`), whose internal lock makes it atomic. A schedule is any sequence
    of steps, so what holds after every schedule holds under every interleaving.

    `Notify` keeps its waiters in arrival order and stores at most one permit. A waiter that was
    notified and goes away before it resumed passes its notification on. */
module SettleLine {

  /** What the client answered for one settlement. */
  datatype Answer = Accepted | Refused(reason: string)

  /** What one settlement reports, or that it was cancelled before it could. */
  datatype Outcome = Answered(answer: Answer) | PumpStopped | Cancelled

  /** One reusable answer slot: `Ready` hands out its sender, `Lent` has one outstanding. */
  datatype Cell = Ready | Lent | Written(answer: Answer) | Hung

  /** What the pump did with the command of one settlement. */
  datatype Reply = Gave(answer: Answer) | Dropped

  /** A settlement request on its way to the pump, or held by it. */
  datatype Command = Command(delivery: nat, slot: nat)

  /** Which look at the slots a task takes: the first of its loop, `woken` when it comes from a
      wake-up, or the second, registered one. */
  datatype Look = First(woken: bool) | Second

  /** What a task does once it is out of the waiting section. */
  datatype Next = Proceed(slot: nat) | Again | Leave

  datatype Pc =
    | Pop(look: Look)
    | Load(look: Look)
    | Exchange(look: Look, seen: int)
    | Enable
    | Enter
    | Parked
    | LeaveWaiting(next: Next)
    | DropNotified(next: Next)
    | Send(slot: nat)
    | Receive(slot: nat)
    | Release(slot: nat, outcome: Outcome)
    | GiveUp(slot: nat, outcome: Outcome)
    | LoadWaiting(outcome: Outcome)
    | NotifyOne(outcome: Outcome)
    | Finished(outcome: Outcome)

  /** A settlement's own entry in the wake-up object. */
  datatype Wait = Unregistered | Queued | Notified | Consumed

  datatype Task = Task(pc: Pc, wait: Wait)

  datatype Line = Line(
    credit: nat,
    idle: seq<nat>,
    made: int,
    waiting: int,
    waiters: seq<nat>,
    permit: bool,
    tasks: seq<Task>,
    cells: seq<Cell>,
    commands: set<Command>,
    replies: map<nat, Reply>,
    open: bool)

  /** One step of the schedule: a new settlement, one step of a task (a weak compare-exchange may
      fail `spuriously`), a cancellation, or the pump answering, dropping a command, or stopping. */
  datatype Event =
    | Spawn
    | Advance(task: nat, spuriously: bool)
    | Cancel(task: nat)
    | PumpReply(command: Command, reply: Reply)
    | PumpStops

  function Opened(credit: nat): Line {
    Line(credit, [], 0, 0, [], false, [], [], {}, map[], true)
  }

  function Goto(l: Line, t: nat, pc: Pc): Line
    requires t < |l.tasks|
  {
    l.(tasks := l.tasks[t := l.tasks[t].(pc := pc)])
  }

  function Without(s: seq<nat>, x: nat): seq<nat> {
    if s == [] then [] else if s[0] == x then s[1..] else [s[0]] + Without(s[1..], x)
  }

  // -- The look at the slots -------------------------------------------------------------------

  /** Takes the sender of `slot`, or of a fresh slot when it would not hand one out. */
  function Take(l: Line, t: nat, look: Look, slot: nat): Line
    requires t < |l.tasks|
  {
    var (l', s) :=
      if slot < |l.cells| && l.cells[slot] == Ready
      then (l.(cells := l.cells[slot := Lent]), slot)
      else (l.(cells := l.cells + [Lent]), |l.cells|);
    Goto(l', t, if look.Second? then LeaveWaiting(Proceed(s)) else Send(s))
  }

  function Miss(l: Line, t: nat, look: Look): Line
    requires t < |l.tasks|
  {
    Goto(l, t, if look.Second? then Parked else Enable)
  }

  function PopStep(l: Line, t: nat, look: Look): Line
    requires t < |l.tasks|
  {
    if l.idle == [] then Goto(l, t, Load(look))
    else Take(l.(idle := l.idle[1..]), t, look, l.idle[0])
  }

  function LoadStep(l: Line, t: nat, look: Look): Line
    requires t < |l.tasks|
  {
    if l.made < l.credit then Goto(l, t, Exchange(look, l.made))
    else Miss(l, t, look)
  }

  function ExchangeStep(l: Line, t: nat, look: Look, seen: int, spuriously: bool): Line
    requires t < |l.tasks|
  {
    if !spuriously && l.made == seen
    then Take(l.(made := l.made + 1, cells := l.cells + [Ready]), t, look, |l.cells|)
    else LoadStep(l, t, look)
  }

  // -- The wake-up object ----------------------------------------------------------------------

  function Notify(l: Line): Line {
    if l.waiters == [] then l.(permit := true)
    else
      var w := l.waiters[0];
      var l' := l.(waiters := l.waiters[1..]);
      if w < |l.tasks| then l'.(tasks := l.tasks[w := l.tasks[w].(wait := Notified)]) else l'
  }

  function EnableStep(l: Line, t: nat): Line
    requires t < |l.tasks|
  {
    if l.permit then l.(permit := false, tasks := l.tasks[t := Task(Enter, Consumed)])
    else l.(waiters := l.waiters + [t], tasks := l.tasks[t := Task(Enter, Queued)])
  }

  function After(next: Next): Pc {
    match next
    case Proceed(slot) => Send(slot)
    case Again => Pop(First(true))
    case Leave => Finished(Cancelled)
  }

  function DropNotifiedStep(l: Line, t: nat, next: Next): Line
    requires t < |l.tasks|
  {
    var l' := l.(tasks := l.tasks[t := Task(After(next), Unregistered)]);
    match l.tasks[t].wait
    case Queued => l'.(waiters := Without(l.waiters, t))
    case Notified => Notify(l')
    case _ => l'
  }

  // -- The exchange with the pump --------------------------------------------------------------

  function SendStep(l: Line, t: nat, slot: nat): Line
    requires t < |l.tasks|
  {
    if l.open then Goto(l.(commands := l.commands + {Command(t, slot)}), t, Receive(slot))
    else Goto(SetCell(l, slot, Hung), t, GiveUp(slot, PumpStopped))
  }

  function SetCell(l: Line, slot: nat, cell: Cell): Line {
    if slot < |l.cells| then l.(cells := l.cells[slot := cell]) else l
  }

  function ReceiveStep(l: Line, t: nat, slot: nat): Line
    requires t < |l.tasks| && slot < |l.cells| && (l.cells[slot].Written? || l.cells[slot].Hung?)
  {
    var outcome := if l.cells[slot].Written? then Answered(l.cells[slot].answer) else PumpStopped;
    Goto(SetCell(l, slot, Ready), t, Release(slot, outcome))
  }

  function ReleaseStep(l: Line, t: nat, slot: nat, outcome: Outcome): Line
    requires t < |l.tasks|
  {
    Goto(if |l.idle| < l.credit then l.(idle := l.idle + [slot]) else l.(made := l.made - 1),
         t, LoadWaiting(outcome))
  }

  // -- One step, and a schedule of them --------------------------------------------------------

  /** Whether a task can take its next step now: a parked one needs its notification, and one that
      waits for its answer needs the answer or the end of its command. */
  predicate CanAdvance(l: Line, t: nat) {
    t < |l.tasks| &&
    match l.tasks[t].pc
    case Parked => l.tasks[t].wait != Queued
    case Receive(slot) => slot < |l.cells| && (l.cells[slot].Written? || l.cells[slot].Hung?)
    case Finished(_) => false
    case _ => true
  }

  function AdvanceStep(l: Line, t: nat, spuriously: bool): Line
    requires CanAdvance(l, t)
  {
    match l.tasks[t].pc
    case Pop(look) => PopStep(l, t, look)
    case Load(look) => LoadStep(l, t, look)
    case Exchange(look, seen) => ExchangeStep(l, t, look, seen, spuriously)
    case Enable => EnableStep(l, t)
    case Enter => Goto(l.(waiting := l.waiting + 1), t, Pop(Second))
    case Parked => l.(tasks := l.tasks[t := Task(LeaveWaiting(Again), Consumed)])
    case LeaveWaiting(next) => Goto(l.(waiting := l.waiting - 1), t, DropNotified(next))
    case DropNotified(next) => DropNotifiedStep(l, t, next)
    case Send(slot) => SendStep(l, t, slot)
    case Receive(slot) => ReceiveStep(l, t, slot)
    case Release(slot, outcome) => ReleaseStep(l, t, slot, outcome)
    case GiveUp(slot, outcome) => Goto(l.(made := l.made - 1), t, LoadWaiting(outcome))
    case LoadWaiting(outcome) =>
      Goto(l, t, if l.waiting > 0 then NotifyOne(outcome) else Finished(outcome))
    case NotifyOne(outcome) => Goto(Notify(l), t, Finished(outcome))
  }

  /** A settlement can be dropped wherever it is suspended: parked, or waiting for its answer. */
  predicate CanCancel(l: Line, t: nat) {
    t < |l.tasks| && (l.tasks[t].pc.Receive? || (l.tasks[t].pc.Parked? && l.tasks[t].wait != Consumed))
  }

  function CancelStep(l: Line, t: nat): Line
    requires CanCancel(l, t)
  {
    match l.tasks[t].pc
    case Receive(slot) => Goto(l, t, GiveUp(slot, Cancelled))
    case _ => Goto(l, t, LeaveWaiting(Leave))
  }

  /** The pump answers a command into its slot, or drops it unanswered. */
  function ReplyStep(l: Line, c: Command, reply: Reply): Line {
    var l' := l.(commands := l.commands - {c}, replies := l.replies[c.delivery := reply]);
    SetCell(l', c.slot, if reply.Gave? then Written(reply.answer) else Hung)
  }

  function Step(l: Line, e: Event): Line {
    match e
    case Spawn => l.(tasks := l.tasks + [Task(Pop(First(false)), Unregistered)])
    case Advance(t, spuriously) => if CanAdvance(l, t) then AdvanceStep(l, t, spuriously) else l
    case Cancel(t) => if CanCancel(l, t) then CancelStep(l, t) else l
    case PumpReply(c, reply) => if c in l.commands then ReplyStep(l, c, reply) else l
    case PumpStops => l.(open := false)
  }

  /** The line after a schedule. An event that is not enabled changes nothing. */
  function Run(credit: nat, schedule: seq<Event>): Line {
    if schedule == [] then Opened(credit)
    else Step(Run(credit, schedule[..|schedule| - 1]), schedule[|schedule| - 1])
  }
}
