/** The settlement line as the object its settlements share: two counters, a queue of idle slots and the
    wake-up object, each changed in place by one atomic operation at a time. The steps keep the line
    valid; `Settle` runs one settlement from its first look to its answer. */
module SettleLineObject {
  import opened Common
  import opened SettleLine
  import opened SettleLineWakeup
  import opened SettleLineAnswers

  // -- One settlement that nobody interrupts -----------------------------------------------------

  /** What the settlement reports in the end: the pump's reply, or that the pump stopped. */
  function Due(open: bool, reply: Reply): Outcome {
    if open then OutcomeFor(reply) else PumpStopped
  }

  /** Where a settlement can be that nobody cancels, notifies or overtakes. */
  predicate Uninterrupted(l: Line, t: nat, reply: Reply) {
    t < |l.tasks| && l.tasks[t].wait != Notified &&
    match l.tasks[t].pc
    case Exchange(_, seen) => seen == l.made
    case LeaveWaiting(next) => !next.Leave?
    case DropNotified(next) => !next.Leave?
    case Receive(slot) => l.open && (Command(t, slot) in l.commands || (t in l.replies && l.replies[t] == reply))
    case Release(_, o) => o == Due(l.open, reply)
    case GiveUp(_, o) => o == Due(l.open, reply)
    case LoadWaiting(o) => o == Due(l.open, reply)
    case NotifyOne(o) => o == Due(l.open, reply)
    case Finished(o) => o == Due(l.open, reply)
    case _ => true
  }

  /** With a slot free when it started, the settlement finds one on its first look. */
  predicate Straight(l: Line, pc: Pc) {
    match pc
    case Pop(look) => look.First? && FreeSlots(l) > 0
    case Load(look) => look.First? && FreeSlots(l) > 0 && l.idle == []
    case Exchange(look, seen) => look.First? && seen == l.made
    case Enable => false
    case Enter => false
    case Parked => false
    case LeaveWaiting(_) => false
    case DropNotified(_) => false
    case _ => true
  }

  /** Without one it is still looking or waiting. */
  predicate WithoutSlot(pc: Pc) {
    BeforeSend(pc) && !HasSlot(pc)
  }

  /** A stored permit, or the entry that consumed it, lets the settlement look once more. */
  function Retries(l: Line, task: Task): nat {
    if BeforeSend(task.pc) && !task.pc.Send?
    then (if l.permit then 2 else 0) + if task.wait == Consumed then 1 else 0
    else 0
  }

  function StepsLeft(pc: Pc, replied: bool): nat {
    match pc
    case Pop(look) => if look.First? then 20 else 15
    case Load(look) => if look.First? then 19 else 14
    case Exchange(look, _) => if look.First? then 18 else 13
    case Enable => 17
    case Enter => 16
    case Parked => 12
    case LeaveWaiting(_) => 11
    case DropNotified(_) => 10
    case Send(_) => 8
    case Receive(_) => if replied then 6 else 7
    case Release(_, _) => 5
    case GiveUp(_, _) => 5
    case LoadWaiting(_) => 4
    case NotifyOne(_) => 3
    case Finished(_) => 0
  }

  function HeldBy(pc: Pc): nat {
    if HasSlot(pc) then 1 else 0
  }

  /** What one uninterrupted step of settlement `t` does for its caller, and that it gets nearer. */
  predicate Progresses(l: Line, l': Line, t: nat, reply: Reply)
    requires t < |l.tasks|
  {
    Serves(l, l', t, reply) && Nears(l, l', t)
  }

  predicate Serves(l: Line, l': Line, t: nat, reply: Reply)
    requires t < |l.tasks|
  {
    && Uninterrupted(l', t, reply) && l'.open == l.open
    && FreeSlots(l') + HeldBy(l'.tasks[t].pc) == FreeSlots(l) + HeldBy(l.tasks[t].pc)
    && (Straight(l, l.tasks[t].pc) ==> Straight(l', l'.tasks[t].pc))
    && (FreeSlots(l) <= 0 && WithoutSlot(l.tasks[t].pc) ==> WithoutSlot(l'.tasks[t].pc))
  }

  predicate Nears(l: Line, l': Line, t: nat)
    requires t < |l.tasks|
  {
    t < |l'.tasks| &&
    var before, after := Retries(l, l.tasks[t]), Retries(l', l'.tasks[t]);
    after < before ||
    (after == before && StepsLeft(l'.tasks[t].pc, t in l'.replies) < StepsLeft(l.tasks[t].pc, t in l.replies))
  }

  lemma PopFinds(l: Line, l': Line, t: nat, look: Look, reply: Reply)
    requires Inv(l) && Uninterrupted(l, t, reply) && l.tasks[t].pc == Pop(look) && l.idle != []
    requires l' == Take(l.(idle := l.idle[1..]), t, look, l.idle[0])
    ensures Progresses(l, l', t, reply)
  {
  }

  lemma PopMisses(l: Line, l': Line, t: nat, look: Look, reply: Reply)
    requires Uninterrupted(l, t, reply) && l.tasks[t].pc == Pop(look) && l.idle == [] && l' == Goto(l, t, Load(look))
    ensures Progresses(l, l', t, reply)
  {
  }

  lemma PopProgresses(l: Line, l': Line, t: nat, look: Look, reply: Reply)
    requires Inv(l) && Uninterrupted(l, t, reply) && l.tasks[t].pc == Pop(look) && l' == PopStep(l, t, look)
    ensures Progresses(l, l', t, reply)
  {
    if l.idle == [] {
      PopMisses(l, l', t, look, reply);
    } else {
      PopFinds(l, l', t, look, reply);
    }
  }

  lemma LoadProgresses(l: Line, l': Line, t: nat, look: Look, reply: Reply)
    requires Uninterrupted(l, t, reply) && l.tasks[t].pc == Load(look) && l' == LoadStep(l, t, look)
    ensures Progresses(l, l', t, reply)
  {
    assert Serves(l, l', t, reply);
    assert Nears(l, l', t);
  }

  lemma MakeProgresses(l: Line, l': Line, t: nat, look: Look, reply: Reply)
    requires Inv(l) && Uninterrupted(l, t, reply) && l.tasks[t].pc == Exchange(look, l.made) && l' == ExchangeStep(l, t, look, l.made, false)
    ensures Progresses(l, l', t, reply)
  {
    assert Fits(l.tasks[t], l.credit);
  }

  lemma WaitProgresses(l: Line, l': Line, t: nat, reply: Reply)
    requires Inv(l) && Uninterrupted(l, t, reply) && CanAdvance(l, t) && l' == AdvanceStep(l, t, false)
    requires var pc := l.tasks[t].pc; pc.Enable? || pc.Enter? || pc.Parked?
    ensures Progresses(l, l', t, reply)
  {
    assert Fits(l.tasks[t], l.credit);
  }

  lemma LeaveProgresses(l: Line, l': Line, t: nat, reply: Reply)
    requires Inv(l) && Uninterrupted(l, t, reply) && CanAdvance(l, t) && l' == AdvanceStep(l, t, false)
    requires l.tasks[t].pc.LeaveWaiting? || l.tasks[t].pc.DropNotified?
    ensures Progresses(l, l', t, reply)
  {
    assert Fits(l.tasks[t], l.credit);
  }

  lemma SendProgresses(l: Line, l': Line, t: nat, slot: nat, reply: Reply)
    requires Uninterrupted(l, t, reply) && l.tasks[t].pc == Send(slot) && l' == SendStep(l, t, slot)
    ensures Progresses(l, l', t, reply)
  {
  }

  lemma ReceiveProgresses(l: Line, l': Line, t: nat, slot: nat, reply: Reply)
    requires Sound(l) && Uninterrupted(l, t, reply) && l.tasks[t].pc == Receive(slot) && CanAdvance(l, t) && l' == ReceiveStep(l, t, slot)
    ensures Progresses(l, l', t, reply)
  {
    assert TaskSound(l, t, l.tasks[t].pc);
    assert forall c :: c in l.commands ==> CommandSound(l, c);
  }

  lemma ReleaseProgresses(l: Line, l': Line, t: nat, slot: nat, outcome: Outcome, reply: Reply)
    requires Inv(l) && Uninterrupted(l, t, reply) && l.tasks[t].pc == Release(slot, outcome) && l' == ReleaseStep(l, t, slot, outcome)
    ensures Progresses(l, l', t, reply)
  {
    CountAtLeast(Holder, l.tasks, t);
  }

  lemma GiveUpProgresses(l: Line, l': Line, t: nat, slot: nat, outcome: Outcome, reply: Reply)
    requires Uninterrupted(l, t, reply) && l.tasks[t].pc == GiveUp(slot, outcome)
    requires l' == Goto(l.(made := l.made - 1), t, LoadWaiting(outcome))
    ensures Progresses(l, l', t, reply)
  {
  }

  lemma WakeProgresses(l: Line, l': Line, t: nat, reply: Reply)
    requires Inv(l) && Uninterrupted(l, t, reply) && CanAdvance(l, t) && l' == AdvanceStep(l, t, false)
    requires l.tasks[t].pc.LoadWaiting? || l.tasks[t].pc.NotifyOne?
    ensures Progresses(l, l', t, reply)
  {
    assert Fits(l.tasks[t], l.credit);
    if l.tasks[t].pc.NotifyOne? && l.waiters != [] {
      assert l.waiters[0] in l.waiters;
    }
  }

  lemma AdvanceProgresses(l: Line, l': Line, t: nat, reply: Reply)
    requires Inv(l) && Sound(l) && Uninterrupted(l, t, reply) && CanAdvance(l, t) && l' == AdvanceStep(l, t, false)
    ensures Progresses(l, l', t, reply)
  {
    var pc := l.tasks[t].pc;
    if pc.Pop? {
      PopProgresses(l, l', t, pc.look, reply);
    } else if pc.Load? {
      LoadProgresses(l, l', t, pc.look, reply);
    } else if pc.Exchange? {
      MakeProgresses(l, l', t, pc.look, reply);
    } else if pc.Send? {
      SendProgresses(l, l', t, pc.slot, reply);
    } else if pc.Receive? {
      ReceiveProgresses(l, l', t, pc.slot, reply);
    } else if pc.Release? {
      ReleaseProgresses(l, l', t, pc.slot, pc.outcome, reply);
    } else if pc.GiveUp? {
      GiveUpProgresses(l, l', t, pc.slot, pc.outcome, reply);
    } else if pc.LoadWaiting? || pc.NotifyOne? {
      WakeProgresses(l, l', t, reply);
    } else if pc.LeaveWaiting? || pc.DropNotified? {
      LeaveProgresses(l, l', t, reply);
    } else {
      WaitProgresses(l, l', t, reply);
    }
  }

  lemma ReplyProgresses(l: Line, l': Line, t: nat, slot: nat, reply: Reply)
    requires Sound(l) && Uninterrupted(l, t, reply) && l.tasks[t].pc == Receive(slot) && Command(t, slot) in l.commands
    requires l' == ReplyStep(l, Command(t, slot), reply)
    ensures Progresses(l, l', t, reply)
  {
    assert CommandSound(l, Command(t, slot));
  }

  /** The settlement under way: `free` slots were free when it started. */
  predicate Underway(l: Line, t: nat, reply: Reply, open: bool, free: int) {
    && Uninterrupted(l, t, reply) && l.open == open && FreeSlots(l) + HeldBy(l.tasks[t].pc) == free
    && (if free > 0 then Straight(l, l.tasks[t].pc) else WithoutSlot(l.tasks[t].pc))
  }

  /** Its command waits for the pump. */
  predicate Asking(l: Line, t: nat) {
    t < |l.tasks| && l.tasks[t].pc.Receive? && Command(t, l.tasks[t].pc.slot) in l.commands
  }

  /** The next thing that happens to it: the pump replies, or it takes its next step. */
  function Moved(l: Line, t: nat, reply: Reply): Line
    requires Asking(l, t) || CanAdvance(l, t)
  {
    if Asking(l, t) then ReplyStep(l, Command(t, l.tasks[t].pc.slot), reply) else AdvanceStep(l, t, false)
  }

  lemma StaysUnderway(l: Line, l': Line, t: nat, reply: Reply, open: bool, free: int)
    requires Inv(l) && Sound(l) && Underway(l, t, reply, open, free) && (Asking(l, t) || CanAdvance(l, t)) && l' == Moved(l, t, reply)
    ensures Underway(l', t, reply, open, free) && Nears(l, l', t) && |l'.tasks| == |l.tasks|
  {
    if Asking(l, t) {
      ReplyProgresses(l, l', t, l.tasks[t].pc.slot, reply);
    } else {
      AdvanceProgresses(l, l', t, reply);
      SameSettlements(l, t);
    }
  }

  /** What stops a settlement that nobody interrupts: it is through, or it is parked. */
  lemma StopsThroughOrParked(l: Line, t: nat, reply: Reply, free: int)
    requires Inv(l) && Sound(l) && Underway(l, t, reply, l.open, free) && !CanAdvance(l, t)
    requires !Asking(l, t)
    ensures if l.tasks[t].pc.Finished?
      then l.tasks[t].pc.outcome == Due(l.open, reply) && Truthful(l, t, l.tasks[t].pc.outcome) && FreeSlots(l) == free
      else l.tasks[t] == Task(Parked, Queued) && t in l.waiters
    ensures l.tasks[t].pc.Finished? <==> free > 0
  {
    assert TaskSound(l, t, l.tasks[t].pc);
  }

  lemma SameSettlements(l: Line, t: nat)
    requires CanAdvance(l, t)
    ensures |AdvanceStep(l, t, false).tasks| == |l.tasks|
  {
  }

  lemma AdvanceStays(l: Line, t: nat, spuriously: bool)
    requires Inv(l) && Sound(l) && CanAdvance(l, t)
    ensures Inv(AdvanceStep(l, t, spuriously)) && Sound(AdvanceStep(l, t, spuriously))
  {
    StepKeeps(l, Event.Advance(t, spuriously));
    StepSound(l, Event.Advance(t, spuriously));
  }

  class Shared {
    const credit: nat
    var idle: seq<nat>
    var made: int
    var waiting: int
    var waiters: seq<nat>
    var permit: bool
    var tasks: seq<Task>
    var cells: seq<Cell>
    var commands: set<Command>
    ghost var replies: map<nat, Reply>
    var open: bool

    ghost function Snapshot(): Line
      reads this
    {
      Line(credit, idle, made, waiting, waiters, permit, tasks, cells, commands, replies, open)
    }

    /** Slots and waiting settlements are counted right, no wake-up is lost, and every slot, command and
        answer belongs to one settlement. */
    ghost predicate Valid()
      reads this
    {
      Inv(Snapshot()) && Sound(Snapshot())
    }

    constructor (credit: nat)
      ensures Valid() && Snapshot() == Opened(credit)
    {
      this.credit := credit;
      idle, made, waiting, waiters, permit := [], 0, 0, [], false;
      tasks, cells, commands, replies, open := [], [], {}, map[], true;
    }

    method GoOn(t: nat, pc: Pc)
      requires t < |tasks|
      modifies this`tasks
      ensures Snapshot() == Goto(old(Snapshot()), t, pc)
    {
      tasks := tasks[t := tasks[t].(pc := pc)];
    }

    /** Takes the slot's sender; a slot that would not hand one out is replaced by a fresh one. */
    method TakeSender(t: nat, look: Look, slot: nat)
      requires t < |tasks|
      modifies this`tasks, this`cells
      ensures Snapshot() == Take(old(Snapshot()), t, look, slot)
    {
      var taken := slot;
      if slot < |cells| && cells[slot] == Ready {
        cells := cells[slot := Lent];
      } else {
        taken := |cells|;
        cells := cells + [Lent];
      }
      GoOn(t, if look.Second? then LeaveWaiting(Proceed(taken)) else Send(taken));
    }

    /** The first half of a look: an idle slot, if the queue has one. */
    method PopIdle(t: nat, look: Look)
      requires t < |tasks|
      modifies this
      ensures Snapshot() == PopStep(old(Snapshot()), t, look)
    {
      if idle == [] {
        GoOn(t, Load(look));
      } else {
        var slot := idle[0];
        idle := idle[1..];
        TakeSender(t, look, slot);
      }
    }

    /** Reads the count of slots made; at the credit the look has missed. */
    method LoadMade(t: nat, look: Look)
      requires t < |tasks|
      modifies this`tasks
      ensures Snapshot() == LoadStep(old(Snapshot()), t, look)
    {
      if made < credit {
        GoOn(t, Exchange(look, made));
      } else {
        GoOn(t, if look.Second? then Parked else Enable);
      }
    }

    /** The weak compare-exchange: it makes a slot if the count is still the one read, and looks at the
        new count otherwise. */
    method ExchangeMade(t: nat, look: Look, seen: int, spuriously: bool)
      requires t < |tasks|
      modifies this
      ensures Snapshot() == ExchangeStep(old(Snapshot()), t, look, seen, spuriously)
    {
      if !spuriously && made == seen {
        made := made + 1;
        cells := cells + [Ready];
        TakeSender(t, look, |cells| - 1);
      } else {
        LoadMade(t, look);
      }
    }

    method NotifyFirst()
      modifies this`waiters, this`permit, this`tasks
      ensures Snapshot() == Notify(old(Snapshot()))
    {
      if waiters == [] {
        permit := true;
      } else {
        var w := waiters[0];
        waiters := waiters[1..];
        if w < |tasks| {
          tasks := tasks[w := tasks[w].(wait := Notified)];
        }
      }
    }

    /** Registers the waiter, or consumes the stored permit. */
    method Register(t: nat)
      requires t < |tasks|
      modifies this`waiters, this`permit, this`tasks
      ensures Snapshot() == EnableStep(old(Snapshot()), t)
    {
      if permit {
        permit := false;
        tasks := tasks[t := Task(Enter, Consumed)];
      } else {
        waiters := waiters + [t];
        tasks := tasks[t := Task(Enter, Queued)];
      }
    }

    /** Drops a settlement's entry in the wake-up object; one that was notified passes it on. */
    method Unregister(t: nat, next: Next)
      requires t < |tasks|
      modifies this`waiters, this`permit, this`tasks
      ensures Snapshot() == DropNotifiedStep(old(Snapshot()), t, next)
    {
      var wait := tasks[t].wait;
      tasks := tasks[t := Task(After(next), Unregistered)];
      match wait
      case Queued => waiters := Without(waiters, t);
      case Notified => NotifyFirst();
      case _ =>
    }

    method SendCommand(t: nat, slot: nat)
      requires t < |tasks|
      modifies this
      ensures Snapshot() == SendStep(old(Snapshot()), t, slot)
    {
      if open {
        commands := commands + {Command(t, slot)};
        GoOn(t, Receive(slot));
      } else {
        if slot < |cells| {
          cells := cells[slot := Hung];
        }
        GoOn(t, GiveUp(slot, PumpStopped));
      }
    }

    method ReadAnswer(t: nat, slot: nat)
      requires t < |tasks| && slot < |cells| && (cells[slot].Written? || cells[slot].Hung?)
      modifies this`tasks, this`cells
      ensures Snapshot() == ReceiveStep(old(Snapshot()), t, slot)
    {
      var outcome := if cells[slot].Written? then Answered(cells[slot].answer) else PumpStopped;
      cells := cells[slot := Ready];
      GoOn(t, Release(slot, outcome));
    }

    /** Puts the slot back; one the queue has no room for is dropped and uncounted. */
    method PutBack(t: nat, slot: nat, outcome: Outcome)
      requires t < |tasks|
      modifies this
      ensures Snapshot() == ReleaseStep(old(Snapshot()), t, slot, outcome)
    {
      if |idle| < credit {
        idle := idle + [slot];
      } else {
        made := made - 1;
      }
      GoOn(t, LoadWaiting(outcome));
    }

    /** One atomic step of one settlement. */
    method Advance(t: nat, spuriously: bool)
      requires Valid() && CanAdvance(Snapshot(), t)
      modifies this
      ensures Valid() && Snapshot() == AdvanceStep(old(Snapshot()), t, spuriously)
    {
      AdvanceStays(Snapshot(), t, spuriously);
      StepNow(t, spuriously);
    }

    method StepNow(t: nat, spuriously: bool)
      requires CanAdvance(Snapshot(), t)
      modifies this
      ensures Snapshot() == AdvanceStep(old(Snapshot()), t, spuriously)
    {
      match tasks[t].pc
      case Pop(look) => PopIdle(t, look);
      case Load(look) => LoadMade(t, look);
      case Exchange(look, seen) => ExchangeMade(t, look, seen, spuriously);
      case Enable => Register(t);
      case Enter =>
        waiting := waiting + 1;
        GoOn(t, Pop(Second));
      case Parked => tasks := tasks[t := Task(LeaveWaiting(Again), Consumed)];
      case LeaveWaiting(next) =>
        waiting := waiting - 1;
        GoOn(t, DropNotified(next));
      case DropNotified(next) => Unregister(t, next);
      case Send(slot) => SendCommand(t, slot);
      case Receive(slot) => ReadAnswer(t, slot);
      case Release(slot, outcome) => PutBack(t, slot, outcome);
      case GiveUp(_, outcome) =>
        made := made - 1;
        GoOn(t, LoadWaiting(outcome));
      case LoadWaiting(outcome) =>
        GoOn(t, if waiting > 0 then NotifyOne(outcome) else Finished(outcome));
      case NotifyOne(outcome) =>
        NotifyFirst();
        GoOn(t, Finished(outcome));
    }

    /** The settlement is dropped where it waits. */
    method Abandon(t: nat)
      requires Valid() && CanCancel(Snapshot(), t)
      modifies this`tasks
      ensures Valid() && Snapshot() == CancelStep(old(Snapshot()), t)
    {
      StepKeeps(Snapshot(), Cancel(t));
      StepSound(Snapshot(), Cancel(t));
      if tasks[t].pc.Receive? {
        GoOn(t, GiveUp(tasks[t].pc.slot, Cancelled));
      } else {
        GoOn(t, LeaveWaiting(Leave));
      }
    }

    /** A new settlement. */
    method Spawn() returns (t: nat)
      requires Valid()
      modifies this`tasks
      ensures Valid() && t == old(|tasks|) && Snapshot() == Step(old(Snapshot()), Event.Spawn)
    {
      StepKeeps(Snapshot(), Event.Spawn);
      StepSound(Snapshot(), Event.Spawn);
      t := |tasks|;
      tasks := tasks + [Task(Pop(First(false)), Unregistered)];
    }

    /** The pump answers a command, or drops it. */
    method Answer(c: Command, reply: Reply)
      requires Valid() && c in commands
      modifies this`commands, this`cells, this`replies
      ensures Valid() && Snapshot() == ReplyStep(old(Snapshot()), c, reply)
    {
      StepKeeps(Snapshot(), PumpReply(c, reply));
      StepSound(Snapshot(), PumpReply(c, reply));
      commands := commands - {c};
      replies := replies[c.delivery := reply];
      if c.slot < |cells| {
        cells := cells[c.slot := if reply.Gave? then Written(reply.answer) else Hung];
      }
    }

    /** The pump stops: it takes no further command. */
    method StopPump()
      requires Valid()
      modifies this`open
      ensures Valid() && !open && Snapshot() == Step(old(Snapshot()), PumpStops)
    {
      StepKeeps(Snapshot(), PumpStops);
      StepSound(Snapshot(), PumpStops);
      open := false;
    }

    /** The next thing that happens to settlement `t` while nobody else moves but the pump, which has
        `reply` for it. */
    method Move(t: nat, reply: Reply, ghost free: int)
      requires Valid() && Underway(Snapshot(), t, reply, open, free) && (Able(t) || Asks(t))
      modifies this
      ensures Valid() && |tasks| == old(|tasks|) && open == old(open) && Underway(Snapshot(), t, reply, open, free)
      ensures Nears(old(Snapshot()), Snapshot(), t)
    {
      StaysUnderway(Snapshot(), Moved(Snapshot(), t, reply), t, reply, open, free);
      if Asks(t) {
        Answer(Command(t, tasks[t].pc.slot), reply);
      } else {
        Advance(t, false);
      }
    }

    /** One settlement, from its first look to its answer, while nobody else moves but the pump, which
        has `reply` for it. With a slot free it reports the reply, or the stopped pump, and every slot is
        free again that was. With none it reports nothing and is left parked, in the line's queue of
        waiters. */
    method Settle(reply: Reply) returns (outcome: Option<Outcome>)
      requires Valid()
      modifies this
      ensures Valid() && |tasks| == old(|tasks|) + 1 && open == old(open)
      ensures outcome == if old(FreeSlots(Snapshot())) > 0 then Some(Due(open, reply)) else None
      ensures outcome.Some? ==>
        && Truthful(Snapshot(), old(|tasks|), outcome.value)
        && FreeSlots(Snapshot()) == old(FreeSlots(Snapshot()))
      ensures outcome.None? ==> tasks[old(|tasks|)] == Task(Parked, Queued) && old(|tasks|) in waiters
    {
      ghost var free := FreeSlots(Snapshot());
      var t := Spawn();
      while Able(t) || Asks(t)
        invariant Valid() && |tasks| == t + 1 && open == old(open) && Underway(Snapshot(), t, reply, open, free)
        decreases Retries(Snapshot(), tasks[t]), StepsLeft(tasks[t].pc, t in replies)
      {
        Move(t, reply, free);
      }
      StopsThroughOrParked(Snapshot(), t, reply, free);
      return if tasks[t].pc.Finished? then Some(tasks[t].pc.outcome) else None;
    }

    /** Whether the settlement can take its next step by itself. */
    predicate Able(t: nat)
      reads this
      ensures Able(t) <==> CanAdvance(Snapshot(), t)
    {
      t < |tasks| &&
      match tasks[t].pc
      case Parked => tasks[t].wait != Queued
      case Receive(slot) => slot < |cells| && (cells[slot].Written? || cells[slot].Hung?)
      case Finished(_) => false
      case _ => true
    }

    /** Whether it waits for the pump. */
    predicate Asks(t: nat)
      reads this
      ensures Asks(t) <==> Asking(Snapshot(), t)
    {
      t < |tasks| && tasks[t].pc.Receive? && Command(t, tasks[t].pc.slot) in commands
    }
  }
}
