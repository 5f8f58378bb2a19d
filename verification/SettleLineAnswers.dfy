/** Every settlement reports the answer the pump gave to its own delivery, or that the pump
    stopped: a slot never carries one settlement's answer to another. */
module SettleLineAnswers {
  import opened SettleLine
  import opened SettleLineWakeup

  function SlotOf(pc: Pc): nat
    requires HasSlot(pc)
  {
    match pc
    case LeaveWaiting(next) => next.slot
    case DropNotified(next) => next.slot
    case Send(slot) => slot
    case Receive(slot) => slot
    case Release(slot, _) => slot
    case GiveUp(slot, _) => slot
  }

  /** The settlement has not sent its command yet. */
  predicate BeforeSend(pc: Pc) {
    !pc.Receive? && !pc.Release? && !pc.GiveUp? && !pc.LoadWaiting? && !pc.NotifyOne? && !pc.Finished?
  }

  function CellFor(reply: Reply): Cell {
    if reply.Gave? then Written(reply.answer) else Hung
  }

  function OutcomeFor(reply: Reply): Outcome {
    if reply.Gave? then Answered(reply.answer) else PumpStopped
  }

  /** `outcome` is a true report for the settlement of delivery `t`. */
  predicate Truthful(l: Line, t: nat, outcome: Outcome) {
    match outcome
    case Answered(answer) => t in l.replies && l.replies[t] == Gave(answer)
    case PumpStopped => if t in l.replies then l.replies[t] == Dropped else !l.open
    case Cancelled => true
  }

  /** The idle and the held slots are all different, and every idle one can hand out its sender. */
  predicate SlotsApart(l: Line) {
    && Distinct(l.idle)
    && (forall s :: s in l.idle ==> s < |l.cells| && l.cells[s] == Ready)
    && (forall t :: 0 <= t < |l.tasks| && HasSlot(l.tasks[t].pc) ==>
          SlotOf(l.tasks[t].pc) < |l.cells| && SlotOf(l.tasks[t].pc) !in l.idle)
    && (forall t, u :: 0 <= t < u < |l.tasks| && HasSlot(l.tasks[t].pc) && HasSlot(l.tasks[u].pc) ==>
          SlotOf(l.tasks[t].pc) != SlotOf(l.tasks[u].pc))
  }

  /** A command is the only one of its delivery and of its slot, and nobody else holds that slot. */
  predicate CommandSound(l: Line, c: Command) {
    && c.slot < |l.cells| && l.cells[c.slot] == Lent
    && c.delivery < |l.tasks| && c.delivery !in l.replies
    && !BeforeSend(l.tasks[c.delivery].pc)
    && (forall t :: 0 <= t < |l.tasks| && HasSlot(l.tasks[t].pc) && SlotOf(l.tasks[t].pc) == c.slot ==> t == c.delivery)
  }

  predicate CommandsSound(l: Line) {
    && (forall c :: c in l.commands ==> CommandSound(l, c))
    && (forall c, d :: c in l.commands && d in l.commands && (c.slot == d.slot || c.delivery == d.delivery) ==> c == d)
  }

  predicate TaskSound(l: Line, t: nat, pc: Pc) {
    match pc
    case Receive(s) =>
      s < |l.cells| &&
      if t in l.replies then l.cells[s] == CellFor(l.replies[t]) else Command(t, s) in l.commands
    case Release(s, o) =>
      s < |l.cells| && l.cells[s] == Ready && t in l.replies && o == OutcomeFor(l.replies[t])
    case GiveUp(_, o) =>
      && !o.Answered? && Truthful(l, t, o)
      && (forall c :: c in l.commands && o != Cancelled ==> c.delivery != t)
    case LoadWaiting(o) => Truthful(l, t, o) && (forall c :: c in l.commands && o != Cancelled ==> c.delivery != t)
    case NotifyOne(o) => Truthful(l, t, o) && (forall c :: c in l.commands && o != Cancelled ==> c.delivery != t)
    case Finished(o) => Truthful(l, t, o) && (forall c :: c in l.commands && o != Cancelled ==> c.delivery != t)
    case _ =>
      && t !in l.replies
      && (HasSlot(pc) ==> SlotOf(pc) < |l.cells| && l.cells[SlotOf(pc)] == Lent)
      && (forall c :: c in l.commands && HasSlot(pc) ==> c.slot != SlotOf(pc))
  }

  predicate TasksSound(l: Line) {
    && (forall t :: 0 <= t < |l.tasks| ==> TaskSound(l, t, l.tasks[t].pc))
    && (forall t :: t in l.replies ==> t < |l.tasks|)
  }

  predicate Sound(l: Line) {
    SlotsApart(l) && CommandsSound(l) && TasksSound(l)
  }

  // -- One settlement moves --------------------------------------------------------------------

  predicate Holds(pc: Pc, s: nat) {
    HasSlot(pc) && SlotOf(pc) == s
  }

  /** Task `t` moves: it keeps its slot, gives it back, gives it up, or takes one that nobody holds,
      and no cell but that slot's changes. It may send one command, for its own slot. */
  predicate Moves(l: Line, l': Line, t: nat) {
    && t < |l.tasks| == |l'.tasks|
    && (forall u :: 0 <= u < |l.tasks| && u != t ==> l'.tasks[u].pc == l.tasks[u].pc)
    && var before, after := l.tasks[t].pc, l'.tasks[t].pc;
    && (HasSlot(before) && HasSlot(after) ==> SlotOf(after) == SlotOf(before))
    && (HasSlot(after) && !HasSlot(before) ==> SlotOf(after) in l.idle || SlotOf(after) >= |l.cells|)
    && (HasSlot(after) ==> SlotOf(after) < |l'.cells| && SlotOf(after) !in l'.idle)
    && Distinct(l'.idle)
    && (forall s :: s in l'.idle ==> s in l.idle || (Holds(before, s) && !HasSlot(after)))
    && (forall s :: s in l'.idle ==> s < |l'.cells| && l'.cells[s] == Ready)
    && |l.cells| <= |l'.cells|
    && (forall s :: 0 <= s < |l.cells| && !Holds(before, s) && !Holds(after, s) ==> l'.cells[s] == l.cells[s])
    && l'.replies == l.replies && l'.open == l.open
    && l.commands <= l'.commands
    && (forall c :: c in l'.commands && c !in l.commands ==> c.delivery == t && before == Send(c.slot))
    && (BeforeSend(after) ==> BeforeSend(before) && l'.commands == l.commands)
  }

  lemma MoveKeepsSlots(l: Line, l': Line, t: nat)
    requires SlotsApart(l) && Moves(l, l', t)
    ensures SlotsApart(l')
  {
  }

  lemma MoveKeepsCommand(l: Line, l': Line, t: nat, c: Command)
    requires Sound(l) && Moves(l, l', t) && c in l'.commands
    requires c.slot < |l'.cells| && l'.cells[c.slot] == Lent
    ensures CommandSound(l', c)
  {
    assert TaskSound(l, t, l.tasks[t].pc);
    if c in l.commands { assert CommandSound(l, c); }
  }

  lemma MoveKeepsCommands(l: Line, l': Line, t: nat)
    requires Sound(l) && Moves(l, l', t)
    requires forall c :: c in l'.commands ==> c.slot < |l'.cells| && l'.cells[c.slot] == Lent
    ensures CommandsSound(l')
  {
    forall c | c in l'.commands ensures CommandSound(l', c) {
      MoveKeepsCommand(l, l', t, c);
    }
    assert TaskSound(l, t, l.tasks[t].pc);
    forall c | c in l.commands && l'.commands != l.commands ensures c.delivery != t && !Holds(l.tasks[t].pc, c.slot) {
      assert CommandSound(l, c);
    }
  }

  lemma MoveKeepsOthers(l: Line, l': Line, t: nat, u: nat)
    requires Sound(l) && Moves(l, l', t) && u != t && u < |l.tasks|
    ensures TaskSound(l', u, l'.tasks[u].pc)
  {
    assert TaskSound(l, u, l.tasks[u].pc);
    if HasSlot(l.tasks[u].pc) {
      var s := SlotOf(l.tasks[u].pc);
      assert s !in l.idle && s < |l.cells|;
      assert !Holds(l.tasks[t].pc, s) && !Holds(l'.tasks[t].pc, s);
    }
  }

  lemma MoveSound(l: Line, l': Line, t: nat)
    requires Sound(l) && Moves(l, l', t)
    requires forall c :: c in l'.commands ==> c.slot < |l'.cells| && l'.cells[c.slot] == Lent
    requires TaskSound(l', t, l'.tasks[t].pc)
    ensures Sound(l')
  {
    MoveKeepsSlots(l, l', t);
    MoveKeepsCommands(l, l', t);
    forall u | 0 <= u < |l'.tasks| ensures TaskSound(l', u, l'.tasks[u].pc) {
      if u != t { MoveKeepsOthers(l, l', t, u); }
    }
  }

  // -- Every step ------------------------------------------------------------------------------

  /** What a task's own state says about the commands, spelled out where the steps need it. */
  lemma CommandsOf(l: Line, t: nat)
    requires Sound(l) && t < |l.tasks|
    ensures TaskSound(l, t, l.tasks[t].pc)
    ensures forall c :: c in l.commands ==> c.slot < |l.cells| && l.cells[c.slot] == Lent
    ensures forall c :: c in l.commands && (BeforeSend(l.tasks[t].pc) || t in l.replies) ==> c.delivery != t
    ensures forall c :: c in l.commands && c.delivery != t ==> !Holds(l.tasks[t].pc, c.slot)
    ensures forall c :: c in l.commands ==> c.slot !in l.idle
  {
    assert TaskSound(l, t, l.tasks[t].pc);
    forall c | c in l.commands ensures CommandSound(l, c) { }
  }

  /** The popped slot always hands out its sender, so no fresh one ever stands in for it. */
  lemma PopTakesTheSlot(l: Line, t: nat, look: Look)
    requires SlotsApart(l) && t < |l.tasks| && l.idle != []
    ensures l.idle[0] < |l.cells| && PopStep(l, t, look).cells == l.cells[l.idle[0] := Lent]
    ensures Holds(PopStep(l, t, look).tasks[t].pc, l.idle[0])
  {
    assert l.idle[0] in l.idle;
  }

  /** The steps that move no slot and touch no cell. */
  lemma QuietSound(l: Line, l': Line, t: nat)
    requires Sound(l) && t < |l.tasks| == |l'.tasks|
    requires l'.idle == l.idle && l'.cells == l.cells && l'.commands == l.commands && l'.replies == l.replies && l'.open == l.open
    requires forall u :: 0 <= u < |l.tasks| && u != t ==> l'.tasks[u].pc == l.tasks[u].pc
    requires HasSlot(l'.tasks[t].pc) == HasSlot(l.tasks[t].pc)
    requires HasSlot(l.tasks[t].pc) ==> SlotOf(l'.tasks[t].pc) == SlotOf(l.tasks[t].pc)
    requires TaskSound(l', t, l'.tasks[t].pc)
    requires BeforeSend(l'.tasks[t].pc) ==> BeforeSend(l.tasks[t].pc)
    ensures Sound(l')
  {
    CommandsOf(l, t);
    MoveSound(l, l', t);
  }

  lemma PopTakeSound(l: Line, l': Line, t: nat, look: Look)
    requires Sound(l) && t < |l.tasks| && l.tasks[t].pc == Pop(look) && l.idle != [] && l' == PopStep(l, t, look)
    ensures Sound(l')
  {
    CommandsOf(l, t);
    DistinctTail(l.idle);
    PopTakesTheSlot(l, t, look);
    assert l'.idle == l.idle[1..] && l'.commands == l.commands;
    MoveSound(l, l', t);
  }

  lemma PopSound(l: Line, l': Line, t: nat, look: Look)
    requires Sound(l) && t < |l.tasks| && l.tasks[t].pc == Pop(look) && l' == PopStep(l, t, look)
    ensures Sound(l')
  {
    if l.idle != [] {
      PopTakeSound(l, l', t, look);
    } else {
      assert TaskSound(l, t, l.tasks[t].pc);
      QuietSound(l, l', t);
    }
  }

  lemma MakeSound(l: Line, l': Line, t: nat, look: Look, seen: int)
    requires Sound(l) && t < |l.tasks| && l.tasks[t].pc == Exchange(look, seen) && l.made == seen
    requires l' == ExchangeStep(l, t, look, seen, false)
    ensures Sound(l')
  {
    CommandsOf(l, t);
    assert l'.cells == l.cells + [Lent];
    MoveSound(l, l', t);
  }

  lemma SendSound(l: Line, l': Line, t: nat, s: nat)
    requires Sound(l) && t < |l.tasks| && l.tasks[t].pc == Send(s) && l' == SendStep(l, t, s)
    ensures Sound(l')
  {
    CommandsOf(l, t);
    MoveSound(l, l', t);
  }

  lemma ReceiveSound(l: Line, l': Line, t: nat)
    requires Sound(l) && CanAdvance(l, t) && l.tasks[t].pc.Receive? && l' == ReceiveStep(l, t, l.tasks[t].pc.slot)
    ensures Sound(l')
  {
    CommandsOf(l, t);
    MoveSound(l, l', t);
  }

  lemma DistinctAppend(s: seq<nat>, x: nat)
    requires Distinct(s) && x !in s
    ensures Distinct(s + [x])
  {
  }

  lemma ReleaseSound(l: Line, l': Line, t: nat, s: nat, o: Outcome)
    requires Sound(l) && t < |l.tasks| && l.tasks[t].pc == Release(s, o)
    requires l' == ReleaseStep(l, t, s, o)
    ensures Sound(l')
  {
    CommandsOf(l, t);
    DistinctAppend(l.idle, s);
    assert Holds(l.tasks[t].pc, s) && !HasSlot(l'.tasks[t].pc);
    assert l'.cells == l.cells && l'.commands == l.commands;
    MoveSound(l, l', t);
  }

  lemma GiveUpSound(l: Line, l': Line, t: nat, s: nat, o: Outcome)
    requires Sound(l) && t < |l.tasks| && l.tasks[t].pc == GiveUp(s, o)
    requires l' == Goto(l.(made := l.made - 1), t, LoadWaiting(o))
    ensures Sound(l')
  {
    CommandsOf(l, t);
    MoveSound(l, l', t);
  }

  lemma ReplySound(l: Line, l': Line, c: Command, reply: Reply)
    requires Sound(l) && c in l.commands && l' == ReplyStep(l, c, reply)
    ensures Sound(l')
  {
    assert CommandSound(l, c);
    assert SlotsApart(l');
    forall d | d in l'.commands ensures CommandSound(l', d) {
      assert CommandSound(l, d);
    }
    forall u | 0 <= u < |l'.tasks| ensures TaskSound(l', u, l'.tasks[u].pc) {
      assert TaskSound(l, u, l.tasks[u].pc);
    }
  }

  lemma SpawnSound(l: Line, l': Line)
    requires Sound(l) && l' == Step(l, Spawn)
    ensures Sound(l')
  {
    var n := |l.tasks|;
    assert forall u :: 0 <= u < n ==> l'.tasks[u] == l.tasks[u];
    assert SlotsApart(l');
    forall c | c in l'.commands ensures CommandSound(l', c) {
      assert CommandSound(l, c);
    }
    forall u | 0 <= u < |l'.tasks| ensures TaskSound(l', u, l'.tasks[u].pc) {
      if u < n { assert TaskSound(l, u, l.tasks[u].pc); }
    }
  }

  lemma QuietLookSound(l: Line, l': Line, t: nat, spuriously: bool)
    requires Sound(l) && CanAdvance(l, t) && l' == AdvanceStep(l, t, spuriously)
    requires var pc := l.tasks[t].pc;
      pc.Load? || (pc.Exchange? && (spuriously || l.made != pc.seen)) || pc.Enable?
    ensures Sound(l')
  {
    assert TaskSound(l, t, l.tasks[t].pc);
    QuietSound(l, l', t);
  }

  lemma QuietWaitSound(l: Line, l': Line, t: nat, spuriously: bool)
    requires Sound(l) && CanAdvance(l, t) && l' == AdvanceStep(l, t, spuriously)
    requires var pc := l.tasks[t].pc;
      pc.Enter? || pc.Parked? || pc.LeaveWaiting? || pc.LoadWaiting?
    ensures Sound(l')
  {
    assert TaskSound(l, t, l.tasks[t].pc);
    QuietSound(l, l', t);
  }

  lemma NotifyMovesNobody(l: Line, t: nat, task: Task)
    requires t < |l.tasks|
    ensures var l' := Notify(l.(tasks := l.tasks[t := task]));
      && |l'.tasks| == |l.tasks| && l'.tasks[t].pc == task.pc
      && (forall u :: 0 <= u < |l.tasks| && u != t ==> l'.tasks[u].pc == l.tasks[u].pc)
      && l'.idle == l.idle && l'.cells == l.cells && l'.commands == l.commands && l'.replies == l.replies && l'.open == l.open
  {
  }

  lemma DropNotifiedSound(l: Line, l': Line, t: nat, next: Next)
    requires Sound(l) && t < |l.tasks| && l.tasks[t].pc == DropNotified(next) && l' == DropNotifiedStep(l, t, next)
    requires Fits(l.tasks[t], l.credit)
    ensures Sound(l')
  {
    assert TaskSound(l, t, l.tasks[t].pc);
    NotifyMovesNobody(l, t, Task(After(next), Unregistered));
    QuietSound(l, l', t);
  }

  lemma NotifyOneSound(l: Line, l': Line, t: nat, outcome: Outcome)
    requires Sound(l) && t < |l.tasks| && l.tasks[t].pc == NotifyOne(outcome)
    requires l' == Goto(Notify(l), t, Finished(outcome))
    ensures Sound(l')
  {
    assert TaskSound(l, t, l.tasks[t].pc);
    NotifyMovesNobody(l, t, l.tasks[t]);
    assert l.(tasks := l.tasks[t := l.tasks[t]]) == l;
    QuietSound(l, l', t);
  }

  lemma AdvanceSound(l: Line, l': Line, t: nat, spuriously: bool)
    requires Sound(l) && AllFit(l) && CanAdvance(l, t) && l' == AdvanceStep(l, t, spuriously)
    ensures Sound(l')
  {
    match l.tasks[t].pc
    case Pop(look) => PopSound(l, l', t, look);
    case Exchange(look, seen) =>
      if !spuriously && l.made == seen {
        MakeSound(l, l', t, look, seen);
      } else {
        QuietLookSound(l, l', t, spuriously);
      }
    case Load(_) => QuietLookSound(l, l', t, spuriously);
    case Enable => QuietLookSound(l, l', t, spuriously);
    case DropNotified(next) => DropNotifiedSound(l, l', t, next);
    case NotifyOne(outcome) => NotifyOneSound(l, l', t, outcome);
    case Send(s) => SendSound(l, l', t, s);
    case Receive(_) => ReceiveSound(l, l', t);
    case Release(s, o) => ReleaseSound(l, l', t, s, o);
    case GiveUp(s, o) => GiveUpSound(l, l', t, s, o);
    case _ => QuietWaitSound(l, l', t, spuriously);
  }

  lemma CancelSound(l: Line, l': Line, t: nat)
    requires Sound(l) && CanCancel(l, t) && l' == CancelStep(l, t)
    ensures Sound(l')
  {
    assert TaskSound(l, t, l.tasks[t].pc);
    QuietSound(l, l', t);
  }

  lemma StepSound(l: Line, e: Event)
    requires Sound(l) && AllFit(l)
    ensures Sound(Step(l, e))
  {
    match e
    case Spawn => SpawnSound(l, Step(l, e));
    case Advance(t, spuriously) => if CanAdvance(l, t) { AdvanceSound(l, Step(l, e), t, spuriously); }
    case Cancel(t) => if CanCancel(l, t) { CancelSound(l, Step(l, e), t); }
    case PumpReply(c, reply) => if c in l.commands { ReplySound(l, Step(l, e), c, reply); }
    case PumpStops => StopSound(l);
  }

  lemma StopSound(l: Line)
    requires Sound(l)
    ensures Sound(l.(open := false))
  {
    var l' := l.(open := false);
    forall c | c in l'.commands ensures CommandSound(l', c) {
      assert CommandSound(l, c);
    }
    forall u | 0 <= u < |l'.tasks| ensures TaskSound(l', u, l'.tasks[u].pc) {
      assert TaskSound(l, u, l.tasks[u].pc);
    }
  }

  lemma {:induction false} RunSound(credit: nat, schedule: seq<Event>)
    ensures Sound(Run(credit, schedule))
  {
    if schedule != [] {
      var n := |schedule| - 1;
      RunSound(credit, schedule[..n]);
      RunKeeps(credit, schedule[..n]);
      StepSound(Run(credit, schedule[..n]), schedule[n]);
    }
  }

  // -- What every schedule shows ---------------------------------------------------------------

  /** Under every schedule a finished settlement reports the answer the pump gave to the command
      carrying its own delivery, or the stopped pump where the pump gave it none. */
  lemma {:induction false} EveryAnswerIsItsOwn(credit: nat, schedule: seq<Event>, t: nat, outcome: Outcome)
    requires var l := Run(credit, schedule);
      t < |l.tasks| && l.tasks[t].pc == Finished(outcome)
    ensures var l := Run(credit, schedule);
      match outcome
      case Answered(answer) => t in l.replies && l.replies[t] == Gave(answer)
      case PumpStopped => if t in l.replies then l.replies[t] == Dropped else !l.open
      case Cancelled => true
  {
    RunSound(credit, schedule);
    assert TaskSound(Run(credit, schedule), t, Finished(outcome));
  }

  /** Under every schedule every idle slot can hand out its sender, and two settlements never hold
      the same slot, so no settlement needs a receiver that stands in for a reused one. */
  lemma {:induction false} IdleSlotsAreReady(credit: nat, schedule: seq<Event>)
    ensures var l := Run(credit, schedule);
      && (forall s :: s in l.idle ==> s < |l.cells| && l.cells[s] == Ready)
      && (forall c :: c in l.commands ==> c.slot !in l.idle)
      && (forall t, u :: 0 <= t < u < |l.tasks| && HasSlot(l.tasks[t].pc) && HasSlot(l.tasks[u].pc) ==>
            SlotOf(l.tasks[t].pc) != SlotOf(l.tasks[u].pc))
  {
    RunSound(credit, schedule);
    var l := Run(credit, schedule);
    forall c | c in l.commands ensures c.slot !in l.idle {
      assert CommandSound(l, c);
    }
  }

  /** A slot that exists and that neither the queue nor a settlement holds. */
  predicate Abandoned(l: Line, s: nat) {
    s < |l.cells| && s !in l.idle && forall t :: 0 <= t < |l.tasks| ==> !Holds(l.tasks[t].pc, s)
  }

  /** What one task's step does to a slot it does not hold and that is not idle. */
  predicate LeavesOut(l: Line, l': Line, t: nat, s: nat) {
    && t < |l.tasks| == |l'.tasks| && |l.cells| <= |l'.cells| && s !in l'.idle && !Holds(l'.tasks[t].pc, s)
    && (forall u :: 0 <= u < |l.tasks| && u != t ==> l'.tasks[u].pc == l.tasks[u].pc)
  }

  lemma AbandonedTake(l: Line, l': Line, t: nat, look: Look, slot: nat, s: nat)
    requires t < |l.tasks| && s < |l.cells| && s !in l.idle && slot != s && l' == Take(l, t, look, slot)
    ensures LeavesOut(l, l', t, s)
  {
  }

  lemma AbandonedLook(l: Line, l': Line, t: nat, spuriously: bool, s: nat)
    requires CanAdvance(l, t) && l' == AdvanceStep(l, t, spuriously)
    requires l.tasks[t].pc.Pop? || PastPop(l.tasks[t].pc)
    requires s < |l.cells| && s !in l.idle
    ensures LeavesOut(l, l', t, s)
  {
    var look := l.tasks[t].pc.look;
    if l.tasks[t].pc.Pop? && l.idle != [] {
      AbandonedTake(l.(idle := l.idle[1..]), l', t, look, l.idle[0], s);
    } else if l.tasks[t].pc.Exchange? && !spuriously && l.made == l.tasks[t].pc.seen {
      AbandonedTake(l.(made := l.made + 1, cells := l.cells + [Ready]), l', t, look, |l.cells|, s);
    }
  }

  lemma AbandonedWake(l: Line, l': Line, t: nat, spuriously: bool, s: nat)
    requires CanAdvance(l, t) && l' == AdvanceStep(l, t, spuriously)
    requires l.tasks[t].pc.DropNotified? || l.tasks[t].pc.NotifyOne?
    requires s < |l.cells| && s !in l.idle && !Holds(l.tasks[t].pc, s)
    ensures LeavesOut(l, l', t, s)
  {
    if l.tasks[t].pc.DropNotified? {
      NotifyMovesNobody(l, t, Task(After(l.tasks[t].pc.next), Unregistered));
    } else {
      NotifyMovesNobody(l, t, l.tasks[t]);
      assert l.(tasks := l.tasks[t := l.tasks[t]]) == l;
    }
  }

  lemma AbandonedExchange(l: Line, l': Line, t: nat, s: nat)
    requires CanAdvance(l, t) && l' == AdvanceStep(l, t, false)
    requires var pc := l.tasks[t].pc; pc.Send? || pc.Receive? || pc.Release? || pc.GiveUp?
    requires s < |l.cells| && s !in l.idle && !Holds(l.tasks[t].pc, s)
    ensures LeavesOut(l, l', t, s)
  {
  }

  lemma AbandonedRest(l: Line, l': Line, t: nat, s: nat)
    requires CanAdvance(l, t) && l' == AdvanceStep(l, t, false)
    requires var pc := l.tasks[t].pc; pc.Enable? || pc.Enter? || pc.Parked? || pc.LeaveWaiting? || pc.LoadWaiting?
    requires s < |l.cells| && s !in l.idle && !Holds(l.tasks[t].pc, s)
    ensures LeavesOut(l, l', t, s)
  {
  }

  lemma OnlyExchangeFails(l: Line, t: nat)
    requires CanAdvance(l, t) && !l.tasks[t].pc.Exchange?
    ensures AdvanceStep(l, t, true) == AdvanceStep(l, t, false)
  {
  }

  lemma AbandonedAdvance(l: Line, l': Line, t: nat, spuriously: bool, s: nat)
    requires CanAdvance(l, t) && l' == AdvanceStep(l, t, spuriously)
    requires s < |l.cells| && s !in l.idle && !Holds(l.tasks[t].pc, s)
    ensures LeavesOut(l, l', t, s)
  {
    var pc := l.tasks[t].pc;
    if pc.Pop? || PastPop(pc) {
      AbandonedLook(l, l', t, spuriously, s);
    } else if pc.DropNotified? || pc.NotifyOne? {
      AbandonedWake(l, l', t, spuriously, s);
    } else {
      OnlyExchangeFails(l, t);
      if pc.Send? || pc.Receive? || pc.Release? || pc.GiveUp? {
        AbandonedExchange(l, l', t, s);
      } else {
        AbandonedRest(l, l', t, s);
      }
    }
  }

  lemma LeftOutStays(l: Line, l': Line, t: nat, s: nat)
    requires Abandoned(l, s) && LeavesOut(l, l', t, s)
    ensures Abandoned(l', s)
  {
    forall u | 0 <= u < |l'.tasks| ensures !Holds(l'.tasks[u].pc, s) {
      assert !Holds(l.tasks[u].pc, s);
    }
  }

  lemma AbandonedCancel(l: Line, l': Line, t: nat, s: nat)
    requires Abandoned(l, s) && CanCancel(l, t) && l' == CancelStep(l, t)
    ensures Abandoned(l', s)
  {
    assert !Holds(l.tasks[t].pc, s);
    LeftOutStays(l, l', t, s);
  }

  lemma AbandonedStep(l: Line, l': Line, e: Event, s: nat)
    requires Abandoned(l, s) && l' == Step(l, e)
    ensures Abandoned(l', s)
  {
    match e
    case Advance(t, spuriously) =>
      if CanAdvance(l, t) {
        assert !Holds(l.tasks[t].pc, s);
        AbandonedAdvance(l, l', t, spuriously, s);
        LeftOutStays(l, l', t, s);
      }
    case Cancel(t) => if CanCancel(l, t) { AbandonedCancel(l, l', t, s); }
    case _ =>
  }

  /** Giving up a slot leaves it with nobody. */
  lemma GivingUpAbandons(l: Line, l': Line, t: nat, spuriously: bool, s: nat, outcome: Outcome)
    requires Sound(l) && t < |l.tasks| && l.tasks[t].pc == GiveUp(s, outcome) && l' == Step(l, Advance(t, spuriously))
    ensures Abandoned(l', s)
  {
    assert SlotOf(l.tasks[t].pc) == s;
    forall u | 0 <= u < |l'.tasks| ensures !Holds(l'.tasks[u].pc, s) {
      if u != t && HasSlot(l.tasks[u].pc) {
        assert SlotOf(l.tasks[u].pc) != SlotOf(l.tasks[t].pc);
      }
    }
  }

  /** A slot given up by a cancelled or refused settlement serves nobody again, however the schedule
      goes on: the pump may still write into it. */
  lemma {:induction false} GivenUpSlotsStayOut(credit: nat, schedule: seq<Event>, t: nat, spuriously: bool, more: seq<Event>,
                                               s: nat, outcome: Outcome)
    requires t < |Run(credit, schedule).tasks| && Run(credit, schedule).tasks[t].pc == GiveUp(s, outcome)
    ensures Abandoned(Run(credit, schedule + [Advance(t, spuriously)] + more), s)
  {
    var given := schedule + [Advance(t, spuriously)];
    assert given[..|given| - 1] == schedule;
    RunSound(credit, schedule);
    GivingUpAbandons(Run(credit, schedule), Run(credit, given), t, spuriously, s, outcome);
    AbandonedSlotsStayOut(credit, given, more, s);
  }

  /** A slot that nobody has stays with nobody. */
  lemma {:induction false} AbandonedSlotsStayOut(credit: nat, schedule: seq<Event>, more: seq<Event>, s: nat)
    requires Abandoned(Run(credit, schedule), s)
    ensures Abandoned(Run(credit, schedule + more), s)
  {
    if more == [] {
      assert schedule + more == schedule;
    } else {
      var n := |more| - 1;
      AbandonedSlotsStayOut(credit, schedule, more[..n], s);
      assert (schedule + more)[..|schedule + more| - 1] == schedule + more[..n];
      AbandonedStep(Run(credit, schedule + more[..n]), Run(credit, schedule + more), more[n], s);
    }
  }
}
