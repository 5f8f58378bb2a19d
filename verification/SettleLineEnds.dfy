/** How settlements end, read off the schedule: with what the pump replied, as stopped once the pump is,
    or as cancelled. */
module SettleLineEnds {
  import opened SettleLine
  import opened SettleLineWakeup
  import opened SettleLineAnswers

  lemma InFrontOrLast(schedule: seq<Event>, e: Event)
    requires schedule != []
    ensures e in schedule <==> e in schedule[..|schedule| - 1] || schedule[|schedule| - 1] == e
  {
    assert schedule == schedule[..|schedule| - 1] + [schedule[|schedule| - 1]];
  }

  lemma AdvanceKeepsOpen(l: Line, t: nat, spuriously: bool)
    requires CanAdvance(l, t)
    ensures AdvanceStep(l, t, spuriously).open == l.open && AdvanceStep(l, t, spuriously).replies == l.replies
  {
    match l.tasks[t].pc
    case DropNotified(next) => WakingKeepsOpen(l, t, next);
    case _ =>
  }

  lemma WakingKeepsOpen(l: Line, t: nat, next: Next)
    requires t < |l.tasks|
    ensures DropNotifiedStep(l, t, next).open == l.open && DropNotifiedStep(l, t, next).replies == l.replies
  {
  }

  /** The pump takes commands exactly until it stops. */
  lemma {:induction false} OpenUntilStopped(credit: nat, schedule: seq<Event>)
    ensures Run(credit, schedule).open <==> PumpStops !in schedule
  {
    if schedule != [] {
      var front, last := schedule[..|schedule| - 1], schedule[|schedule| - 1];
      var l := Run(credit, front);
      OpenUntilStopped(credit, front);
      InFrontOrLast(schedule, PumpStops);
      if last.Advance? && CanAdvance(l, last.task) { AdvanceKeepsOpen(l, last.task, last.spuriously); }
    }
  }

  function Spawns(schedule: seq<Event>): nat {
    if schedule == [] then 0 else Spawns(schedule[..|schedule| - 1]) + if schedule[|schedule| - 1].Spawn? then 1 else 0
  }

  /** Every settlement asked for is there. */
  lemma {:induction false} SettlementsAreSpawned(credit: nat, schedule: seq<Event>)
    ensures |Run(credit, schedule).tasks| == Spawns(schedule)
  {
    if schedule != [] {
      var front, last := schedule[..|schedule| - 1], schedule[|schedule| - 1];
      var l := Run(credit, front);
      SettlementsAreSpawned(credit, front);
      if last.Advance? && CanAdvance(l, last.task) { CountStays(l, last.task, last.spuriously); }
    }
  }

  lemma ReleasePutsBack(l: Line, l': Line, t: nat)
    requires t < |l.tasks| && l.tasks[t].pc.Release? && |l.idle| < l.credit && l' == Step(l, Advance(t, false))
    ensures l'.idle == l.idle + [l.tasks[t].pc.slot] && l'.made == l.made && StandsAt(l', t, LoadWaiting(l.tasks[t].pc.outcome))
  {
  }

  /** In every run a settlement that has its answer puts its slot at the end of the idle ones, where the next
      settlements find it, and makes none go away. */
  lemma AnsweredGivesItsSlotBack(credit: nat, schedule: seq<Event>, t: nat)
    requires var l := Run(credit, schedule); t < |l.tasks| && l.tasks[t].pc.Release?
    ensures var l, l' := Run(credit, schedule), Run(credit, schedule + [Advance(t, false)]);
      && l'.idle == l.idle + [l.tasks[t].pc.slot] && l'.made == l.made
      && StandsAt(l', t, LoadWaiting(l.tasks[t].pc.outcome))
  {
    SlotsConserved(credit, schedule);
    assert (schedule + [Advance(t, false)])[..|schedule|] == schedule;
    ReleasePutsBack(Run(credit, schedule), Run(credit, schedule + [Advance(t, false)]), t);
  }

  /** The pump made this reply to the settlement of delivery `t`. */
  predicate Replied(schedule: seq<Event>, t: nat, reply: Reply) {
    exists i :: 0 <= i < |schedule| && schedule[i].PumpReply? && schedule[i].command.delivery == t && schedule[i].reply == reply
  }

  lemma {:induction false} RepliesAreThePumps(credit: nat, schedule: seq<Event>, t: nat)
    ensures var l := Run(credit, schedule); t in l.replies ==> Replied(schedule, t, l.replies[t])
  {
    if schedule != [] {
      var front, last := schedule[..|schedule| - 1], schedule[|schedule| - 1];
      var l := Run(credit, front);
      RepliesAreThePumps(credit, front, t);
      if last.Advance? && CanAdvance(l, last.task) { AdvanceKeepsOpen(l, last.task, last.spuriously); }
      if t in l.replies && Replied(front, t, l.replies[t]) {
        var i :| 0 <= i < |front| && front[i].PumpReply? && front[i].command.delivery == t && front[i].reply == l.replies[t];
        assert schedule[i] == front[i];
      }
      assert schedule[|front|] == last;
    }
  }

  // -- After the pump stopped --------------------------------------------------------------------

  predicate NotAnswered(o: Outcome) {
    o.PumpStopped? || o.Cancelled?
  }

  /** The pump has stopped, and settlement `t` has not sent, or was told. */
  predicate TooLate(l: Line, t: nat) {
    !l.open && (t < |l.tasks| ==> LateAt(l.tasks[t].pc))
  }

  predicate LateAt(pc: Pc) {
    match pc
    case Receive(_) => false
    case Release(_, _) => false
    case GiveUp(_, o) => NotAnswered(o)
    case LoadWaiting(o) => NotAnswered(o)
    case NotifyOne(o) => NotAnswered(o)
    case Finished(o) => NotAnswered(o)
    case _ => true
  }

  lemma OwnStepIsLate(l: Line, l': Line, t: nat, spuriously: bool)
    requires !l.open && CanAdvance(l, t) && LateAt(l.tasks[t].pc) && l' == AdvanceStep(l, t, spuriously)
    ensures t < |l'.tasks| && LateAt(l'.tasks[t].pc)
  {
    match l.tasks[t].pc
    case DropNotified(next) => NotifyMovesNobody(l, t, Task(After(next), Unregistered)); LateWake(l, l', t, next);
    case NotifyOne(o) => NotifyMovesNobody(l, t, l.tasks[t]); assert l.(tasks := l.tasks[t := l.tasks[t]]) == l;
    case Pop(look) => LateLook(l, l', t, look, spuriously);
    case Load(look) => LateLook(l, l', t, look, spuriously);
    case Exchange(look, _) => LateLook(l, l', t, look, spuriously);
    case _ => LateRest(l, l', t, spuriously);
  }

  lemma LateLook(l: Line, l': Line, t: nat, look: Look, spuriously: bool)
    requires CanAdvance(l, t) && (l.tasks[t].pc.Pop? || l.tasks[t].pc.Load? || l.tasks[t].pc.Exchange?) && l' == AdvanceStep(l, t, spuriously)
    ensures t < |l'.tasks| && LateAt(l'.tasks[t].pc)
  {
  }

  lemma LateWake(l: Line, l': Line, t: nat, next: Next)
    requires t < |l.tasks| && l.tasks[t].pc == DropNotified(next) && l' == DropNotifiedStep(l, t, next)
    ensures t < |l'.tasks| && LateAt(l'.tasks[t].pc)
  {
  }

  lemma LateRest(l: Line, l': Line, t: nat, spuriously: bool)
    requires !l.open && CanAdvance(l, t) && LateAt(l.tasks[t].pc) && l' == AdvanceStep(l, t, spuriously)
    requires var pc := l.tasks[t].pc; !pc.Pop? && !pc.Load? && !pc.Exchange? && !pc.DropNotified? && !pc.NotifyOne?
    ensures t < |l'.tasks| && LateAt(l'.tasks[t].pc)
  {
  }

  /** A step of one task moves nobody else. */
  lemma OthersStay(l: Line, u: nat, spuriously: bool, t: nat)
    requires CanAdvance(l, u) && t < |l.tasks| && t != u
    ensures var l' := AdvanceStep(l, u, spuriously); |l'.tasks| == |l.tasks| && l'.tasks[t].pc == l.tasks[t].pc
  {
    match l.tasks[u].pc
    case DropNotified(next) => NotifyMovesNobody(l, u, Task(After(next), Unregistered));
    case NotifyOne(o) => NotifyMovesNobody(l, u, l.tasks[u]); assert l.(tasks := l.tasks[u := l.tasks[u]]) == l;
    case Pop(_) => LookMovesOne(l, u, spuriously, t);
    case Load(_) => LookMovesOne(l, u, spuriously, t);
    case Exchange(_, _) => LookMovesOne(l, u, spuriously, t);
    case _ => RestMovesOne(l, u, spuriously, t);
  }

  lemma LookMovesOne(l: Line, u: nat, spuriously: bool, t: nat)
    requires CanAdvance(l, u) && t < |l.tasks| && t != u && (l.tasks[u].pc.Pop? || l.tasks[u].pc.Load? || l.tasks[u].pc.Exchange?)
    ensures var l' := AdvanceStep(l, u, spuriously); |l'.tasks| == |l.tasks| && l'.tasks[t].pc == l.tasks[t].pc
  {
  }

  lemma RestMovesOne(l: Line, u: nat, spuriously: bool, t: nat)
    requires CanAdvance(l, u) && t < |l.tasks| && t != u
    requires var pc := l.tasks[u].pc; !pc.Pop? && !pc.Load? && !pc.Exchange? && !pc.DropNotified? && !pc.NotifyOne?
    ensures var l' := AdvanceStep(l, u, spuriously); |l'.tasks| == |l.tasks| && l'.tasks[t].pc == l.tasks[t].pc
  {
  }

  lemma CountStays(l: Line, u: nat, spuriously: bool)
    requires CanAdvance(l, u)
    ensures |AdvanceStep(l, u, spuriously).tasks| == |l.tasks|
  {
    match l.tasks[u].pc
    case DropNotified(next) => NotifyMovesNobody(l, u, Task(After(next), Unregistered));
    case NotifyOne(o) => NotifyMovesNobody(l, u, l.tasks[u]); assert l.(tasks := l.tasks[u := l.tasks[u]]) == l;
    case _ =>
  }

  lemma StepIsLate(l: Line, e: Event, t: nat)
    requires TooLate(l, t)
    ensures TooLate(Step(l, e), t)
  {
    match e
    case Advance(u, spuriously) =>
      if CanAdvance(l, u) {
        AdvanceKeepsOpen(l, u, spuriously);
        CountStays(l, u, spuriously);
        if u == t { OwnStepIsLate(l, Step(l, e), t, spuriously); } else if t < |l.tasks| { OthersStay(l, u, spuriously, t); }
      }
    case _ =>
  }

  /** Once the pump has stopped, a settlement that had not sent its command ends as stopped or cancelled,
      however the schedule goes on. */
  lemma {:induction false} StoppedPumpAnswersNobody(credit: nat, schedule: seq<Event>, more: seq<Event>, t: nat)
    requires PumpStops in schedule
    requires var l := Run(credit, schedule); t < |l.tasks| ==> BeforeSend(l.tasks[t].pc)
    ensures var l' := Run(credit, schedule + more);
      t < |l'.tasks| && l'.tasks[t].pc.Finished? ==> l'.tasks[t].pc.outcome.PumpStopped? || l'.tasks[t].pc.outcome.Cancelled?
  {
    OpenUntilStopped(credit, schedule);
    LateFrom(credit, schedule, more, t);
  }

  lemma {:induction false} LateFrom(credit: nat, schedule: seq<Event>, more: seq<Event>, t: nat)
    requires TooLate(Run(credit, schedule), t)
    ensures TooLate(Run(credit, schedule + more), t)
  {
    if more == [] {
      assert schedule + more == schedule;
    } else {
      var n := |more| - 1;
      LateFrom(credit, schedule, more[..n], t);
      assert (schedule + more)[..|schedule + more| - 1] == schedule + more[..n];
      StepIsLate(Run(credit, schedule + more[..n]), more[n], t);
    }
  }

  // -- What a settlement reports -----------------------------------------------------------------

  /** The settlement is on its way out without an answer, because somebody cancelled it. */
  predicate Cancels(pc: Pc) {
    match pc
    case LeaveWaiting(next) => next.Leave?
    case DropNotified(next) => next.Leave?
    case Release(_, o) => o.Cancelled?
    case GiveUp(_, o) => o.Cancelled?
    case LoadWaiting(o) => o.Cancelled?
    case NotifyOne(o) => o.Cancelled?
    case Finished(o) => o.Cancelled?
    case _ => false
  }

  lemma OwnStepCancelsNot(l: Line, l': Line, t: nat, spuriously: bool)
    requires CanAdvance(l, t) && !Cancels(l.tasks[t].pc) && l' == AdvanceStep(l, t, spuriously)
    ensures t < |l'.tasks| && !Cancels(l'.tasks[t].pc)
  {
    match l.tasks[t].pc
    case DropNotified(next) => NotifyMovesNobody(l, t, Task(After(next), Unregistered)); WakeCancelsNot(l, l', t, next);
    case NotifyOne(o) => NotifyMovesNobody(l, t, l.tasks[t]); assert l.(tasks := l.tasks[t := l.tasks[t]]) == l;
    case Pop(look) => LookCancelsNot(l, l', t, spuriously);
    case Load(look) => LookCancelsNot(l, l', t, spuriously);
    case Exchange(look, _) => LookCancelsNot(l, l', t, spuriously);
    case _ => RestCancelsNot(l, l', t, spuriously);
  }

  lemma LookCancelsNot(l: Line, l': Line, t: nat, spuriously: bool)
    requires CanAdvance(l, t) && (l.tasks[t].pc.Pop? || l.tasks[t].pc.Load? || l.tasks[t].pc.Exchange?) && l' == AdvanceStep(l, t, spuriously)
    ensures t < |l'.tasks| && !Cancels(l'.tasks[t].pc)
  {
  }

  lemma WakeCancelsNot(l: Line, l': Line, t: nat, next: Next)
    requires t < |l.tasks| && l.tasks[t].pc == DropNotified(next) && !next.Leave? && l' == DropNotifiedStep(l, t, next)
    ensures t < |l'.tasks| && !Cancels(l'.tasks[t].pc)
  {
  }

  lemma RestCancelsNot(l: Line, l': Line, t: nat, spuriously: bool)
    requires CanAdvance(l, t) && !Cancels(l.tasks[t].pc) && l' == AdvanceStep(l, t, spuriously)
    requires var pc := l.tasks[t].pc; !pc.Pop? && !pc.Load? && !pc.Exchange? && !pc.DropNotified? && !pc.NotifyOne?
    ensures t < |l'.tasks| && !Cancels(l'.tasks[t].pc)
  {
  }

  lemma StepCancelsNot(l: Line, e: Event, t: nat)
    requires (t < |l.tasks| ==> !Cancels(l.tasks[t].pc)) && e != Cancel(t)
    ensures t < |Step(l, e).tasks| ==> !Cancels(Step(l, e).tasks[t].pc)
  {
    match e
    case Advance(u, spuriously) =>
      if CanAdvance(l, u) {
        CountStays(l, u, spuriously);
        if u == t { OwnStepCancelsNot(l, Step(l, e), t, spuriously); } else if t < |l.tasks| { OthersStay(l, u, spuriously, t); }
      }
    case _ =>
  }

  lemma {:induction false} CancelledBySomebody(credit: nat, schedule: seq<Event>, t: nat)
    ensures var l := Run(credit, schedule); t < |l.tasks| && Cancels(l.tasks[t].pc) ==> Cancel(t) in schedule
  {
    if schedule != [] {
      var front, last := schedule[..|schedule| - 1], schedule[|schedule| - 1];
      CancelledBySomebody(credit, front, t);
      InFrontOrLast(schedule, Cancel(t));
      if Cancel(t) !in schedule { StepCancelsNot(Run(credit, front), last, t); }
    }
  }

  /** In every schedule a settlement that reports an answer reports one the pump gave to it; one that
      reports the stopped pump had its command dropped by the pump, or the pump has stopped; and one that
      ends cancelled was cancelled. */
  lemma ReportsWhatHappened(credit: nat, schedule: seq<Event>, t: nat, outcome: Outcome)
    requires var l := Run(credit, schedule); t < |l.tasks| && l.tasks[t].pc == Finished(outcome)
    ensures match outcome
      case Answered(answer) => Replied(schedule, t, Gave(answer))
      case PumpStopped => Replied(schedule, t, Dropped) || PumpStops in schedule
      case Cancelled => Cancel(t) in schedule
  {
    EveryAnswerIsItsOwn(credit, schedule, t, outcome);
    RepliesAreThePumps(credit, schedule, t);
    OpenUntilStopped(credit, schedule);
    CancelledBySomebody(credit, schedule, t);
  }

  // -- Cancelled settlements ---------------------------------------------------------------------

  /** The line after `k` steps of settlement `t` alone. */
  function OwnSteps(l: Line, t: nat, k: nat): Line {
    if k == 0 then l else Step(OwnSteps(l, t, k - 1), Advance(t, false))
  }

  predicate StandsAt(l: Line, t: nat, pc: Pc) {
    t < |l.tasks| && l.tasks[t].pc == pc
  }

  /** A settlement cancelled while it waits for its answer gives its slot up, which may be made anew, tells
      one that waits, and is over. */
  lemma CancelledGivesItsSlotUp(l: Line, t: nat)
    requires t < |l.tasks| && l.tasks[t].pc.Receive?
    ensures var l1 := Step(l, Cancel(t));
      var l2 := OwnSteps(l1, t, 1);
      && StandsAt(l1, t, GiveUp(l.tasks[t].pc.slot, Cancelled)) && l1.made == l.made
      && l2.made == l.made - 1 && l2.idle == l.idle && StandsAt(l2, t, LoadWaiting(Cancelled))
      && StandsAt(OwnSteps(l1, t, 2), t, if l.waiting > 0 then NotifyOne(Cancelled) else Finished(Cancelled))
  {
    var l1 := Step(l, Cancel(t));
    var l2 := OwnSteps(l1, t, 1);
    assert OwnSteps(l1, t, 0) == l1 && l2 == Step(l1, Advance(t, false));
    assert OwnSteps(l1, t, 2) == Step(l2, Advance(t, false));
  }

  lemma LeavesTheSection(l: Line, l': Line, t: nat)
    requires t < |l.tasks| && l.tasks[t] == Task(LeaveWaiting(Leave), Queued) && l' == Step(l, Advance(t, false))
    ensures l' == Goto(l.(waiting := l.waiting - 1), t, DropNotified(Leave))
  {
  }

  lemma LeavesTheQueue(l: Line, l': Line, t: nat)
    requires t < |l.tasks| && l.tasks[t] == Task(DropNotified(Leave), Queued) && l' == Step(l, Advance(t, false))
    ensures l' == l.(tasks := l.tasks[t := Task(Finished(Cancelled), Unregistered)], waiters := Without(l.waiters, t))
  {
  }

  /** One cancelled while it waits for a slot leaves the waiting section, and the wake-up object's queue. */
  lemma CancelledStopsWaiting(l: Line, t: nat)
    requires t < |l.tasks| && l.tasks[t].pc.Parked? && l.tasks[t].wait == Queued
    ensures var l1 := Step(l, Cancel(t));
      var l3 := OwnSteps(l1, t, 2);
      && l3.waiting == l.waiting - 1 && l3.waiters == Without(l.waiters, t) && l3.made == l.made && l3.idle == l.idle
      && StandsAt(l3, t, Finished(Cancelled)) && l3.tasks[t].wait == Unregistered
  {
    var l1 := Step(l, Cancel(t));
    var l2 := OwnSteps(l1, t, 1);
    assert OwnSteps(l1, t, 0) == l1;
    LeavesTheSection(l1, l2, t);
    LeavesTheQueue(l2, OwnSteps(l1, t, 2), t);
  }
}
