/** No settlement waits beside a free slot, and the slots that exist are exactly the idle and the
    held ones. Both are counting arguments over the tasks, kept by every step of every schedule. */
module SettleLineWakeup {
  import opened SettleLine

  // -- Counting tasks --------------------------------------------------------------------------

  /** What a task can be counted for. */
  datatype Role = Holder | Waiter | Token | Looking

  predicate HasSlot(pc: Pc) {
    match pc
    case LeaveWaiting(next) => next.Proceed?
    case DropNotified(next) => next.Proceed?
    case Send(_) => true
    case Receive(_) => true
    case Release(_, _) => true
    case GiveUp(_, _) => true
    case _ => false
  }

  /** Between its increment of `waiting` and its decrement. */
  predicate CountsWaiting(pc: Pc) {
    match pc
    case Pop(look) => look.Second?
    case Load(look) => look.Second?
    case Exchange(look, _) => look.Second?
    case Parked => true
    case LeaveWaiting(_) => true
    case _ => false
  }

  /** A look that found the queue empty and has yet to try for a new slot. */
  predicate PastPop(pc: Pc) {
    pc.Load? || pc.Exchange?
  }

  predicate LeavesWithSlot(pc: Pc) {
    match pc
    case LeaveWaiting(next) => next.Proceed?
    case DropNotified(next) => next.Proceed?
    case _ => false
  }

  /** A wake-up on its way: a task that freed a slot and has not finished waking, or one that was
      woken and has not looked again. */
  predicate HasToken(t: Task) {
    || t.pc.LoadWaiting?
    || t.pc.NotifyOne?
    || (t.pc.Pop? && t.pc.look == First(true))
    || t.wait == Notified
    || (t.wait == Consumed && !PastPop(t.pc) && !LeavesWithSlot(t.pc))
  }

  /** A woken task past its pop, which can still take a new slot but no longer an idle one. */
  predicate HasLook(t: Task) {
    PastPop(t.pc) && (t.pc.look == First(true) || (t.pc.look == Second && t.wait == Consumed))
  }

  function Weight(r: Role, t: Task): nat {
    match r
    case Holder => if HasSlot(t.pc) then 1 else 0
    case Waiter => if CountsWaiting(t.pc) then 1 else 0
    case Token => if HasToken(t) then 1 else 0
    case Looking => if HasLook(t) then 1 else 0
  }

  function Count(r: Role, ts: seq<Task>): nat {
    if ts == [] then 0 else Count(r, ts[..|ts| - 1]) + Weight(r, ts[|ts| - 1])
  }

  lemma {:induction false} CountUpdate(r: Role, ts: seq<Task>, i: nat, t: Task)
    requires i < |ts|
    ensures Count(r, ts[i := t]) + Weight(r, ts[i]) == Count(r, ts) + Weight(r, t)
  {
    var n := |ts| - 1;
    if i == n {
      assert ts[i := t][..n] == ts[..n];
    } else {
      assert ts[i := t][..n] == ts[..n][i := t];
      CountUpdate(r, ts[..n], i, t);
    }
  }

  lemma {:induction false} CountAtLeast(r: Role, ts: seq<Task>, i: nat)
    requires i < |ts|
    ensures Count(r, ts) >= Weight(r, ts[i])
  {
    if i < |ts| - 1 {
      CountAtLeast(r, ts[..|ts| - 1], i);
    }
  }

  lemma {:induction false} CountZero(r: Role, ts: seq<Task>)
    requires forall i :: 0 <= i < |ts| ==> Weight(r, ts[i]) == 0
    ensures Count(r, ts) == 0
  {
    if ts != [] {
      CountZero(r, ts[..|ts| - 1]);
    }
  }

  lemma CountAppend(r: Role, ts: seq<Task>, t: Task)
    ensures Count(r, ts + [t]) == Count(r, ts) + Weight(r, t)
  {
    assert (ts + [t])[..|ts|] == ts;
  }

  // -- The invariant ---------------------------------------------------------------------------

  predicate Distinct(s: seq<nat>) {
    forall i, j :: 0 <= i < j < |s| ==> s[i] != s[j]
  }

  /** Where a task may be with its entry in the wake-up object in a given state. */
  predicate Fits(t: Task, credit: nat) {
    match t.pc
    case Enter => t.wait != Unregistered
    case Pop(look) => look.Second? <==> t.wait != Unregistered
    case Load(look) => look.Second? <==> t.wait != Unregistered
    case Exchange(look, seen) => (look.Second? <==> t.wait != Unregistered) && seen < credit
    case Parked => t.wait != Unregistered
    case LeaveWaiting(next) => t.wait != Unregistered && (next.Again? ==> t.wait == Consumed) && (next.Leave? ==> t.wait != Consumed)
    case DropNotified(next) => t.wait != Unregistered && (next.Again? ==> t.wait == Consumed) && (next.Leave? ==> t.wait != Consumed)
    case _ => t.wait == Unregistered
  }

  predicate AllFit(l: Line) {
    forall t :: 0 <= t < |l.tasks| ==> Fits(l.tasks[t], l.credit)
  }

  /** The waiters are the queued tasks, each once, and a permit is stored only when none waits. */
  predicate QueueMatches(l: Line) {
    && Distinct(l.waiters)
    && (forall w :: w in l.waiters ==> w < |l.tasks| && l.tasks[w].wait == Queued)
    && (forall t :: 0 <= t < |l.tasks| && l.tasks[t].wait == Queued ==> t in l.waiters)
    && (l.permit ==> l.waiters == [])
  }

  /** Slot conservation, and the count of the waiting tasks. */
  predicate Counted(l: Line) {
    && l.made == |l.idle| + Count(Holder, l.tasks)
    && l.made <= l.credit
    && l.waiting == Count(Waiter, l.tasks)
  }

  /** Not yet notified, and past the point where its second look could see a slot pushed now. */
  predicate Exposed(t: Task) {
    t.wait == Queued && (t.pc.Parked? || (PastPop(t.pc) && t.pc.look == Second))
  }

  function Tokens(l: Line): nat {
    Count(Token, l.tasks) + if l.permit then 1 else 0
  }

  function FreeSlots(l: Line): int {
    |l.idle| + l.credit - l.made
  }

  /** The free slots never outnumber the wake-ups on their way while a task could miss one. */
  predicate Covered(l: Line) {
    forall t :: 0 <= t < |l.tasks| && Exposed(l.tasks[t]) ==>
      && |l.idle| <= Tokens(l)
      && (l.tasks[t].pc.Parked? ==> FreeSlots(l) <= Tokens(l) + Count(Looking, l.tasks))
  }

  predicate Inv(l: Line) {
    AllFit(l) && QueueMatches(l) && Counted(l) && Covered(l)
  }

  // -- Steps of one task -----------------------------------------------------------------------

  lemma Recount(ts: seq<Task>, i: nat, t: Task)
    requires i < |ts|
    ensures forall r: Role :: Count(r, ts[i := t]) + Weight(r, ts[i]) == Count(r, ts) + Weight(r, t)
  {
    forall r: Role ensures Count(r, ts[i := t]) + Weight(r, ts[i]) == Count(r, ts) + Weight(r, t) {
      CountUpdate(r, ts, i, t);
    }
  }

  lemma NoneExposed(l: Line, t: nat)
    requires Inv(l) && t < |l.tasks| && l.waiting == 0
    ensures !Exposed(l.tasks[t])
  {
    CountAtLeast(Waiter, l.tasks, t);
  }

  /** How far a role's count moves when one task is replaced. */
  function Shift(r: Role, before: Task, after: Task): int {
    Weight(r, after) - Weight(r, before)
  }

  /** A step that changes one task and leaves the wake-up object alone keeps the invariant, given
      what it does to the counts: a slot freed comes with a token, and a token is given up only
      with a slot taken, with the queue seen empty, or with no slot left to make. */
  lemma OneTaskStep(l: Line, l': Line, t: nat, task: Task)
    requires Inv(l) && t < |l.tasks|
    requires l'.tasks == l.tasks[t := task] && l'.credit == l.credit
    requires l'.waiters == l.waiters && l'.permit == l.permit
    requires Fits(task, l.credit) && (task.wait == Queued <==> l.tasks[t].wait == Queued)
    requires l'.made - |l'.idle| == l.made - |l.idle| + Shift(Holder, l.tasks[t], task)
    requires l'.made <= l.credit
    requires l'.waiting == l.waiting + Shift(Waiter, l.tasks[t], task)
    requires Exposed(task) && !Exposed(l.tasks[t]) ==> l'.idle == []
    requires Exposed(task) && task.pc.Parked? && !l.tasks[t].pc.Parked? ==> l'.made == l.credit
    requires || |l'.idle| <= |l.idle| + Shift(Token, l.tasks[t], task)
             || l'.idle == []
             || (l.waiting == 0 && !Exposed(task))
    requires || FreeSlots(l') <= FreeSlots(l) + Shift(Token, l.tasks[t], task) + Shift(Looking, l.tasks[t], task)
             || l'.made == l.credit
             || (l.waiting == 0 && !Exposed(task))
    ensures Inv(l')
  {
    Recount(l.tasks, t, task);
    forall u | 0 <= u < |l'.tasks| && Exposed(l'.tasks[u])
      ensures |l'.idle| <= Tokens(l')
      ensures l'.tasks[u].pc.Parked? ==> FreeSlots(l') <= Tokens(l') + Count(Looking, l'.tasks)
    {
      if l.waiting == 0 && u != t {
        NoneExposed(l, u);
      }
    }
  }

  lemma TakeKeeps(l: Line, t: nat, look: Look, slot: nat, idle: seq<nat>, made: int, cells: seq<Cell>)
    requires Inv(l) && t < |l.tasks|
    requires (l.tasks[t].pc == Pop(look) && l.idle != [] && idle == l.idle[1..] && made == l.made) ||
             (PastPop(l.tasks[t].pc) && l.tasks[t].pc.look == look && idle == l.idle && made == l.made + 1 && made <= l.credit)
    ensures Inv(Take(l.(idle := idle, made := made, cells := cells), t, look, slot))
  {
    var l' := Take(l.(idle := idle, made := made, cells := cells), t, look, slot);
    OneTaskStep(l, l', t, l'.tasks[t]);
  }

  lemma PopKeeps(l: Line, t: nat, look: Look)
    requires Inv(l) && t < |l.tasks| && l.tasks[t].pc == Pop(look)
    ensures Inv(PopStep(l, t, look))
  {
    if l.idle != [] {
      TakeKeeps(l, t, look, l.idle[0], l.idle[1..], l.made, l.cells);
    } else {
      OneTaskStep(l, PopStep(l, t, look), t, Task(Load(look), l.tasks[t].wait));
    }
  }

  lemma LoadKeeps(l: Line, t: nat, look: Look)
    requires Inv(l) && t < |l.tasks| && PastPop(l.tasks[t].pc) && l.tasks[t].pc.look == look
    ensures Inv(LoadStep(l, t, look))
  {
    var l' := LoadStep(l, t, look);
    OneTaskStep(l, l', t, l'.tasks[t]);
  }

  lemma ExchangeKeeps(l: Line, t: nat, look: Look, seen: int, spuriously: bool)
    requires Inv(l) && t < |l.tasks| && l.tasks[t].pc == Exchange(look, seen)
    ensures Inv(ExchangeStep(l, t, look, seen, spuriously))
  {
    if !spuriously && l.made == seen {
      TakeKeeps(l, t, look, |l.cells|, l.idle, l.made + 1, l.cells + [Ready]);
    } else {
      LoadKeeps(l, t, look);
    }
  }

  lemma WaitingKeeps(l: Line, t: nat, spuriously: bool)
    requires Inv(l) && CanAdvance(l, t)
    requires l.tasks[t].pc.Enter? || l.tasks[t].pc.Parked? || l.tasks[t].pc.LeaveWaiting?
    ensures Inv(AdvanceStep(l, t, spuriously))
  {
    var l' := AdvanceStep(l, t, spuriously);
    OneTaskStep(l, l', t, l'.tasks[t]);
  }

  lemma ExchangeWithPumpKeeps(l: Line, t: nat, spuriously: bool)
    requires Inv(l) && CanAdvance(l, t)
    requires l.tasks[t].pc.Send? || l.tasks[t].pc.Receive?
    ensures Inv(AdvanceStep(l, t, spuriously))
  {
    var l' := AdvanceStep(l, t, spuriously);
    OneTaskStep(l, l', t, l'.tasks[t]);
  }

  /** A slot goes back only where there is room: the settlement that holds it is not counted idle. */
  lemma FreeingKeeps(l: Line, t: nat, spuriously: bool)
    requires Inv(l) && CanAdvance(l, t)
    requires l.tasks[t].pc.Release? || l.tasks[t].pc.GiveUp? || l.tasks[t].pc.LoadWaiting?
    ensures Inv(AdvanceStep(l, t, spuriously))
    ensures l.tasks[t].pc.Release? ==> |l.idle| < l.credit
  {
    CountAtLeast(Holder, l.tasks, t);
    var l' := AdvanceStep(l, t, spuriously);
    OneTaskStep(l, l', t, l'.tasks[t]);
  }

  lemma CancelKeeps(l: Line, t: nat)
    requires Inv(l) && CanCancel(l, t)
    ensures Inv(CancelStep(l, t))
  {
    var l' := CancelStep(l, t);
    OneTaskStep(l, l', t, l'.tasks[t]);
  }

  // -- Steps of the wake-up object -------------------------------------------------------------

  lemma EnableKeepsQueue(l: Line, t: nat)
    requires AllFit(l) && QueueMatches(l) && CanAdvance(l, t) && l.tasks[t].pc.Enable?
    ensures AllFit(EnableStep(l, t)) && QueueMatches(EnableStep(l, t))
  {
    assert t !in l.waiters;
  }

  lemma EnableKeeps(l: Line, t: nat)
    requires Inv(l) && CanAdvance(l, t) && l.tasks[t].pc.Enable?
    ensures Inv(EnableStep(l, t))
  {
    EnableKeepsQueue(l, t);
    var l' := EnableStep(l, t);
    Recount(l.tasks, t, l'.tasks[t]);
  }

  lemma DistinctTail(s: seq<nat>)
    requires Distinct(s) && s != []
    ensures Distinct(s[1..]) && s[0] !in s[1..]
  {
  }

  /** A task ready to hand its token to the wake-up object, and what it is afterwards. */
  predicate HandsOver(before: Task, after: Task, credit: nat) {
    && HasToken(before) && before.wait != Queued && !PastPop(before.pc)
    && !HasToken(after) && after.wait == Unregistered && !PastPop(after.pc)
    && Fits(after, credit)
    && HasSlot(after.pc) == HasSlot(before.pc)
    && CountsWaiting(after.pc) == CountsWaiting(before.pc)
  }

  lemma NotifyKeepsQueue(l: Line, t: nat, task: Task)
    requires AllFit(l) && QueueMatches(l) && t < |l.tasks|
    requires HandsOver(l.tasks[t], task, l.credit)
    ensures AllFit(Notify(l.(tasks := l.tasks[t := task])))
    ensures QueueMatches(Notify(l.(tasks := l.tasks[t := task])))
  {
    if l.waiters != [] {
      DistinctTail(l.waiters);
      assert forall y :: y in l.waiters <==> y == l.waiters[0] || y in l.waiters[1..];
    }
  }

  /** Handing the token of one task over to the wake-up object keeps the invariant: the longest
      waiting task takes it, or, when none waits, nobody could have missed it. */
  lemma NotifyKeeps(l: Line, t: nat, task: Task)
    requires Inv(l) && t < |l.tasks|
    requires HandsOver(l.tasks[t], task, l.credit)
    ensures Inv(Notify(l.(tasks := l.tasks[t := task])))
  {
    NotifyKeepsQueue(l, t, task);
    var l' := Notify(l.(tasks := l.tasks[t := task]));
    NotifyCounts(l, t, task, l');
    forall u | 0 <= u < |l'.tasks| && Exposed(l'.tasks[u])
      ensures |l'.idle| <= Tokens(l')
      ensures l'.tasks[u].pc.Parked? ==> FreeSlots(l') <= Tokens(l') + Count(Looking, l'.tasks)
    {
      assert u in l'.waiters && Exposed(l.tasks[u]);
    }
  }

  lemma NotifyCounts(l: Line, t: nat, task: Task, l': Line)
    requires AllFit(l) && QueueMatches(l) && t < |l.tasks|
    requires HandsOver(l.tasks[t], task, l.credit)
    requires l' == Notify(l.(tasks := l.tasks[t := task]))
    ensures Count(Holder, l'.tasks) == Count(Holder, l.tasks) && Count(Waiter, l'.tasks) == Count(Waiter, l.tasks)
    ensures Count(Looking, l'.tasks) == Count(Looking, l.tasks)
    ensures l.waiters != [] ==> Count(Token, l'.tasks) == Count(Token, l.tasks)
  {
    var ts := l.tasks[t := task];
    Recount(l.tasks, t, task);
    if l.waiters != [] {
      var w := l.waiters[0];
      assert w in l.waiters && w != t;
      WokenTakesToken(l.tasks[w], l.credit);
      Recount(ts, w, ts[w].(wait := Notified));
    }
  }

  lemma WokenTakesToken(task: Task, credit: nat)
    requires Fits(task, credit) && task.wait == Queued
    ensures !HasToken(task) && HasToken(task.(wait := Notified))
    ensures HasLook(task) == HasLook(task.(wait := Notified))
  {
  }

  lemma DistinctCons(x: nat, s: seq<nat>)
    requires Distinct(s) && x !in s
    ensures Distinct([x] + s)
  {
  }

  lemma {:induction false} WithoutMembers(s: seq<nat>, x: nat)
    requires Distinct(s)
    ensures Distinct(Without(s, x))
    ensures forall y :: y in Without(s, x) <==> y in s && y != x
  {
    if s != [] {
      DistinctTail(s);
      WithoutMembers(s[1..], x);
      assert forall y :: y in s <==> y == s[0] || y in s[1..];
      if s[0] != x {
        DistinctCons(s[0], Without(s[1..], x));
      }
    }
  }

  lemma UnqueueKeepsQueue(l: Line, t: nat, next: Next)
    requires AllFit(l) && QueueMatches(l) && t < |l.tasks| && l.tasks[t] == Task(DropNotified(next), Queued)
    ensures AllFit(DropNotifiedStep(l, t, next)) && QueueMatches(DropNotifiedStep(l, t, next))
  {
    WithoutMembers(l.waiters, t);
  }

  lemma UnqueueKeeps(l: Line, t: nat, next: Next)
    requires Inv(l) && t < |l.tasks| && l.tasks[t] == Task(DropNotified(next), Queued)
    ensures Inv(DropNotifiedStep(l, t, next))
  {
    UnqueueKeepsQueue(l, t, next);
    UnqueueKeepsCounts(l, DropNotifiedStep(l, t, next), t, next);
  }

  lemma UnqueueKeepsCounts(l: Line, l': Line, t: nat, next: Next)
    requires Inv(l) && t < |l.tasks| && l.tasks[t] == Task(DropNotified(next), Queued)
    requires l' == l.(tasks := l.tasks[t := Task(After(next), Unregistered)], waiters := Without(l.waiters, t))
    ensures Counted(l') && Covered(l')
  {
    Recount(l.tasks, t, Task(After(next), Unregistered));
  }

  lemma DropNotifiedKeeps(l: Line, t: nat, next: Next)
    requires Inv(l) && t < |l.tasks| && l.tasks[t].pc == DropNotified(next)
    ensures Inv(DropNotifiedStep(l, t, next))
  {
    match l.tasks[t].wait
    case Queued => UnqueueKeeps(l, t, next);
    case Notified => NotifyKeeps(l, t, Task(After(next), Unregistered));
    case Consumed => OneTaskStep(l, DropNotifiedStep(l, t, next), t, Task(After(next), Unregistered));
  }

  // -- Every step, every schedule --------------------------------------------------------------

  lemma AdvanceKeeps(l: Line, t: nat, spuriously: bool)
    requires Inv(l) && CanAdvance(l, t)
    ensures Inv(AdvanceStep(l, t, spuriously))
  {
    match l.tasks[t].pc
    case Pop(look) => PopKeeps(l, t, look);
    case Load(look) => LoadKeeps(l, t, look);
    case Exchange(look, seen) => ExchangeKeeps(l, t, look, seen, spuriously);
    case Enable => EnableKeeps(l, t);
    case Enter => WaitingKeeps(l, t, spuriously);
    case Parked => WaitingKeeps(l, t, spuriously);
    case LeaveWaiting(_) => WaitingKeeps(l, t, spuriously);
    case DropNotified(next) => DropNotifiedKeeps(l, t, next);
    case Send(_) => ExchangeWithPumpKeeps(l, t, spuriously);
    case Receive(_) => ExchangeWithPumpKeeps(l, t, spuriously);
    case Release(_, _) => FreeingKeeps(l, t, spuriously);
    case GiveUp(_, _) => FreeingKeeps(l, t, spuriously);
    case LoadWaiting(_) => FreeingKeeps(l, t, spuriously);
    case NotifyOne(outcome) => NotifyOneKeeps(l, t, outcome);
  }

  lemma NotifyOneKeeps(l: Line, t: nat, outcome: Outcome)
    requires Inv(l) && t < |l.tasks| && l.tasks[t].pc == NotifyOne(outcome)
    ensures Inv(Goto(Notify(l), t, Finished(outcome)))
  {
    var done := Task(Finished(outcome), Unregistered);
    NotifyKeeps(l, t, done);
    if l.waiters != [] {
      assert l.waiters[0] in l.waiters && l.waiters[0] != t;
    }
    assert Notify(l.(tasks := l.tasks[t := done])).tasks == Goto(Notify(l), t, Finished(outcome)).tasks;
  }

  lemma SpawnKeeps(l: Line, l': Line)
    requires Inv(l) && l' == Step(l, Spawn)
    ensures Inv(l')
  {
    var task := Task(Pop(First(false)), Unregistered);
    var n := |l.tasks|;
    CountAppend(Holder, l.tasks, task);
    CountAppend(Waiter, l.tasks, task);
    CountAppend(Token, l.tasks, task);
    CountAppend(Looking, l.tasks, task);
    assert forall t :: 0 <= t < n ==> l'.tasks[t] == l.tasks[t];
    assert QueueMatches(l');
    assert Tokens(l') == Tokens(l) && FreeSlots(l') == FreeSlots(l);
  }

  lemma StepKeeps(l: Line, e: Event)
    requires Inv(l)
    ensures Inv(Step(l, e))
  {
    match e
    case Spawn => SpawnKeeps(l, Step(l, e));
    case Advance(t, spuriously) =>
      if CanAdvance(l, t) { AdvanceKeeps(l, t, spuriously); }
    case Cancel(t) =>
      if CanCancel(l, t) { CancelKeeps(l, t); }
    case PumpReply(c, reply) =>
    case PumpStops =>
  }

  lemma {:induction false} RunKeeps(credit: nat, schedule: seq<Event>)
    ensures Inv(Run(credit, schedule)) && Run(credit, schedule).credit == credit
  {
    if schedule != [] {
      var n := |schedule| - 1;
      RunKeeps(credit, schedule[..n]);
      StepKeeps(Run(credit, schedule[..n]), schedule[n]);
      StepCredit(Run(credit, schedule[..n]), schedule[n]);
    }
  }

  lemma LookCredit(l: Line, t: nat, look: Look)
    requires t < |l.tasks|
    ensures PopStep(l, t, look).credit == l.credit && LoadStep(l, t, look).credit == l.credit
    ensures forall seen, spuriously :: ExchangeStep(l, t, look, seen, spuriously).credit == l.credit
  {
  }

  lemma AdvanceCredit(l: Line, t: nat, spuriously: bool)
    requires CanAdvance(l, t)
    ensures AdvanceStep(l, t, spuriously).credit == l.credit
  {
    if l.tasks[t].pc.Pop? || PastPop(l.tasks[t].pc) {
      LookCredit(l, t, l.tasks[t].pc.look);
    }
  }

  lemma StepCredit(l: Line, e: Event)
    ensures Step(l, e).credit == l.credit
  {
    if e.Advance? && CanAdvance(l, e.task) {
      AdvanceCredit(l, e.task, e.spuriously);
    }
  }

  // -- What every schedule shows ---------------------------------------------------------------

  lemma StuckHasNoTokens(l: Line)
    requires Inv(l) && forall t :: !CanAdvance(l, t)
    ensures Count(Token, l.tasks) == 0 && Count(Looking, l.tasks) == 0
  {
    forall t | 0 <= t < |l.tasks| ensures !HasToken(l.tasks[t]) && !HasLook(l.tasks[t]) {
      assert !CanAdvance(l, t) && Fits(l.tasks[t], l.credit);
    }
    CountZero(Token, l.tasks);
    CountZero(Looking, l.tasks);
  }

  /** Under every schedule the slots that exist are the idle and the held ones and never more than
      the credit, so a slot handed back always finds room, and both counters stay in range. */
  lemma {:induction false} SlotsConserved(credit: nat, schedule: seq<Event>)
    ensures var l := Run(credit, schedule);
      && l.made == |l.idle| + Count(Holder, l.tasks) <= credit
      && l.waiting == Count(Waiter, l.tasks)
      && (forall t :: 0 <= t < |l.tasks| && l.tasks[t].pc.Release? ==> |l.idle| < l.credit)
  {
    RunKeeps(credit, schedule);
    var l := Run(credit, schedule);
    forall t | 0 <= t < |l.tasks| && l.tasks[t].pc.Release? ensures |l.idle| < l.credit {
      CountAtLeast(Holder, l.tasks, t);
    }
  }

  /** Under every schedule, while a settlement is parked and not notified, every free slot has a
      wake-up on its way. */
  lemma {:induction false} NoLostWakeup(credit: nat, schedule: seq<Event>, t: nat)
    requires var l := Run(credit, schedule);
      t < |l.tasks| && l.tasks[t] == Task(Parked, Queued)
    ensures var l := Run(credit, schedule);
      FreeSlots(l) <= Count(Token, l.tasks) + Count(Looking, l.tasks)
  {
    RunKeeps(credit, schedule);
    assert Exposed(Run(credit, schedule).tasks[t]);
  }

  /** When nothing in the line can move by itself, a parked settlement means that no slot is free
      or could be made: the credit's worth of settlements all wait for the pump's answer. */
  lemma {:induction false} ParkedOnlyBehindThePump(credit: nat, schedule: seq<Event>, t: nat)
    requires var l := Run(credit, schedule);
      t < |l.tasks| && l.tasks[t].pc.Parked? && forall u :: !CanAdvance(l, u)
    ensures var l := Run(credit, schedule);
      && FreeSlots(l) == 0
      && Count(Holder, l.tasks) == credit
      && (forall u :: 0 <= u < |l.tasks| && HasSlot(l.tasks[u].pc) ==> l.tasks[u].pc.Receive?)
  {
    var l := Run(credit, schedule);
    RunKeeps(credit, schedule);
    assert !CanAdvance(l, t);
    NoLostWakeup(credit, schedule, t);
    StuckHasNoTokens(l);
    forall u | 0 <= u < |l.tasks| && HasSlot(l.tasks[u].pc) ensures l.tasks[u].pc.Receive? {
      assert !CanAdvance(l, u);
    }
  }
}
