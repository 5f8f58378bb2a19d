/** The harness's in-flight count, at the grain of its own atomic steps. Tasks run in any order, one
    step at a time; a call into the registry holds its lock over any number of sends. Which
    subscriptions a call sends to is left open, so what holds here holds for every routing. */
module InFlight {
  /** One subscription's channel: whether its receiver is open, and how many deliveries wait in it. */
  datatype Channel = Channel(open: bool, waiting: nat)

  /** Why a task is in the registry: a call of its own, a settlement giving its delivery back, or a
      request detaching its reply link. */
  datatype Purpose = Call | GiveBack | DetachReplies(id: nat)

  datatype Pc =
    | Idle
    | Locked(purpose: Purpose)            // in the registry, between sends
    | Counted(id: nat, purpose: Purpose)  // counted the delivery, about to send it
    | Refused(purpose: Purpose)           // the send was refused, about to take the count back
    | Popped                              // took a delivery out of a channel, about to wrap it
    | Returning                           // settling or dropping: the delivery is on its way back
    | Settled                             // about to release the settlement's count
    | Draining(id: nat)                   // emptying the channel of a link that detaches
    | Drained(id: nat)                    // took a delivery out there, about to release its count

  datatype State = State(
    count: int,
    channels: map<nat, Channel>,
    nextChannel: nat,
    attached: set<nat>,
    live: set<nat>,
    nextSettlement: nat,
    lock: bool,
    closed: bool,
    tasks: seq<Pc>,
    abandoned: nat)

  datatype Action =
    | Enter                     // a publish, a commit or a subscribe takes the lock
    | Attach                    // the subscribe it made registers a new channel
    | Count(id: nat)            // a send counts the delivery first
    | Push                      // and then sends it
    | Uncount                   // or takes the count back when it was refused
    | Leave                     // the call lets go of the lock
    | Pop(id: nat)              // a consumer or a request reads its channel
    | Wrap                      // and makes the delivery a message with a settlement
    | Settle(settlement: nat, back: bool)  // a settlement ends; `back` when its delivery goes back
    | GoBack                    // the return takes the lock
    | Release                   // the settlement's count goes, last of all
    | Close(id: nat)            // a link that detaches closes its receiver
    | Drain                     // and empties its channel, one delivery at a time
    | DrainRelease
    | Drop                      // and detaches
    | Detach(id: nat)           // a request that is done detaches its reply link, if it still can, and drains it
    | Abandon(id: nat)          // a request that goes away at once drops its receiver with what is in the channel
    | Shut                      // the transport closes, which empties the registry

  datatype Event = Event(task: nat, action: Action)

  function Start(tasks: nat): State {
    State(0, map[], 0, {}, {}, 0, false, false, seq(tasks, i => Idle), 0)
  }

  predicate Enabled(s: State, e: Event) {
    e.task < |s.tasks| &&
    var pc := s.tasks[e.task];
    match e.action
    case Enter => pc.Idle? && !s.lock
    case Attach => pc == Locked(Call) && !s.closed
    case Count(id) => pc.Locked? && id in s.attached && id in s.channels
    case Push => pc.Counted? && pc.id in s.channels
    case Uncount => pc.Refused?
    case Leave => pc.Locked?
    case Pop(id) => pc.Idle? && id in s.channels && s.channels[id].waiting > 0
    case Wrap => pc.Popped?
    case Settle(h, back) => pc.Idle? && h in s.live
    case GoBack => pc.Returning? && !s.lock
    case Release => pc.Settled?
    case Close(id) => pc.Idle? && id in s.channels
    case Drain => pc.Draining? && pc.id in s.channels && s.channels[pc.id].waiting > 0
    case DrainRelease => pc.Drained?
    case Drop => pc.Draining? && pc.id in s.channels && s.channels[pc.id].waiting == 0 && (pc.id in s.attached ==> !s.lock)
    case Detach(id) => pc.Idle? && !s.lock && id in s.channels
    case Abandon(id) => pc.Idle? && id in s.channels
    case Shut => pc.Idle? && !s.lock
  }

  function At(s: State, t: nat, pc: Pc): State
    requires t < |s.tasks|
  {
    s.(tasks := s.tasks[t := pc])
  }

  function Put(s: State, id: nat, c: Channel): State {
    s.(channels := s.channels[id := c])
  }

  function AfterLeave(p: Purpose): Pc {
    match p
    case Call => Idle
    case GiveBack => Settled
    case DetachReplies(id) => Draining(id)
  }

  function Step(s: State, e: Event): State {
    if !Enabled(s, e) then s
    else
      var t := e.task;
      var pc := s.tasks[t];
      match e.action
      case Enter => At(s, t, Locked(Call)).(lock := true)
      case Attach =>
        Put(s, s.nextChannel, Channel(true, 0)).(nextChannel := s.nextChannel + 1, attached := s.attached + {s.nextChannel})
      case Count(id) => At(s, t, Counted(id, pc.purpose)).(count := s.count + 1)
      case Push =>
        var c := s.channels[pc.id];
        if c.open then Put(At(s, t, Locked(pc.purpose)), pc.id, c.(waiting := c.waiting + 1)) else At(s, t, Refused(pc.purpose))
      case Uncount => At(s, t, Locked(pc.purpose)).(count := s.count - 1)
      case Leave => At(s, t, AfterLeave(pc.purpose)).(lock := false)
      case Pop(id) => Put(At(s, t, Popped), id, s.channels[id].(waiting := s.channels[id].waiting - 1))
      case Wrap => At(s, t, Idle).(live := s.live + {s.nextSettlement}, nextSettlement := s.nextSettlement + 1)
      case Settle(h, back) => At(s, t, if back then Returning else Settled).(live := s.live - {h})
      case GoBack => At(s, t, Locked(GiveBack)).(lock := true)
      case Release => At(s, t, Idle).(count := s.count - 1)
      case Close(id) => Put(At(s, t, Draining(id)), id, s.channels[id].(open := false))
      case Drain => Put(At(s, t, Drained(pc.id)), pc.id, s.channels[pc.id].(waiting := s.channels[pc.id].waiting - 1))
      case DrainRelease => At(s, t, Draining(pc.id)).(count := s.count - 1)
      case Drop =>
        if pc.id in s.attached
        then At(s, t, Locked(Call)).(lock := true, attached := s.attached - {pc.id}, channels := s.channels - {pc.id})
        else At(s, t, Idle).(channels := s.channels - {pc.id})
      case Detach(id) => At(s, t, Locked(DetachReplies(id))).(lock := true, attached := s.attached - {id})
      case Abandon(id) =>
        Put(s, id, Channel(false, 0)).(abandoned := s.abandoned + s.channels[id].waiting)
      case Shut => s.(closed := true, attached := {})
  }

  function Run(tasks: nat, events: seq<Event>): State {
    if events == [] then Start(tasks) else Step(Run(tasks, events[..|events| - 1]), events[|events| - 1])
  }

  // -- The account -------------------------------------------------------------------------------

  /** A settlement some task is giving back or letting go of: its count is not released yet. */
  function Ending(pc: Pc): nat {
    match pc
    case Returning => 1
    case Settled => 1
    case Locked(p) => if p.GiveBack? then 1 else 0
    case Counted(_, p) => if p.GiveBack? then 1 else 0
    case Refused(p) => if p.GiveBack? then 1 else 0
    case _ => 0
  }

  /** A delivery some task has counted and not yet put anywhere, or taken and not yet let go of. */
  function Between(pc: Pc): nat {
    if pc.Counted? || pc.Refused? || pc.Popped? || pc.Drained? then 1 else 0
  }

  function Of(c: map<nat, Channel>, id: nat): nat {
    if id in c then c[id].waiting else 0
  }

  function Waiting(channels: map<nat, Channel>, n: nat): nat {
    if n == 0 then 0 else Waiting(channels, n - 1) + Of(channels, n - 1)
  }

  function EndingOf(tasks: seq<Pc>): nat {
    if tasks == [] then 0 else EndingOf(tasks[..|tasks| - 1]) + Ending(tasks[|tasks| - 1])
  }

  function BetweenOf(tasks: seq<Pc>): nat {
    if tasks == [] then 0 else BetweenOf(tasks[..|tasks| - 1]) + Between(tasks[|tasks| - 1])
  }

  function ChannelLengths(s: State): nat {
    Waiting(s.channels, s.nextChannel)
  }

  function LiveSettlements(s: State): nat {
    |s.live| + EndingOf(s.tasks)
  }

  predicate Inv(s: State) {
    && s.count == ChannelLengths(s) + LiveSettlements(s) + BetweenOf(s.tasks) + s.abandoned
    && (forall id :: id in s.channels ==> id < s.nextChannel)
    && (forall h :: h in s.live ==> h < s.nextSettlement)
  }

  lemma {:induction false} WaitingChange(c: map<nat, Channel>, c': map<nat, Channel>, n: nat, k: nat)
    requires k < n && forall id: nat :: id < n && id != k ==> Of(c', id) == Of(c, id)
    ensures Waiting(c', n) + Of(c, k) == Waiting(c, n) + Of(c', k)
  {
    if n - 1 == k {
      WaitingAlike(c, c', n - 1);
    } else {
      WaitingChange(c, c', n - 1, k);
    }
  }

  lemma {:induction false} WaitingAlike(c: map<nat, Channel>, c': map<nat, Channel>, n: nat)
    requires forall id: nat :: id < n ==> Of(c', id) == Of(c, id)
    ensures Waiting(c', n) == Waiting(c, n)
  {
    if n > 0 {
      WaitingAlike(c, c', n - 1);
    }
  }

  lemma {:induction false} Moved(tasks: seq<Pc>, t: nat, pc: Pc)
    requires t < |tasks|
    ensures EndingOf(tasks[t := pc]) + Ending(tasks[t]) == EndingOf(tasks) + Ending(pc)
    ensures BetweenOf(tasks[t := pc]) + Between(tasks[t]) == BetweenOf(tasks) + Between(pc)
  {
    var n := |tasks| - 1;
    if t == n {
      assert tasks[t := pc][..n] == tasks[..n];
    } else {
      assert tasks[t := pc][..n] == tasks[..n][t := pc];
      Moved(tasks[..n], t, pc);
    }
  }

  /** The channel a step touches, if it touches one. */
  function Touched(s: State, e: Event): nat
    requires Enabled(s, e)
  {
    match e.action
    case Pop(id) => id
    case Close(id) => id
    case Abandon(id) => id
    case Attach => s.nextChannel
    case _ => if s.tasks[e.task].Counted? || s.tasks[e.task].Draining? then s.tasks[e.task].id else 0
  }

  /** What a step does to the sums: one channel and one task change. */
  predicate Moves(s: State, s': State, e: Event)
    requires Enabled(s, e)
  {
    && ChannelLengths(s') + Of(s.channels, Touched(s, e)) == ChannelLengths(s) + Of(s'.channels, Touched(s, e))
    && |s'.tasks| == |s.tasks|
    && EndingOf(s'.tasks) + Ending(s.tasks[e.task]) == EndingOf(s.tasks) + Ending(s'.tasks[e.task])
    && BetweenOf(s'.tasks) + Between(s.tasks[e.task]) == BetweenOf(s.tasks) + Between(s'.tasks[e.task])
  }

  lemma TouchesOne(s: State, s': State, e: Event)
    requires Enabled(s, e) && s' == Step(s, e)
    ensures forall id: nat :: id != Touched(s, e) ==> Of(s'.channels, id) == Of(s.channels, id)
    ensures s'.nextChannel == s.nextChannel + if e.action.Attach? then 1 else 0
    ensures s'.channels == s.channels || Touched(s, e) in s.channels || e.action.Attach?
  {
  }

  lemma ChannelMoves(s: State, s': State, e: Event)
    requires Inv(s) && Enabled(s, e) && s' == Step(s, e)
    ensures ChannelLengths(s') + Of(s.channels, Touched(s, e)) == ChannelLengths(s) + Of(s'.channels, Touched(s, e))
  {
    TouchesOne(s, s', e);
    SumMoves(s.channels, s'.channels, s.nextChannel, s'.nextChannel, Touched(s, e));
  }

  lemma SumMoves(c: map<nat, Channel>, c': map<nat, Channel>, n: nat, n': nat, k: nat)
    requires (n' == n && (k < n || c' == c)) || (n' == n + 1 && k == n)
    requires forall id: nat :: id != k ==> Of(c', id) == Of(c, id)
    requires k >= n ==> Of(c, k) == 0
    ensures Waiting(c', n') + Of(c, k) == Waiting(c, n) + Of(c', k)
  {
    if k < n {
      WaitingChange(c, c', n, k);
    } else {
      WaitingAlike(c, c', n);
    }
  }

  lemma TaskMoves(s: State, s': State, e: Event)
    requires Enabled(s, e) && s' == Step(s, e)
    ensures s'.tasks == if e.action.Attach? || e.action.Abandon? || e.action.Shut? then s.tasks else s.tasks[e.task := s'.tasks[e.task]]
  {
  }

  lemma StepMoves(s: State, s': State, e: Event)
    requires Inv(s) && Enabled(s, e) && s' == Step(s, e)
    ensures Moves(s, s', e)
  {
    ChannelMoves(s, s', e);
    TaskMoves(s, s', e);
    Moved(s.tasks, e.task, s'.tasks[e.task]);
  }

  /** Taking the lock, letting go of it, attaching and closing the transport move no delivery. */
  lemma CallKeeps(s: State, s': State, e: Event)
    requires Inv(s) && Enabled(s, e) && s' == Step(s, e) && Moves(s, s', e)
    requires var a := e.action; a.Enter? || a.Attach? || a.Leave? || a.GoBack? || a.Detach? || a.Drop? || a.Shut?
    ensures Inv(s')
  {
  }

  lemma SendKeeps(s: State, s': State, e: Event)
    requires Inv(s) && Enabled(s, e) && s' == Step(s, e) && Moves(s, s', e)
    requires e.action.Count? || e.action.Push? || e.action.Uncount?
    ensures Inv(s')
  {
  }

  lemma ConsumeKeeps(s: State, s': State, e: Event)
    requires Inv(s) && Enabled(s, e) && s' == Step(s, e) && Moves(s, s', e)
    requires e.action.Pop? || e.action.Wrap?
    ensures Inv(s')
  {
  }

  lemma SettleKeeps(s: State, s': State, e: Event)
    requires Inv(s) && Enabled(s, e) && s' == Step(s, e) && Moves(s, s', e)
    requires e.action.Settle? || e.action.Release?
    ensures Inv(s')
  {
  }

  lemma DrainKeeps(s: State, s': State, e: Event)
    requires Inv(s) && Enabled(s, e) && s' == Step(s, e) && Moves(s, s', e)
    requires e.action.Close? || e.action.Drain? || e.action.DrainRelease? || e.action.Abandon?
    ensures Inv(s')
  {
  }

  lemma StepKeeps(s: State, s': State, e: Event)
    requires Inv(s) && s' == Step(s, e)
    ensures Inv(s')
  {
    if Enabled(s, e) {
      StepMoves(s, s', e);
      match e.action
      case Enter => CallKeeps(s, s', e);
      case Attach => CallKeeps(s, s', e);
      case Count(_) => SendKeeps(s, s', e);
      case Push => SendKeeps(s, s', e);
      case Uncount => SendKeeps(s, s', e);
      case Leave => CallKeeps(s, s', e);
      case Pop(_) => ConsumeKeeps(s, s', e);
      case Wrap => ConsumeKeeps(s, s', e);
      case Settle(_, _) => SettleKeeps(s, s', e);
      case GoBack => CallKeeps(s, s', e);
      case Release => SettleKeeps(s, s', e);
      case Close(_) => DrainKeeps(s, s', e);
      case Drain => DrainKeeps(s, s', e);
      case DrainRelease => DrainKeeps(s, s', e);
      case Drop => CallKeeps(s, s', e);
      case Detach(_) => CallKeeps(s, s', e);
      case Abandon(_) => DrainKeeps(s, s', e);
      case Shut => CallKeeps(s, s', e);
    }
  }

  lemma {:induction false} StartSums(tasks: seq<Pc>)
    requires forall i :: 0 <= i < |tasks| ==> tasks[i].Idle?
    ensures EndingOf(tasks) == 0 && BetweenOf(tasks) == 0
  {
    if tasks != [] {
      StartSums(tasks[..|tasks| - 1]);
    }
  }

  lemma {:induction false} RunKeeps(tasks: nat, events: seq<Event>)
    ensures Inv(Run(tasks, events))
  {
    if events == [] {
      StartSums(Start(tasks).tasks);
    } else {
      RunKeeps(tasks, events[..|events| - 1]);
      StepKeeps(Run(tasks, events[..|events| - 1]), Run(tasks, events), events[|events| - 1]);
    }
  }

  /** At every atomic step of every run the count is at least the channel lengths and the live
      settlements together, and so is never negative. */
  lemma NeverBelow(tasks: nat, events: seq<Event>)
    ensures var s := Run(tasks, events); s.count >= ChannelLengths(s) + LiveSettlements(s) >= 0
  {
    RunKeeps(tasks, events);
  }

  predicate Quiet(s: State) {
    forall i :: 0 <= i < |s.tasks| ==> s.tasks[i].Idle?
  }

  /** A request drops its receiver with counted deliveries in the channel: its future is dropped half-way,
      or the transport closed before its message was routed. */
  predicate Leaks(s: State, e: Event) {
    Enabled(s, e) && e.action.Abandon? && s.channels[e.action.id].waiting > 0
  }

  predicate NothingLeaks(tasks: nat, events: seq<Event>) {
    events == [] ||
    var front := events[..|events| - 1];
    NothingLeaks(tasks, front) && !Leaks(Run(tasks, front), events[|events| - 1])
  }

  lemma StepAbandons(s: State, e: Event)
    ensures Step(s, e).abandoned >= s.abandoned
    ensures Step(s, e).abandoned > s.abandoned <==> Leaks(s, e)
  {
  }

  lemma {:induction false} AbandonedIsLeaked(tasks: nat, events: seq<Event>)
    ensures Run(tasks, events).abandoned == 0 <==> NothingLeaks(tasks, events)
  {
    if events != [] {
      var n := |events| - 1;
      AbandonedIsLeaked(tasks, events[..n]);
      StepAbandons(Run(tasks, events[..n]), events[n]);
    }
  }

  /** With no call in progress the count is exactly that sum, if and only if at no point of the
      schedule a request dropped its receiver with deliveries in the channel. */
  lemma ExactWhenQuiet(tasks: nat, events: seq<Event>)
    requires Quiet(Run(tasks, events))
    ensures var s := Run(tasks, events); s.count == ChannelLengths(s) + |s.live| <==> NothingLeaks(tasks, events)
  {
    RunKeeps(tasks, events);
    StartSums(Run(tasks, events).tasks);
    AbandonedIsLeaked(tasks, events);
  }

  function Alone(actions: seq<Action>): seq<Event> {
    seq(|actions|, i requires 0 <= i < |actions| => Event(0, actions[i]))
  }

  lemma OneMore(actions: seq<Action>, a: Action, s: State, s': State)
    requires Run(1, Alone(actions)) == s && s' == Step(s, Event(0, a))
    ensures Run(1, Alone(actions + [a])) == s'
  {
    var e := Alone(actions + [a]);
    assert e[..|e| - 1] == Alone(actions);
  }

  /** One channel with one counted reply in it, and nobody busy. */
  function OneReply(): State {
    Start(1).(count := 1, channels := map[0 := Channel(true, 1)], nextChannel := 1, attached := {0}, tasks := [Idle])
  }

  lemma Subscribed()
    ensures Run(1, Alone([Enter, Attach])) ==
      Start(1).(tasks := [Locked(Call)], lock := true, channels := map[0 := Channel(true, 0)], nextChannel := 1, attached := {0})
  {
    var s0 := Start(1);
    var s1 := s0.(tasks := [Locked(Call)], lock := true);
    assert s0.tasks == [Idle] && Alone([]) == [];
    OneMore([], Enter, s0, s1);
    assert [] + [Enter] == [Enter] && [Enter] + [Attach] == [Enter, Attach];
    OneMore([Enter], Attach, s1, s1.(channels := map[0 := Channel(true, 0)], nextChannel := 1, attached := {0}));
  }

  lemma Delivered()
    ensures Run(1, Alone([Enter, Attach] + [Count(0)] + [Push] + [Leave])) == OneReply()
  {
    Subscribed();
    var s2 := Run(1, Alone([Enter, Attach]));
    var s3 := s2.(tasks := [Counted(0, Call)], count := 1);
    OneMore([Enter, Attach], Count(0), s2, s3);
    var s4 := s3.(tasks := [Locked(Call)], channels := map[0 := Channel(true, 1)]);
    OneMore([Enter, Attach] + [Count(0)], Push, s3, s4);
    OneMore([Enter, Attach] + [Count(0)] + [Push], Leave, s4, OneReply());
  }

  /** A request dropped half-way does leave the count above what is there: one reply is sent to it, and
      then what would receive it is dropped. */
  lemma DroppedRequestLeaks()
    ensures var s := Run(1, Alone([Enter, Attach] + [Count(0)] + [Push] + [Leave] + [Abandon(0)]));
      Quiet(s) && s.count == 1 && ChannelLengths(s) + |s.live| == 0
  {
    Delivered();
    var s' := OneReply().(channels := map[0 := Channel(false, 0)], abandoned := 1);
    OneMore([Enter, Attach] + [Count(0)] + [Push] + [Leave], Abandon(0), OneReply(), s');
    assert Waiting(s'.channels, 1) == Waiting(s'.channels, 0) + 0;
  }

  /** So does one that shutdown refuses: its reply address is attached and somebody sends to it, and then
      the transport closes before the request itself is routed, so it leaves without draining. */
  lemma RefusedRequestLeaks()
    ensures var s := Run(1, Alone([Enter, Attach] + [Count(0)] + [Push] + [Leave] + [Shut] + [Abandon(0)]));
      Quiet(s) && s.closed && s.attached == {} && s.count == 1 && ChannelLengths(s) + |s.live| == 0
  {
    Delivered();
    var shut := OneReply().(closed := true, attached := {});
    OneMore([Enter, Attach] + [Count(0)] + [Push] + [Leave], Shut, OneReply(), shut);
    var s' := shut.(channels := map[0 := Channel(false, 0)], abandoned := 1);
    OneMore([Enter, Attach] + [Count(0)] + [Push] + [Leave] + [Shut], Abandon(0), shut, s');
    assert Waiting(s'.channels, 1) == Waiting(s'.channels, 0) + 0;
  }

  lemma {:induction false} EndingCounts(tasks: seq<Pc>, t: nat)
    requires t < |tasks|
    ensures EndingOf(tasks) >= Ending(tasks[t])
  {
    if t < |tasks| - 1 {
      EndingCounts(tasks[..|tasks| - 1], t);
    }
  }

  /** While a returned or dropped delivery is on its way back, at any step of the way, the count is at
      least one: its settlement's own place goes last. */
  lemma BusyWhileGoingBack(tasks: nat, events: seq<Event>, t: nat)
    requires var s := Run(tasks, events); t < |s.tasks| && Ending(s.tasks[t]) == 1
    ensures Run(tasks, events).count >= 1
  {
    RunKeeps(tasks, events);
    EndingCounts(Run(tasks, events).tasks, t);
  }
}
