/** What the calls of a thread come to in a run, whatever the other threads, the consumers and shutdown do
    between its steps; and what a whole run put into the registry, read off its events. */
module TransactionRuns {
  import opened Common
  import opened Router
  import opened Transactions
  import BusHandBack
  import BusWorld

  // -- The signals -------------------------------------------------------------------------------

  /** The registry closes with the first `CloseRouter` after the flag is up. */
  predicate RouterShut(events: seq<Event>) {
    events != [] &&
    var front := events[..|events| - 1];
    RouterShut(front) || (events[|events| - 1].CloseRouter? && SetClosed in front)
  }

  lemma InFrontOrLast(events: seq<Event>, e: Event)
    requires events != []
    ensures e in events <==> e in events[..|events| - 1] || events[|events| - 1] == e
  {
    assert events == events[..|events| - 1] + [events[|events| - 1]];
  }

  lemma RegistryStaysOpen(s: System, e: Event)
    requires !e.CloseRouter?
    ensures Step(s, e).bus.closed == s.bus.closed && Step(s, e).closed == (s.closed || e.SetClosed?)
  {
    match e
    case Consumer(c) => CallLogs(s.bus, c);
    case Do(t, a) => if t < |s.threads| { DoKeepsOpen(s, t, a); }
    case SetClosed =>
  }

  lemma DoKeepsOpen(s: System, t: nat, a: Action)
    requires t < |s.threads|
    ensures DoStep(s, t, a).bus.closed == s.bus.closed && DoStep(s, t, a).closed == s.closed
  {
    if !RoutesNow(s, t, a) {
      SilentDo(s, t, a);
      if a.Go? { GoKeepsFlag(s, t); }
    } else if s.threads[t].Routing? {
      PublishLogs(s.bus, s.threads[t].message, "");
    } else {
      PublishAllLogs(s.bus, s.threads[t].txn.buffer, "");
    }
  }

  lemma GoKeepsFlag(s: System, t: nat)
    requires t < |s.threads|
    ensures GoStep(s, t).closed == s.closed
  {
    match s.threads[t]
    case Idle =>
    case Publishing(_) =>
    case Routing(_) =>
    case Beginning =>
    case Committing(_) =>
    case Discharging(_) =>
    case Opening =>
    case Posting(_, _) =>
  }

  /** In every run the flag is up exactly once shutdown raised it, and the registry closed exactly once
      shutdown closed it with the flag up. */
  lemma {:induction false} ShutExactly(threads: nat, events: seq<Event>)
    ensures var s := Run(threads, events); (s.closed <==> SetClosed in events) && (s.bus.closed <==> RouterShut(events))
  {
    if events != [] {
      var front, last := events[..|events| - 1], events[|events| - 1];
      ShutExactly(threads, front);
      InFrontOrLast(events, SetClosed);
      if !last.CloseRouter? { RegistryStaysOpen(Run(threads, front), last); }
    }
  }

  // -- What reached the registry -----------------------------------------------------------------

  /** The messages that reach the registry in one step. */
  function RoutedBy(s: System, e: Event): seq<Buffered> {
    if e.Do? && e.thread < |s.threads| && e.action.Go? && !s.bus.closed then
      match s.threads[e.thread]
      case Routing(m) => [m]
      case Discharging(txn) => txn.buffer
      case _ => []
    else []
  }

  function Routed(threads: nat, events: seq<Event>): seq<Buffered> {
    if events == [] then []
    else
      var front := events[..|events| - 1];
      Routed(threads, front) + RoutedBy(Run(threads, front), events[|events| - 1])
  }

  lemma StepRoutes(s: System, e: Event, address: string)
    ensures LogOf(Step(s, e).bus, address) == LogOf(s.bus, address) + On(RoutedBy(s, e), address)
  {
    match e
    case Consumer(c) => CallLogs(s.bus, c);
    case Do(t, a) =>
      if t < |s.threads| {
        if !RoutesNow(s, t, a) {
          SilentDo(s, t, a);
        } else if s.threads[t].Routing? {
          var m := s.threads[t].message;
          PublishLogs(s.bus, m, address);
          assert [m][..0] == [] && On([m], address) == On([], address) + if m.0 == address then [Logged(m.1.payload, m.1.headers)] else [];
        } else {
          PublishAllLogs(s.bus, s.threads[t].txn.buffer, address);
        }
      }
    case _ =>
  }

  /** In every run each address's log is exactly what the threads' steps routed to it while the registry was
      open: the message of every publish, and the whole buffer of every discharge, in that order. */
  lemma {:induction false} LogIsWhatWasRouted(threads: nat, events: seq<Event>, address: string)
    ensures LogOf(Run(threads, events).bus, address) == On(Routed(threads, events), address)
  {
    if events != [] {
      var front, last := events[..|events| - 1], events[|events| - 1];
      LogIsWhatWasRouted(threads, front, address);
      StepRoutes(Run(threads, front), last, address);
      OnAppend(Routed(threads, front), RoutedBy(Run(threads, front), last), address);
    }
  }

  lemma StepHistory(s: System, e: Event)
    ensures Flat(Step(s, e).history) == Flat(s.history) + RoutedBy(s, e)
  {
    assert Flat(s.history) + [] == Flat(s.history);
    if e.Do? && e.thread < |s.threads| {
      if !RoutesNow(s, e.thread, e.action) {
        SilentDo(s, e.thread, e.action);
      } else if s.threads[e.thread].Routing? {
        FlatMore(s.history, Direct(s.threads[e.thread].message));
      } else {
        FlatMore(s.history, Commit(s.threads[e.thread].txn));
      }
    }
  }

  /** So the history is no more and no less than that. */
  lemma {:induction false} HistoryIsWhatWasRouted(threads: nat, events: seq<Event>)
    ensures Flat(Run(threads, events).history) == Routed(threads, events)
  {
    if events != [] {
      HistoryIsWhatWasRouted(threads, events[..|events| - 1]);
      StepHistory(Run(threads, events[..|events| - 1]), events[|events| - 1]);
    }
  }

  // -- What was held back ------------------------------------------------------------------------

  /** The message that is buffered under transaction `id` in one step. */
  function HeldBy(s: System, e: Event, id: nat): seq<Buffered> {
    if e.Do? && e.thread < |s.threads| && e.action.Go? then
      match s.threads[e.thread]
      case Publishing(m) => if s.slot.Some? && s.slot.value.id == id then [m] else []
      case Posting(txn, m) => if txn.id == id then [m] else []
      case _ => []
    else []
  }

  /** Everything buffered under it in a run, in order. */
  function Held(threads: nat, events: seq<Event>, id: nat): seq<Buffered> {
    if events == [] then []
    else
      var front := events[..|events| - 1];
      Held(threads, front, id) + HeldBy(Run(threads, front), events[|events| - 1], id)
  }

  /** The step discharges transaction `id` into the open registry. */
  predicate Discharges(s: System, e: Event, id: nat) {
    && e.Do? && e.thread < |s.threads| && e.action.Go? && !s.bus.closed
    && s.threads[e.thread].Discharging? && s.threads[e.thread].txn.id == id
  }

  predicate Discharged(threads: nat, events: seq<Event>, id: nat) {
    events != [] &&
    var front := events[..|events| - 1];
    Discharged(threads, front, id) || Discharges(Run(threads, front), events[|events| - 1], id)
  }

  /** What the history says of a transaction is what happened. */
  predicate Told(s: System, held: seq<Buffered>, discharged: bool, id: nat) {
    && (id in s.posted <==> id < s.nextTxn) && (id in s.place <==> id < s.nextTxn)
    && Get(s.posted, id, []) == held
    && (id in s.place && s.place[id] == Committed <==> discharged)
  }

  lemma PublishTells(s: System, s': System, t: nat, held: seq<Buffered>, discharged: bool, id: nat)
    requires Inv(s) && t < |s.threads| && s.threads[t].Publishing? && Told(s, held, discharged, id) && s' == GoStep(s, t)
    ensures Told(s', held + HeldBy(s, Do(t, Go), id), discharged, id)
  {
    assert held + [] == held;
    if s.slot.Some? { assert IsAt(s, s.slot.value, Slot); }
  }

  lemma PostTells(s: System, s': System, t: nat, held: seq<Buffered>, discharged: bool, id: nat)
    requires Inv(s) && t < |s.threads| && s.threads[t].Posting? && Told(s, held, discharged, id) && s' == GoStep(s, t)
    ensures Told(s', held + HeldBy(s, Do(t, Go), id), discharged, id)
  {
    assert held + [] == held;
    assert IsAt(s, s.threads[t].txn, InHands(t));
  }

  lemma CommitTells(s: System, s': System, t: nat, held: seq<Buffered>, discharged: bool, id: nat)
    requires Inv(s) && t < |s.threads| && (s.threads[t].Committing? || s.threads[t].Discharging?)
    requires Told(s, held, discharged, id) && s' == GoStep(s, t)
    ensures Told(s', held, discharged || Discharges(s, Do(t, Go), id), id)
  {
    assert IsAt(s, s.threads[t].txn, InHands(t));
  }

  lemma OpenTells(s: System, s': System, t: nat, held: seq<Buffered>, discharged: bool, id: nat)
    requires t < |s.threads| && (s.threads[t].Beginning? || s.threads[t].Opening?)
    requires Told(s, held, discharged, id) && s' == GoStep(s, t)
    ensures Told(s', held, discharged, id)
  {
  }

  lemma RouteTells(s: System, s': System, t: nat, held: seq<Buffered>, discharged: bool, id: nat)
    requires t < |s.threads| && (s.threads[t].Routing? || s.threads[t].Idle?)
    requires Told(s, held, discharged, id) && s' == GoStep(s, t)
    ensures Told(s', held, discharged, id)
  {
  }

  lemma GoTells(s: System, s': System, t: nat, held: seq<Buffered>, discharged: bool, id: nat)
    requires Inv(s) && t < |s.threads| && Told(s, held, discharged, id) && s' == GoStep(s, t)
    ensures Told(s', held + HeldBy(s, Do(t, Go), id), discharged || Discharges(s, Do(t, Go), id), id)
  {
    assert held + [] == held;
    match s.threads[t]
    case Publishing(_) => PublishTells(s, s', t, held, discharged, id);
    case Posting(_, _) => PostTells(s, s', t, held, discharged, id);
    case Committing(_) => CommitTells(s, s', t, held, discharged, id);
    case Discharging(_) => CommitTells(s, s', t, held, discharged, id);
    case Beginning => OpenTells(s, s', t, held, discharged, id);
    case Opening => OpenTells(s, s', t, held, discharged, id);
    case _ => RouteTells(s, s', t, held, discharged, id);
  }

  lemma DoTells(s: System, s': System, t: nat, a: Action, held: seq<Buffered>, discharged: bool, id: nat)
    requires Inv(s) && t < |s.threads| && !a.Go? && Told(s, held, discharged, id) && s' == DoStep(s, t, a)
    ensures Told(s', held, discharged, id)
  {
    match a
    case TakeForCommit => if s.slot.Some? { assert IsAt(s, s.slot.value, Slot); }
    case Abort => if s.slot.Some? { assert IsAt(s, s.slot.value, Slot); }
    case _ =>
  }

  lemma StepTells(s: System, e: Event, held: seq<Buffered>, discharged: bool, id: nat)
    requires Inv(s) && Told(s, held, discharged, id)
    ensures Told(Step(s, e), held + HeldBy(s, e, id), discharged || Discharges(s, e, id), id)
  {
    assert held + [] == held;
    if e.Do? && e.thread < |s.threads| {
      if e.action.Go? {
        GoTells(s, Step(s, e), e.thread, held, discharged, id);
      } else {
        DoTells(s, Step(s, e), e.thread, e.action, held, discharged, id);
      }
    }
  }

  lemma {:induction false} RunTells(threads: nat, events: seq<Event>, id: nat)
    ensures Told(Run(threads, events), Held(threads, events, id), Discharged(threads, events, id), id)
  {
    if events != [] {
      var front, last := events[..|events| - 1], events[|events| - 1];
      RunTells(threads, front, id);
      RunKeeps(threads, front);
      StepTells(Run(threads, front), last, Held(threads, front, id), Discharged(threads, front, id), id);
    }
  }

  /** In every run a transaction's commit entered the registry once if a step discharged it while the
      registry was open, and never otherwise, with exactly what the steps before had buffered under it. */
  lemma {:induction false} CommittedAsHeld(threads: nat, events: seq<Event>, id: nat)
    ensures var s := Run(threads, events);
      && Commits(s.history, id) == (if Discharged(threads, events, id) then 1 else 0)
      && (forall i :: 0 <= i < |s.history| && s.history[i].Commit? && s.history[i].txn.id == id ==>
            s.history[i].txn.buffer == Held(threads, events, id))
  {
    RunTells(threads, events, id);
    CommitsOnceAndWhole(threads, events, id);
  }

  // -- One call, with anything in between its steps ----------------------------------------------

  function RunFrom(s: System, events: seq<Event>): System {
    if events == [] then s else Step(RunFrom(s, events[..|events| - 1]), events[|events| - 1])
  }

  /** Thread `t` does nothing; the others do as they like. */
  predicate Others(events: seq<Event>, t: nat) {
    forall i :: 0 <= i < |events| ==> !(events[i].Do? && events[i].thread == t)
  }

  lemma OtherStays(s: System, e: Event, t: nat)
    requires t < |s.threads| && !(e.Do? && e.thread == t)
    ensures |Step(s, e).threads| == |s.threads| && Step(s, e).threads[t] == s.threads[t]
  {
    if e.Do? && e.thread < |s.threads| && e.action.Go? {
      GoMovesOne(s, e.thread, t);
    }
  }

  lemma PublishingMovesOne(s: System, u: nat)
    requires u < |s.threads| && (s.threads[u].Publishing? || s.threads[u].Routing? || s.threads[u].Idle?)
    ensures |GoStep(s, u).threads| == |s.threads| && forall t: nat :: t < |s.threads| && t != u ==> GoStep(s, u).threads[t] == s.threads[t]
  {
  }

  lemma OpeningMovesOne(s: System, u: nat)
    requires u < |s.threads| && (s.threads[u].Beginning? || s.threads[u].Opening? || s.threads[u].Posting?)
    ensures GoStep(s, u).threads == s.threads[u := Idle]
  {
  }

  lemma CommittingMovesOne(s: System, u: nat)
    requires u < |s.threads| && (s.threads[u].Committing? || s.threads[u].Discharging?)
    ensures |GoStep(s, u).threads| == |s.threads| && forall t: nat :: t < |s.threads| && t != u ==> GoStep(s, u).threads[t] == s.threads[t]
  {
  }

  lemma GoMovesOne(s: System, u: nat, t: nat)
    requires u < |s.threads| && t < |s.threads| && u != t
    ensures |GoStep(s, u).threads| == |s.threads| && GoStep(s, u).threads[t] == s.threads[t]
  {
    match s.threads[u]
    case Committing(_) => CommittingMovesOne(s, u);
    case Discharging(_) => CommittingMovesOne(s, u);
    case Beginning => OpeningMovesOne(s, u);
    case Opening => OpeningMovesOne(s, u);
    case Posting(_, _) => OpeningMovesOne(s, u);
    case _ => PublishingMovesOne(s, u);
  }

  lemma {:induction false} StaysPut(s: System, between: seq<Event>, t: nat)
    requires t < |s.threads| && Others(between, t)
    ensures |RunFrom(s, between).threads| == |s.threads| && RunFrom(s, between).threads[t] == s.threads[t]
  {
    if between != [] {
      var front := between[..|between| - 1];
      assert forall i :: 0 <= i < |front| ==> front[i] == between[i];
      StaysPut(s, front, t);
      OtherStays(RunFrom(s, front), between[|between| - 1], t);
    }
  }

  /** The registry's entry for one message. */
  function Entered(post: Post, address: string): seq<Logged>
    requires post.framed.Some?
  {
    if post.address == address then [Logged(post.framed.value.payload, post.framed.value.headers)] else []
  }

  /** What a publish is checked for: a live connection, an address, and headers a message can carry. */
  predicate Sends(s: System, post: Post) {
    !s.closed && post.address != "" && post.framed.Some?
  }

  /** A direct publish: it is in the log of its address, and in no other, exactly if it passed its checks
      and the registry was still open when it was routed. */
  lemma DirectPublishArrives(s: System, t: nat, post: Post, between: seq<Event>, address: string)
    requires t < |s.threads| && s.threads[t].Idle? && Others(between, t)
    ensures var s1 := RunFrom(Step(s, Do(t, StartDirect(post))), between);
      var s2 := Step(s1, Do(t, Go));
      && t < |s2.threads| && s2.threads[t].Idle? && s2.slot == s1.slot
      && LogOf(s2.bus, address) == LogOf(s1.bus, address) + if Sends(s, post) && !s1.bus.closed then Entered(post, address) else []
  {
    var started := Step(s, Do(t, StartDirect(post)));
    StaysPut(started, between, t);
    var s1 := RunFrom(started, between);
    if Sends(s, post) {
      assert s1.threads[t] == Routing((post.address, post.framed.value));
      PublishLogs(s1.bus, (post.address, post.framed.value), address);
    }
  }

  /** A publish on the shared handle is held back, at the end of the open transaction and nowhere else, if
      one is open when it looks. */
  lemma HandlePublishIsHeld(s: System, t: nat, post: Post, between: seq<Event>)
    requires t < |s.threads| && s.threads[t].Idle? && Others(between, t)
    requires RunFrom(Step(s, Do(t, StartPublish(post))), between).slot.Some?
    ensures var s1 := RunFrom(Step(s, Do(t, StartPublish(post))), between);
      var s2, open := Step(s1, Do(t, Go)), s1.slot.value;
      && t < |s2.threads| && s2.threads[t].Idle? && s2.bus == s1.bus
      && s2.slot == Some(if Sends(s, post) then Txn(open.id, open.buffer + [(post.address, post.framed.value)]) else open)
  {
    var started := Step(s, Do(t, StartPublish(post)));
    StaysPut(started, between, t);
    if Sends(s, post) {
      assert RunFrom(started, between).threads[t] == Publishing((post.address, post.framed.value));
    }
  }

  /** With none open it is routed like a direct one. */
  lemma HandlePublishIsRouted(s: System, t: nat, post: Post, between: seq<Event>, later: seq<Event>, address: string)
    requires t < |s.threads| && s.threads[t].Idle? && Sends(s, post) && Others(between, t) && Others(later, t)
    requires RunFrom(Step(s, Do(t, StartPublish(post))), between).slot.None?
    ensures var s1 := RunFrom(Step(s, Do(t, StartPublish(post))), between);
      var s2 := RunFrom(Step(s1, Do(t, Go)), later);
      var s3 := Step(s2, Do(t, Go));
      && Step(s1, Do(t, Go)).bus == s1.bus && t < |s3.threads| && s3.threads[t].Idle? && s3.slot == s2.slot
      && LogOf(s3.bus, address) == LogOf(s2.bus, address) + if !s2.bus.closed then Entered(post, address) else []
  {
    var started := Step(s, Do(t, StartPublish(post)));
    StaysPut(started, between, t);
    var s1 := RunFrom(started, between);
    var m := (post.address, post.framed.value);
    assert s1.threads[t] == Publishing(m);
    var looked := Step(s1, Do(t, Go));
    assert looked == s1.(threads := s1.threads[t := Routing(m)]);
    StaysPut(looked, later, t);
    PublishLogs(RunFrom(looked, later).bus, m, address);
  }

  /** Beginning opens a new, empty transaction on the handle, and leaves one that is open as it is. */
  lemma BeginOpensOne(s: System, t: nat, between: seq<Event>)
    requires t < |s.threads| && s.threads[t].Idle? && Others(between, t)
    ensures var s1 := RunFrom(Step(s, Do(t, StartBegin)), between);
      var s2 := Step(s1, Do(t, Go));
      && t < |s2.threads| && s2.threads[t].Idle? && s2.bus == s1.bus && s2.owned == s1.owned
      && s2.slot == if s.closed || s1.slot.Some? then s1.slot else Some(Txn(s1.nextTxn, []))
  {
    StaysPut(Step(s, Do(t, StartBegin)), between, t);
  }

  /** Committing takes the transaction off the handle at once, and puts its whole buffer into the logs, if
      neither the flag is up when it looks nor the registry closed when it discharges. */
  lemma CommitLandsWhole(s: System, t: nat, between: seq<Event>, later: seq<Event>, address: string)
    requires t < |s.threads| && s.threads[t].Idle? && s.slot.Some? && Others(between, t) && Others(later, t)
    ensures var taken := Step(s, Do(t, TakeForCommit));
      var s1 := RunFrom(taken, between);
      var s2 := RunFrom(Step(s1, Do(t, Go)), later);
      var s3 := Step(s2, Do(t, Go));
      && taken.slot == None && taken.bus == s.bus && Step(s1, Do(t, Go)).bus == s1.bus
      && t < |s3.threads| && s3.threads[t].Idle?
      && LogOf(s3.bus, address) == LogOf(s2.bus, address) + if !s1.closed && !s2.bus.closed then On(s.slot.value.buffer, address) else []
  {
    var taken := Step(s, Do(t, TakeForCommit));
    StaysPut(taken, between, t);
    CommitDischarges(RunFrom(taken, between), t, s.slot.value, later, address);
  }

  /** From the check for shutdown on, an owned transaction's commit goes the same way. */
  lemma CommitDischarges(s: System, t: nat, txn: Txn, later: seq<Event>, address: string)
    requires t < |s.threads| && s.threads[t] == Committing(txn) && Others(later, t)
    ensures var s2 := RunFrom(Step(s, Do(t, Go)), later);
      var s3 := Step(s2, Do(t, Go));
      && Step(s, Do(t, Go)).bus == s.bus && t < |s3.threads| && s3.threads[t].Idle?
      && LogOf(s3.bus, address) == LogOf(s2.bus, address) + if !s.closed && !s2.bus.closed then On(txn.buffer, address) else []
  {
    var looked := Step(s, Do(t, Go));
    StaysPut(looked, later, t);
    var s2 := RunFrom(looked, later);
    if !s.closed {
      assert s2.threads[t] == Discharging(txn);
      PublishAllLogs(s2.bus, txn.buffer, address);
    }
  }

  lemma OwnedCommitLandsWhole(s: System, t: nat, id: nat, between: seq<Event>, later: seq<Event>, address: string)
    requires t < |s.threads| && s.threads[t].Idle? && id in s.owned && Others(between, t) && Others(later, t)
    ensures var taken := Step(s, Do(t, StartOwnedCommit(id)));
      var s1 := RunFrom(taken, between);
      var s2 := RunFrom(Step(s1, Do(t, Go)), later);
      var s3 := Step(s2, Do(t, Go));
      && taken.owned == s.owned - {id} && taken.bus == s.bus && taken.slot == s.slot
      && t < |s3.threads| && s3.threads[t].Idle?
      && LogOf(s3.bus, address) == LogOf(s2.bus, address) + if !s1.closed && !s2.bus.closed then On(s.owned[id].buffer, address) else []
  {
    var taken := Step(s, Do(t, StartOwnedCommit(id)));
    StaysPut(taken, between, t);
    CommitDischarges(RunFrom(taken, between), t, s.owned[id], later, address);
  }

  /** Aborting or dropping empties the place of the transaction and routes nothing. */
  lemma AbortEmpties(s: System, t: nat, id: nat)
    requires t < |s.threads| && s.threads[t].Idle?
    ensures var s' := Step(s, Do(t, Abort)); s'.slot == None && s'.bus == s.bus && s'.owned == s.owned && s'.threads == s.threads
    ensures var s' := Step(s, Do(t, DropOwned(id)));
      s'.owned == s.owned - {id} && s'.bus == s.bus && s'.slot == s.slot && s'.threads == s.threads
  {
    if id !in s.owned { assert s.owned - {id} == s.owned; }
  }

  /** An owned transaction opens empty, with a number of its own, beside every other. */
  lemma OpenOwnedOpensOne(s: System, t: nat, between: seq<Event>)
    requires t < |s.threads| && s.threads[t].Idle? && Others(between, t)
    ensures var s1 := RunFrom(Step(s, Do(t, StartOpen)), between);
      var s2 := Step(s1, Do(t, Go));
      && t < |s2.threads| && s2.threads[t].Idle? && s2.bus == s1.bus && s2.slot == s1.slot
      && s2.owned == if s.closed then s1.owned else s1.owned[s1.nextTxn := Txn(s1.nextTxn, [])]
  {
    StaysPut(Step(s, Do(t, StartOpen)), between, t);
  }

  lemma PostingHolds(s: System, t: nat, txn: Txn, m: Buffered)
    requires t < |s.threads| && s.threads[t] == Posting(txn, m)
    ensures var s' := GoStep(s, t);
      && |s'.threads| == |s.threads| && s'.threads[t].Idle? && s'.bus == s.bus && s'.slot == s.slot
      && s'.owned == s.owned[txn.id := Txn(txn.id, txn.buffer + [m])]
  {
  }

  /** A post on it is held back at the end of its own buffer. */
  lemma OwnedPostIsHeld(s: System, t: nat, id: nat, post: Post, between: seq<Event>)
    requires Inv(s) && t < |s.threads| && s.threads[t].Idle? && id in s.owned && Others(between, t)
    ensures var s1 := RunFrom(Step(s, Do(t, StartPost(id, post))), between);
      var s2 := Step(s1, Do(t, Go));
      && t < |s2.threads| && s2.threads[t].Idle? && s2.bus == s1.bus && s2.slot == s1.slot
      && s2.owned == if Sends(s, post) then s1.owned[id := Txn(id, s.owned[id].buffer + [(post.address, post.framed.value)])] else s1.owned
  {
    var started := Step(s, Do(t, StartPost(id, post)));
    StaysPut(started, between, t);
    if Sends(s, post) {
      PostingHolds(RunFrom(started, between), t, s.owned[id], (post.address, post.framed.value));
    }
  }

  // -- The consumers -----------------------------------------------------------------------------

  /** What consumers do meanwhile to the registry is what they do to it in the broker's own runs. */
  lemma ConsumersAreTheBrokers(s: System, w: BusWorld.World, address: string, routing: Routing, atMostOnce: bool, h: nat)
    requires s.bus == w.bus
    ensures Step(s, Consumer(Subscribe(address, routing))).bus ==
      BusWorld.Step(w, BusWorld.Event.Subscribe(address, routing, atMostOnce)).bus
    ensures h in w.hands ==>
      var hand := w.hands[h];
      && Step(s, Consumer(Release(hand.id, hand.address, hand.delivery))).bus == BusWorld.Step(w, BusWorld.DropHand(h)).bus
      && (!w.bus.closed ==>
            Step(s, Consumer(Requeue(hand.id, hand.address, BusWorld.Bump(hand.delivery)))).bus ==
            BusWorld.Step(w, BusWorld.Event.Settle(h, BusWorld.Modify)).bus)
  {
  }

  /** Nor is a detach any different: the link takes its channel with it and hands back what it held. */
  lemma DetachesAreTheBrokers(s: System, w: BusWorld.World, id: nat)
    requires id in w.links && s.bus == w.bus.(channels := w.bus.channels - {id})
    ensures Step(s, Consumer(Unsubscribe(id, BusHandBack.Pending(w, id)))).bus == BusWorld.Step(w, BusWorld.Event.Detach(id)).bus
  {
  }
}
