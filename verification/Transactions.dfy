/** The in-process transactions: threads share one transactional publisher, hold owned transactions of
    their own, publish directly, and race one shutdown, a step at a time. */
module Transactions {
  import opened Common
  import opened Router

  type Buffered = (string, Delivery)

  /** A transaction with what it holds back. */
  datatype Txn = Txn(id: nat, buffer: seq<Buffered>)

  /** What a thread is in the middle of. A transaction a thread has taken is in its hands alone. */
  datatype Pc =
    | Idle
    | Publishing(message: Buffered)         // on the shared handle: live, about to look for an open transaction
    | Routing(message: Buffered)            // about to route one message
    | Beginning                             // live, about to open the slot
    | Committing(txn: Txn)                  // took the transaction, about to check for shutdown
    | Discharging(txn: Txn)                 // live, about to route the whole buffer
    | Opening                               // live, about to open an owned transaction
    | Posting(txn: Txn, message: Buffered)  // an owned publish that is live, about to buffer

  /** Where a transaction is. No code reads it. */
  datatype Where = Slot | Owned | InHands(thread: nat) | Committed | Discarded

  /** What reached the registry, in order. */
  datatype Entry = Direct(message: Buffered) | Commit(txn: Txn)

  /** `posted`, `place` and `history` are history: what was buffered under each transaction, where it
      is now, and what reached the registry. */
  datatype System = System(
    bus: Router.State,
    closed: bool,
    slot: Option<Txn>,
    owned: map<nat, Txn>,
    threads: seq<Pc>,
    nextTxn: nat,
    posted: map<nat, seq<Buffered>>,
    place: map<nat, Where>,
    history: seq<Entry>)

  /** A publish: `framed` is absent when a header cannot be carried. */
  datatype Post = Post(address: string, framed: Option<Delivery>)

  datatype Action =
    | StartPublish(post: Post)            // on the shared transactional handle
    | StartDirect(post: Post)             // on a plain publisher
    | StartBegin
    | TakeForCommit
    | Abort
    | StartOpen
    | StartPost(txn: nat, post: Post)     // on an owned transaction
    | StartOwnedCommit(txn: nat)
    | DropOwned(txn: nat)                 // an abort or a plain drop
    | Go                                  // the next step of what the thread is in

  datatype Call =
    | Subscribe(address: string, routing: Routing)
    | Unsubscribe(id: nat, pending: seq<Delivery>)
    | Release(id: nat, address: string, delivery: Delivery)
    | Requeue(id: nat, address: string, delivery: Delivery)

  datatype Event =
    | Do(thread: nat, action: Action)
    | Consumer(call: Call)    // subscriptions come and go and settle meanwhile
    | SetClosed               // shutdown, first half
    | CloseRouter             // and second half

  function Start(threads: nat): System {
    System(Fresh(), false, None, map[], seq(threads, i => Idle), 0, map[], map[], [])
  }

  predicate Sendable(p: Post) {
    p.address != "" && p.framed.Some?
  }

  function MessageOf(p: Post): Buffered
    requires Sendable(p)
  {
    (p.address, p.framed.value)
  }

  function At(s: System, t: nat, pc: Pc): System
    requires t < |s.threads|
  {
    s.(threads := s.threads[t := pc])
  }

  /** A new, empty transaction. */
  function Opened(s: System, where: Where): System {
    s.(nextTxn := s.nextTxn + 1, posted := s.posted[s.nextTxn := []], place := s.place[s.nextTxn := where])
  }

  function Moved(s: System, id: nat, where: Where): System {
    s.(place := s.place[id := where])
  }

  function Pushed(txn: Txn, m: Buffered): Txn {
    txn.(buffer := txn.buffer + [m])
  }

  function Noted(s: System, id: nat, m: Buffered): System {
    s.(posted := s.posted[id := Get(s.posted, id, []) + [m]])
  }

  function Route(s: System, m: Buffered): System {
    if s.bus.closed then s else s.(bus := PublishOne(s.bus, m.0, m.1), history := s.history + [Direct(m)])
  }

  function RouteAll(s: System, txn: Txn): System {
    if s.bus.closed then Moved(s, txn.id, Discarded)
    else Moved(s, txn.id, Committed).(bus := PublishAll(s.bus, txn.buffer), history := s.history + [Commit(txn)])
  }

  /** The next step of what thread `t` is in. */
  function GoStep(s: System, t: nat): System
    requires t < |s.threads|
  {
    match s.threads[t]
    case Idle => s
    case Publishing(m) =>
      if s.slot.Some? then At(Noted(s, s.slot.value.id, m).(slot := Some(Pushed(s.slot.value, m))), t, Idle)
      else At(s, t, Routing(m))
    case Routing(m) => At(Route(s, m), t, Idle)
    case Beginning => At(if s.slot.Some? then s else Opened(s, Slot).(slot := Some(Txn(s.nextTxn, []))), t, Idle)
    case Committing(txn) => if s.closed then At(Moved(s, txn.id, Discarded), t, Idle) else At(s, t, Discharging(txn))
    case Discharging(txn) => At(RouteAll(s, txn), t, Idle)
    case Opening => At(Opened(s, Owned).(owned := s.owned[s.nextTxn := Txn(s.nextTxn, [])]), t, Idle)
    case Posting(txn, m) => At(Moved(Noted(s, txn.id, m), txn.id, Owned).(owned := s.owned[txn.id := Pushed(txn, m)]), t, Idle)
  }

  function DoStep(s: System, t: nat, a: Action): System
    requires t < |s.threads|
  {
    if a.Go? then GoStep(s, t)
    else if !s.threads[t].Idle? then s
    else
      match a
      case StartPublish(p) => if s.closed || !Sendable(p) then s else At(s, t, Publishing(MessageOf(p)))
      case StartDirect(p) => if s.closed || !Sendable(p) then s else At(s, t, Routing(MessageOf(p)))
      case StartBegin => if s.closed then s else At(s, t, Beginning)
      case TakeForCommit =>
        if s.slot.None? then s
        else At(Moved(s, s.slot.value.id, InHands(t)).(slot := None), t, Committing(s.slot.value))
      case Abort => if s.slot.None? then s else Moved(s, s.slot.value.id, Discarded).(slot := None)
      case StartOpen => if s.closed then s else At(s, t, Opening)
      case StartPost(id, p) =>
        if s.closed || !Sendable(p) || id !in s.owned then s
        else At(Moved(s, id, InHands(t)).(owned := s.owned - {id}), t, Posting(s.owned[id], MessageOf(p)))
      case StartOwnedCommit(id) =>
        if id !in s.owned then s
        else At(Moved(s, id, InHands(t)).(owned := s.owned - {id}), t, Committing(s.owned[id]))
      case DropOwned(id) => if id !in s.owned then s else Moved(s, id, Discarded).(owned := s.owned - {id})
      case Go => s
  }

  function CallStep(s: Router.State, c: Call): Router.State {
    match c
    case Subscribe(address, routing) => Router.Subscribe(s, address, routing)
    case Unsubscribe(id, pending) => Router.Unsubscribe(s, id, pending)
    case Release(id, address, d) => Router.Release(s, id, address, d)
    case Requeue(id, address, d) => Router.Requeue(s, id, address, d)
  }

  function Step(s: System, e: Event): System {
    match e
    case Do(t, a) => if t < |s.threads| then DoStep(s, t, a) else s
    case Consumer(c) => s.(bus := CallStep(s.bus, c))
    case SetClosed => s.(closed := true)
    case CloseRouter => if s.closed then s.(bus := Router.Close(s.bus)) else s
  }

  function Run(threads: nat, events: seq<Event>): System {
    if events == [] then Start(threads) else Step(Run(threads, events[..|events| - 1]), events[|events| - 1])
  }

  // -- The logs ----------------------------------------------------------------------------------

  function Messages(e: Entry): seq<Buffered> {
    match e
    case Direct(m) => [m]
    case Commit(txn) => txn.buffer
  }

  /** Everything that reached the registry, message by message, in order. */
  function Flat(history: seq<Entry>): seq<Buffered> {
    if history == [] then [] else Flat(history[..|history| - 1]) + Messages(history[|history| - 1])
  }

  /** The messages to one address, as the registry logs them. */
  function On(messages: seq<Buffered>, address: string): seq<Logged> {
    if messages == [] then []
    else On(messages[..|messages| - 1], address) +
         var m := messages[|messages| - 1]; if m.0 == address then [Logged(m.1.payload, m.1.headers)] else []
  }

  function LogOf(s: Router.State, address: string): seq<Logged> {
    Get(s.log, address, [])
  }

  lemma {:induction false} OfferLogs(s: Router.State, address: string, d: Delivery, ids: seq<nat>, first: nat, offset: nat)
    requires ids != [] && offset <= |ids|
    ensures Offer(s, address, d, ids, first, offset).log == s.log && Offer(s, address, d, ids, first, offset).closed == s.closed
    decreases |ids| - offset
  {
    if offset < |ids| && !Takes(s, ids[Place(first, offset, |ids|)]) {
      OfferLogs(s, address, d, ids, first, offset + 1);
    }
  }

  lemma HandOverLogs(s: Router.State, address: string, d: Delivery)
    ensures HandToOne(s, address, d).log == s.log && HandToOne(s, address, d).closed == s.closed
  {
    var ids := Competing(s, address, s.nextId);
    if ids != [] {
      var first := Get(s.turn, address, 0);
      OfferLogs(s.(turn := s.turn[address := (first + 1) % WRAP]), address, d, ids, first, 0);
    }
  }

  lemma {:induction false} HandAllLogs(s: Router.State, address: string, ds: seq<Delivery>)
    ensures HandAll(s, address, ds).log == s.log && HandAll(s, address, ds).closed == s.closed
  {
    if ds != [] {
      HandAllLogs(s, address, ds[..|ds| - 1]);
      HandOverLogs(HandAll(s, address, ds[..|ds| - 1]), address, ds[|ds| - 1]);
    }
  }

  lemma PublishLogs(s: Router.State, m: Buffered, address: string)
    ensures LogOf(PublishOne(s, m.0, m.1), address) ==
      LogOf(s, address) + if m.0 == address then [Logged(m.1.payload, m.1.headers)] else []
    ensures PublishOne(s, m.0, m.1).closed == s.closed
  {
    HandOverLogs(Copy(Note(s, m.0, m.1), m.0, m.1), m.0, m.1);
  }

  lemma {:induction false} PublishAllLogs(s: Router.State, messages: seq<Buffered>, address: string)
    ensures LogOf(PublishAll(s, messages), address) == LogOf(s, address) + On(messages, address)
    ensures PublishAll(s, messages).closed == s.closed
  {
    if messages != [] {
      var front := messages[..|messages| - 1];
      PublishAllLogs(s, front, address);
      PublishLogs(PublishAll(s, front), messages[|messages| - 1], address);
    }
  }

  lemma CallLogs(s: Router.State, c: Call)
    ensures CallStep(s, c).log == s.log && CallStep(s, c).closed == s.closed
  {
    match c
    case Subscribe(_, _) =>
    case Unsubscribe(id, pending) =>
      if id in s.subs {
        var s1 := s.(subs := s.subs - {id}, outstanding := s.outstanding - {id});
        HandAllLogs(s1, s.subs[id].address, Get(s.outstanding, id, []) + pending);
      }
    case Release(_, address, d) => HandOverLogs(s, address, d);
    case Requeue(_, address, d) => HandOverLogs(s, address, d);
  }

  lemma {:induction false} OnAppend(a: seq<Buffered>, b: seq<Buffered>, address: string)
    ensures On(a + b, address) == On(a, address) + On(b, address)
  {
    if b == [] {
      assert a + b == a;
    } else {
      assert (a + b)[..|a + b| - 1] == a + b[..|b| - 1];
      OnAppend(a, b[..|b| - 1], address);
    }
  }

  lemma FlatMore(history: seq<Entry>, e: Entry)
    ensures Flat(history + [e]) == Flat(history) + Messages(e)
  {
    assert (history + [e])[..|history|] == history;
  }

  predicate Logs(s: System, address: string) {
    LogOf(s.bus, address) == On(Flat(s.history), address)
  }

  lemma RouteLogs(s: System, m: Buffered, address: string)
    requires Logs(s, address)
    ensures Logs(Route(s, m), address)
  {
    PublishLogs(s.bus, m, address);
    FlatMore(s.history, Direct(m));
    OnAppend(Flat(s.history), [m], address);
  }

  lemma RouteAllLogs(s: System, txn: Txn, address: string)
    requires Logs(s, address)
    ensures Logs(RouteAll(s, txn), address)
  {
    PublishAllLogs(s.bus, txn.buffer, address);
    FlatMore(s.history, Commit(txn));
    OnAppend(Flat(s.history), txn.buffer, address);
  }

  /** A step that routes nothing leaves the registry's log and the history alone. */
  predicate Silent(s: System, s': System) {
    s'.history == s.history && s'.bus.log == s.bus.log
  }

  predicate RoutesNow(s: System, t: nat, a: Action)
    requires t < |s.threads|
  {
    a.Go? && (s.threads[t].Routing? || s.threads[t].Discharging?)
  }

  lemma SilentGo(s: System, t: nat)
    requires t < |s.threads| && !RoutesNow(s, t, Go)
    ensures Silent(s, GoStep(s, t)) && GoStep(s, t).bus == s.bus
  {
  }

  lemma SilentDo(s: System, t: nat, a: Action)
    requires t < |s.threads| && !RoutesNow(s, t, a)
    ensures Silent(s, DoStep(s, t, a)) && DoStep(s, t, a).bus == s.bus
  {
    if a.Go? {
      SilentGo(s, t);
    }
  }

  lemma StepLogs(s: System, e: Event, address: string)
    requires Logs(s, address)
    ensures Logs(Step(s, e), address)
  {
    match e
    case Do(t, a) =>
      if t < |s.threads| {
        if !RoutesNow(s, t, a) {
          SilentDo(s, t, a);
        } else if s.threads[t].Routing? {
          RouteLogs(s, s.threads[t].message, address);
        } else {
          RouteAllLogs(s, s.threads[t].txn, address);
        }
      }
    case Consumer(c) => CallLogs(s.bus, c);
    case _ =>
  }

  /** In every run each address's log is exactly the direct publishes and the committed buffers, in the
      order they reached the registry. */
  lemma {:induction false} LogIsHistory(threads: nat, events: seq<Event>, address: string)
    ensures LogOf(Run(threads, events).bus, address) == On(Flat(Run(threads, events).history), address)
  {
    if events != [] {
      LogIsHistory(threads, events[..|events| - 1], address);
      StepLogs(Run(threads, events[..|events| - 1]), events[|events| - 1], address);
    }
  }

  // -- Where transactions are --------------------------------------------------------------------

  function Carried(pc: Pc): Option<Txn> {
    if pc.Committing? || pc.Discharging? || pc.Posting? then Some(pc.txn) else None
  }

  /** The transaction is there, and holds back exactly what was buffered under it. */
  predicate IsAt(s: System, txn: Txn, where: Where) {
    txn.id in s.place && s.place[txn.id] == where && txn.id in s.posted && s.posted[txn.id] == txn.buffer
  }

  predicate Threads(s: System) {
    forall t :: 0 <= t < |s.threads| && Carried(s.threads[t]).Some? ==> IsAt(s, Carried(s.threads[t]).value, InHands(t))
  }

  predicate Slots(s: System) {
    && (s.slot.Some? ==> IsAt(s, s.slot.value, Slot))
    && (forall id :: id in s.owned ==> s.owned[id].id == id && IsAt(s, s.owned[id], Owned))
    && (forall id :: id in s.place ==> id < s.nextTxn)
  }

  /** The committed transactions are those in the history, each there once and whole. */
  predicate Entries(s: System) {
    && (forall i :: 0 <= i < |s.history| && s.history[i].Commit? ==> IsAt(s, s.history[i].txn, Committed))
    && (forall i, j :: 0 <= i < j < |s.history| && s.history[i].Commit? && s.history[j].Commit? ==>
          s.history[i].txn.id != s.history[j].txn.id)
    && (forall id :: id in s.place && s.place[id] == Committed ==> InHistory(s, id))
  }

  predicate InHistory(s: System, id: nat) {
    exists i :: 0 <= i < |s.history| && s.history[i].Commit? && s.history[i].txn.id == id
  }

  predicate Inv(s: System) {
    Threads(s) && Slots(s) && Entries(s)
  }

  /** A step may change where one transaction is and what is buffered under it; the rest stay. */
  predicate OnlyTouches(s: System, s': System, id: nat) {
    && (forall k :: k in s.place && k != id ==> k in s'.place && s'.place[k] == s.place[k])
    && (forall k :: k in s.posted && k != id ==> k in s'.posted && s'.posted[k] == s.posted[k])
    && (forall k :: k in s'.place && k != id ==> k in s.place)
  }

  lemma EntriesStay(s: System, s': System, id: nat)
    requires Entries(s) && OnlyTouches(s, s', id) && s'.history == s.history
    requires id in s.place ==> s.place[id] != Committed
    requires id in s'.place ==> s'.place[id] != Committed
    ensures Entries(s')
  {
    forall k | k in s'.place && s'.place[k] == Committed ensures InHistory(s', k) {
      assert InHistory(s, k);
    }
  }

  lemma EntriesDirect(s: System, s': System, m: Buffered)
    requires Entries(s) && s'.place == s.place && s'.posted == s.posted && s'.history == s.history + [Direct(m)]
    ensures Entries(s')
  {
    forall k | k in s'.place && s'.place[k] == Committed ensures InHistory(s', k) {
      assert InHistory(s, k);
      var i :| 0 <= i < |s.history| && s.history[i].Commit? && s.history[i].txn.id == k;
      assert s'.history[i] == s.history[i];
    }
  }

  lemma EntriesCommit(s: System, s': System, txn: Txn)
    requires Entries(s) && OnlyTouches(s, s', txn.id) && s'.history == s.history + [Commit(txn)]
    requires txn.id in s.place && s.place[txn.id] != Committed && IsAt(s', txn, Committed)
    ensures Entries(s')
  {
    assert s'.history[|s.history|] == Commit(txn);
    forall k | k in s'.place && s'.place[k] == Committed ensures InHistory(s', k) {
      if k != txn.id {
        assert InHistory(s, k);
        var i :| 0 <= i < |s.history| && s.history[i].Commit? && s.history[i].txn.id == k;
        assert s'.history[i] == s.history[i];
      }
    }
  }

  /** Thread `t` changes, and no other thread's transaction is touched. */
  lemma ThreadsStay(s: System, s': System, t: nat, id: nat)
    requires Threads(s) && OnlyTouches(s, s', id) && t < |s.threads| == |s'.threads|
    requires forall k :: 0 <= k < |s.threads| && k != t ==> s'.threads[k] == s.threads[k]
    requires id in s.place ==> forall k: nat :: k != t ==> s.place[id] != InHands(k)
    requires Carried(s'.threads[t]).Some? ==> IsAt(s', Carried(s'.threads[t]).value, InHands(t))
    ensures Threads(s')
  {
  }

  lemma PublishingKeeps(s: System, s': System, t: nat, txn: Txn, m: Buffered)
    requires Inv(s) && t < |s.threads| && s.threads[t] == Publishing(m) && s.slot == Some(txn)
    requires s' == At(Noted(s, txn.id, m).(slot := Some(Pushed(txn, m))), t, Idle)
    ensures Inv(s')
  {
    ThreadsStay(s, s', t, txn.id);
    EntriesStay(s, s', txn.id);
  }

  /** Steps that only move a thread on, with no transaction in its hands before or after. */
  lemma MovedOnKeeps(s: System, s': System, t: nat, pc: Pc)
    requires Inv(s) && t < |s.threads| && Carried(pc).None? && s' == At(s, t, pc)
    ensures Inv(s')
  {
    ThreadsStay(s, s', t, s.nextTxn);
    EntriesStay(s, s', s.nextTxn);
  }

  lemma RoutingKeeps(s: System, s': System, t: nat, m: Buffered, bus: Router.State)
    requires Inv(s) && t < |s.threads| && s.threads[t] == Routing(m)
    requires s' == At(s.(bus := bus, history := s.history + [Direct(m)]), t, Idle)
    ensures Inv(s')
  {
    ThreadsStay(s, s', t, s.nextTxn);
    EntriesDirect(s, s', m);
  }

  lemma BeginningKeeps(s: System, s': System, t: nat)
    requires Inv(s) && t < |s.threads| && s.threads[t].Beginning? && s.slot.None?
    requires s' == At(Opened(s, Slot).(slot := Some(Txn(s.nextTxn, []))), t, Idle)
    ensures Inv(s')
  {
    ThreadsStay(s, s', t, s.nextTxn);
    EntriesStay(s, s', s.nextTxn);
  }

  lemma OpeningKeeps(s: System, s': System, t: nat)
    requires Inv(s) && t < |s.threads| && s.threads[t].Opening?
    requires s' == At(Opened(s, Owned).(owned := s.owned[s.nextTxn := Txn(s.nextTxn, [])]), t, Idle)
    ensures Inv(s')
  {
    ThreadsStay(s, s', t, s.nextTxn);
    EntriesStay(s, s', s.nextTxn);
  }

  lemma LiveKeeps(s: System, s': System, t: nat, txn: Txn)
    requires Inv(s) && t < |s.threads| && s.threads[t] == Committing(txn) && s' == At(s, t, Discharging(txn))
    ensures Inv(s')
  {
    assert IsAt(s, txn, InHands(t));
    ThreadsStay(s, s', t, txn.id);
    EntriesStay(s, s', txn.id);
  }

  lemma RefusedKeeps(s: System, s': System, t: nat, txn: Txn)
    requires Inv(s) && t < |s.threads| && Carried(s.threads[t]) == Some(txn) && s' == At(Moved(s, txn.id, Discarded), t, Idle)
    ensures Inv(s')
  {
    assert IsAt(s, txn, InHands(t));
    ThreadsStay(s, s', t, txn.id);
    EntriesStay(s, s', txn.id);
  }

  lemma CommittedKeeps(s: System, s': System, t: nat, txn: Txn, bus: Router.State)
    requires Inv(s) && t < |s.threads| && s.threads[t] == Discharging(txn)
    requires s' == At(Moved(s, txn.id, Committed).(bus := bus, history := s.history + [Commit(txn)]), t, Idle)
    ensures Inv(s')
  {
    assert IsAt(s, txn, InHands(t));
    ThreadsStay(s, s', t, txn.id);
    EntriesCommit(s, s', txn);
  }

  lemma DischargingKeeps(s: System, s': System, t: nat)
    requires Inv(s) && t < |s.threads| && s.threads[t].Discharging? && s' == GoStep(s, t)
    ensures Inv(s')
  {
    var txn := s.threads[t].txn;
    if s.bus.closed {
      RefusedKeeps(s, s', t, txn);
    } else {
      CommittedKeeps(s, s', t, txn, PublishAll(s.bus, txn.buffer));
    }
  }

  lemma PostingKeeps(s: System, s': System, t: nat, txn: Txn, m: Buffered)
    requires Inv(s) && t < |s.threads| && s.threads[t] == Posting(txn, m)
    requires s' == At(Moved(Noted(s, txn.id, m), txn.id, Owned).(owned := s.owned[txn.id := Pushed(txn, m)]), t, Idle)
    ensures Inv(s')
  {
    assert IsAt(s, txn, InHands(t));
    ThreadsStay(s, s', t, txn.id);
    EntriesStay(s, s', txn.id);
  }

  lemma GoKeeps(s: System, s': System, t: nat)
    requires Inv(s) && t < |s.threads| && s' == GoStep(s, t)
    ensures Inv(s')
  {
    match s.threads[t]
    case Idle =>
    case Publishing(m) => if s.slot.Some? { PublishingKeeps(s, s', t, s.slot.value, m); } else { MovedOnKeeps(s, s', t, Routing(m)); }
    case Routing(m) => if s.bus.closed { MovedOnKeeps(s, s', t, Idle); } else { RoutingKeeps(s, s', t, m, s'.bus); }
    case Beginning => if s.slot.Some? { MovedOnKeeps(s, s', t, Idle); } else { BeginningKeeps(s, s', t); }
    case Committing(txn) => if s.closed { RefusedKeeps(s, s', t, txn); } else { LiveKeeps(s, s', t, txn); }
    case Discharging(_) => DischargingKeeps(s, s', t);
    case Opening => OpeningKeeps(s, s', t);
    case Posting(txn, m) => PostingKeeps(s, s', t, txn, m);
  }

  lemma TakeKeeps(s: System, s': System, t: nat, txn: Txn)
    requires Inv(s) && t < |s.threads| && s.slot == Some(txn) && s.threads[t].Idle?
    requires s' == At(Moved(s, txn.id, InHands(t)).(slot := None), t, Committing(txn))
    ensures Inv(s')
  {
    ThreadsStay(s, s', t, txn.id);
    EntriesStay(s, s', txn.id);
  }

  lemma AbortKeeps(s: System, s': System, t: nat, txn: Txn)
    requires Inv(s) && t < |s.threads| && s.slot == Some(txn) && s.threads[t].Idle?
    requires s' == Moved(s, txn.id, Discarded).(slot := None)
    ensures Inv(s')
  {
    ThreadsStay(s, s', t, txn.id);
    EntriesStay(s, s', txn.id);
  }

  lemma DropOwnedKeeps(s: System, s': System, t: nat, id: nat)
    requires Inv(s) && t < |s.threads| && s.threads[t].Idle? && id in s.owned
    requires s' == Moved(s, id, Discarded).(owned := s.owned - {id})
    ensures Inv(s')
  {
    ThreadsStay(s, s', t, id);
    EntriesStay(s, s', id);
  }

  lemma TakeOwnedKeeps(s: System, s': System, t: nat, id: nat, pc: Pc)
    requires Inv(s) && t < |s.threads| && s.threads[t].Idle? && id in s.owned && Carried(pc) == Some(s.owned[id])
    requires s' == At(Moved(s, id, InHands(t)).(owned := s.owned - {id}), t, pc)
    ensures Inv(s')
  {
    ThreadsStay(s, s', t, id);
    EntriesStay(s, s', id);
  }

  lemma DoKeeps(s: System, s': System, t: nat, a: Action)
    requires Inv(s) && t < |s.threads| && s' == DoStep(s, t, a)
    ensures Inv(s')
  {
    if a.Go? {
      GoKeeps(s, s', t);
    } else if s' != s {
      match a
      case TakeForCommit => TakeKeeps(s, s', t, s.slot.value);
      case Abort => AbortKeeps(s, s', t, s.slot.value);
      case StartPost(id, p) => TakeOwnedKeeps(s, s', t, id, Posting(s.owned[id], MessageOf(p)));
      case StartOwnedCommit(id) => TakeOwnedKeeps(s, s', t, id, Committing(s.owned[id]));
      case DropOwned(id) => DropOwnedKeeps(s, s', t, id);
      case StartPublish(_) => MovedOnKeeps(s, s', t, s'.threads[t]);
      case StartDirect(_) => MovedOnKeeps(s, s', t, s'.threads[t]);
      case StartBegin => MovedOnKeeps(s, s', t, Beginning);
      case StartOpen => MovedOnKeeps(s, s', t, Opening);
    }
  }

  lemma StepKeeps(s: System, e: Event)
    requires Inv(s)
    ensures Inv(Step(s, e))
  {
    var s' := Step(s, e);
    match e
    case Do(t, a) => if t < |s.threads| { DoKeeps(s, s', t, a); }
    case _ => EntriesStay(s, s', s.nextTxn);
  }

  lemma {:induction false} RunKeeps(threads: nat, events: seq<Event>)
    ensures Inv(Run(threads, events))
  {
    if events != [] {
      RunKeeps(threads, events[..|events| - 1]);
      StepKeeps(Run(threads, events[..|events| - 1]), events[|events| - 1]);
    }
  }

  /** How often a transaction's commit is in the history. */
  function Commits(history: seq<Entry>, id: nat): nat {
    if history == [] then 0
    else Commits(history[..|history| - 1], id) + var e := history[|history| - 1]; if e.Commit? && e.txn.id == id then 1 else 0
  }

  lemma {:induction false} CommitsFound(history: seq<Entry>, id: nat)
    requires forall i, j :: 0 <= i < j < |history| && history[i].Commit? && history[j].Commit? ==> history[i].txn.id != history[j].txn.id
    ensures Commits(history, id) <= 1
    ensures Commits(history, id) == 1 <==> exists i :: 0 <= i < |history| && history[i].Commit? && history[i].txn.id == id
  {
    if history != [] {
      var n := |history| - 1;
      CommitsFound(history[..n], id);
      if Commits(history[..n], id) == 1 {
        var i :| 0 <= i < n && history[..n][i].Commit? && history[..n][i].txn.id == id;
        assert history[i].Commit? && history[i].txn.id == id;
      }
      if i :| 0 <= i < n && history[i].Commit? && history[i].txn.id == id {
        assert history[..n][i].Commit? && history[..n][i].txn.id == id;
      }
    }
  }

  /** In every run a transaction reaches the registry once if its commit went through and never
      otherwise, and then with exactly what was buffered under it, in order. One that is open, held in
      a thread's hands, aborted, dropped or refused has contributed nothing. */
  lemma {:induction false} CommitsOnceAndWhole(threads: nat, events: seq<Event>, id: nat)
    ensures var s := Run(threads, events);
      && Commits(s.history, id) == (if id in s.place && s.place[id] == Committed then 1 else 0)
      && (forall i :: 0 <= i < |s.history| && s.history[i].Commit? && s.history[i].txn.id == id ==>
            id in s.posted && s.history[i].txn.buffer == s.posted[id])
  {
    RunKeeps(threads, events);
    var s := Run(threads, events);
    CommitsFound(s.history, id);
    if id in s.place && s.place[id] == Committed {
      assert InHistory(s, id);
    }
  }

  /** A discharge races the shutdown in one step: it puts the whole buffer at the end of the logs, or,
      once the registry closed, nothing at all. */
  lemma DischargeIsWholeOrNothing(s: System, t: nat, address: string)
    requires t < |s.threads| && s.threads[t].Discharging?
    ensures var s', txn := GoStep(s, t), s.threads[t].txn;
      if s.bus.closed then Silent(s, s') && s'.place[txn.id] == Discarded
      else LogOf(s'.bus, address) == LogOf(s.bus, address) + On(txn.buffer, address) && s'.place[txn.id] == Committed
  {
    PublishAllLogs(s.bus, s.threads[t].txn.buffer, address);
  }

  predicate Over(s: System, id: nat) {
    id in s.place && (s.place[id] == Committed || s.place[id] == Discarded)
  }

  /** What is over stays over, and once the registry closed nothing reaches it. */
  predicate Lasting(s: System, s': System) {
    && (forall id :: id in s.place && Over(s, id) ==> id in s'.place && s'.place[id] == s.place[id])
    && (s.bus.closed ==> s'.bus.closed && Silent(s, s'))
  }

  /** A step moves one transaction at most: a new one, or the one in the thread's hands. */
  predicate OneMoves(s: System, s': System, id: nat) {
    forall k :: k in s.place && k != id ==> k in s'.place && s'.place[k] == s.place[k]
  }

  lemma NewMoves(s: System, t: nat)
    requires t < |s.threads| && Carried(s.threads[t]).None?
    ensures OneMoves(s, GoStep(s, t), s.nextTxn)
  {
  }

  lemma CarriedMoves(s: System, t: nat)
    requires t < |s.threads| && Carried(s.threads[t]).Some?
    ensures OneMoves(s, GoStep(s, t), Carried(s.threads[t]).value.id)
  {
  }

  lemma GoLasts(s: System, s': System, t: nat)
    requires Inv(s) && t < |s.threads| && s' == GoStep(s, t)
    ensures forall id :: id in s.place && Over(s, id) ==> id in s'.place && s'.place[id] == s.place[id]
  {
    if Carried(s.threads[t]).Some? {
      CarriedMoves(s, t);
      assert IsAt(s, Carried(s.threads[t]).value, InHands(t));
    } else {
      NewMoves(s, t);
    }
  }

  lemma ClosedGo(s: System, t: nat)
    requires t < |s.threads| && s.bus.closed
    ensures Silent(s, GoStep(s, t)) && GoStep(s, t).bus.closed
  {
  }

  lemma DoLasts(s: System, s': System, t: nat, a: Action)
    requires Inv(s) && t < |s.threads| && s' == DoStep(s, t, a)
    ensures Lasting(s, s')
  {
    if a.Go? {
      GoLasts(s, s', t);
      if s.bus.closed { ClosedGo(s, t); }
    }
  }

  lemma StepLasts(s: System, e: Event)
    requires Inv(s)
    ensures Lasting(s, Step(s, e))
  {
    match e
    case Do(t, a) => if t < |s.threads| { DoLasts(s, Step(s, e), t, a); }
    case Consumer(c) => CallLogs(s.bus, c);
    case _ =>
  }

  lemma LastsOn(s: System, s1: System, s2: System)
    requires Lasting(s, s1) && Lasting(s1, s2)
    ensures Lasting(s, s2)
  {
  }

  lemma OneMoreLasts(threads: nat, events: seq<Event>, e: Event)
    ensures Lasting(Run(threads, events), Run(threads, events + [e]))
  {
    assert (events + [e])[..|events|] == events;
    RunKeeps(threads, events);
    StepLasts(Run(threads, events), e);
  }

  /** Over any continuation of any run: a committed transaction stays committed, a discarded one never
      commits, and after the registry closed every log stays as it is. */
  lemma {:induction false} OutcomesLast(threads: nat, events: seq<Event>, more: seq<Event>)
    ensures Lasting(Run(threads, events), Run(threads, events + more))
  {
    if more == [] {
      assert events + more == events;
    } else {
      var front := more[..|more| - 1];
      assert events + more == (events + front) + [more[|more| - 1]];
      OutcomesLast(threads, events, front);
      OneMoreLasts(threads, events + front, more[|more| - 1]);
      LastsOn(Run(threads, events), Run(threads, events + front), Run(threads, events + more));
    }
  }
}
