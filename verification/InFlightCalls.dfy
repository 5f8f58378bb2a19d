/** What a whole call does to the count and to the channels, from its first atomic step to its last. */
module InFlightCalls {
  import opened InFlight

  /** The steps of one task, one after another. */
  function Does(s: State, t: nat, actions: seq<Action>): State {
    if actions == [] then s else Step(Does(s, t, actions[..|actions| - 1]), Event(t, actions[|actions| - 1]))
  }

  lemma Then(s: State, t: nat, actions: seq<Action>, a: Action)
    ensures Does(s, t, actions + [a]) == Step(Does(s, t, actions), Event(t, a))
  {
    assert (actions + [a])[..|actions|] == actions;
  }

  lemma First(s: State, t: nat, a: Action)
    ensures Does(s, t, [a]) == Step(s, Event(t, a))
  {
    assert [a][..0] == [] && Does(s, t, [a][..0]) == s;
  }

  /** Task `t` is free to begin a call. */
  predicate Free(s: State, t: nat) {
    t < |s.tasks| && s.tasks[t].Idle?
  }

  /** The state but for where task `t` is. */
  function As(s: State, t: nat, pc: Pc): State
    requires t < |s.tasks|
  {
    s.(tasks := s.tasks[t := pc])
  }

  lemma Back(s: State, t: nat, pc: Pc)
    requires Free(s, t)
    ensures As(As(s, t, pc), t, Idle) == s
  {
    assert s.tasks[t := pc][t := Idle] == s.tasks;
  }

  /** A publish to one open subscription: it is counted, and it is in the channel. */
  lemma SendCounts(s: State, t: nat, id: nat)
    requires Free(s, t) && !s.lock && id in s.attached && id in s.channels && s.channels[id].open
    ensures Does(s, t, [Enter] + [Count(id)] + [Push] + [Leave]) ==
      Put(s, id, Channel(true, s.channels[id].waiting + 1)).(count := s.count + 1)
  {
    First(s, t, Enter);
    var s1 := As(s, t, Locked(Call)).(lock := true);
    assert Does(s, t, [Enter]) == s1;
    Then(s, t, [Enter], Count(id));
    var s2 := As(s1, t, Counted(id, Call)).(count := s.count + 1);
    Then(s, t, [Enter] + [Count(id)], Push);
    var s3 := Put(As(s2, t, Locked(Call)), id, Channel(true, s.channels[id].waiting + 1));
    assert Step(s2, Event(t, Push)) == s3;
    Then(s, t, [Enter] + [Count(id)] + [Push], Leave);
    assert s.tasks[t := Locked(Call)][t := Counted(id, Call)][t := Locked(Call)][t := Idle] == s.tasks;
  }

  /** One to a subscription whose receiver closed: nothing is counted in the end. */
  lemma RefusedSendCountsNothing(s: State, t: nat, id: nat)
    requires Free(s, t) && !s.lock && id in s.attached && id in s.channels && !s.channels[id].open
    ensures Does(s, t, [Enter] + [Count(id)] + [Push] + [Uncount] + [Leave]) == s
  {
    First(s, t, Enter);
    var s1 := As(s, t, Locked(Call)).(lock := true);
    Then(s, t, [Enter], Count(id));
    var s2 := As(s1, t, Counted(id, Call)).(count := s.count + 1);
    Then(s, t, [Enter] + [Count(id)], Push);
    var s3 := As(s2, t, Refused(Call));
    Then(s, t, [Enter] + [Count(id)] + [Push], Uncount);
    var s4 := As(s3, t, Locked(Call)).(count := s.count);
    assert Step(s3, Event(t, Uncount)) == s4;
    Then(s, t, [Enter] + [Count(id)] + [Push] + [Uncount], Leave);
    assert s.tasks[t := Locked(Call)][t := Counted(id, Call)][t := Refused(Call)][t := Locked(Call)][t := Idle] == s.tasks;
  }

  /** Reading a delivery moves its place from the channel to a settlement. */
  lemma ReadKeepsTheCount(s: State, t: nat, id: nat)
    requires Free(s, t) && id in s.channels && s.channels[id].waiting > 0
    ensures Does(s, t, [Pop(id)] + [Wrap]) ==
      Put(s, id, Channel(s.channels[id].open, s.channels[id].waiting - 1))
        .(live := s.live + {s.nextSettlement}, nextSettlement := s.nextSettlement + 1)
  {
    First(s, t, Pop(id));
    Then(s, t, [Pop(id)], Wrap);
    Back(s, t, Popped);
  }

  /** A settlement that sends nothing back releases its count. */
  lemma SettlingReleases(s: State, t: nat, h: nat)
    requires Free(s, t) && h in s.live
    ensures Does(s, t, [Settle(h, false)] + [Release]) == s.(live := s.live - {h}, count := s.count - 1)
  {
    First(s, t, Settle(h, false));
    Then(s, t, [Settle(h, false)], Release);
    Back(s, t, Settled);
  }

  lemma TakesItBack(s: State, t: nat, h: nat)
    requires Free(s, t) && h in s.live && !s.lock
    ensures Step(Step(s, Event(t, Settle(h, true))), Event(t, GoBack)) ==
      As(s, t, Locked(GiveBack)).(live := s.live - {h}, lock := true)
  {
    assert s.tasks[t := Returning][t := Locked(GiveBack)] == s.tasks[t := Locked(GiveBack)];
  }

  lemma ReleasesLast(s: State, t: nat)
    requires t < |s.tasks| && s.tasks[t].Settled?
    ensures Step(s, Event(t, Release)) == As(s, t, Idle).(count := s.count - 1)
  {
  }

  /** One that does counts the delivery again before it releases its own count: in the end the count is
      what it was. */
  lemma GoingBackKeepsTheCount(s: State, t: nat, h: nat, id: nat)
    requires Free(s, t) && h in s.live && !s.lock && id in s.attached && id in s.channels && s.channels[id].open
    ensures var before := [Settle(h, true)] + [GoBack] + [Count(id)] + [Push] + [Leave];
      Does(s, t, before).count == s.count + 1 &&
      Does(s, t, before + [Release]) == Put(s, id, Channel(true, s.channels[id].waiting + 1)).(live := s.live - {h})
  {
    var actions := [Settle(h, true)] + [GoBack];
    First(s, t, Settle(h, true));
    Then(s, t, [Settle(h, true)], GoBack);
    TakesItBack(s, t, h);
    var s2 := As(s, t, Locked(GiveBack)).(live := s.live - {h}, lock := true);
    SendsBack(s2, t, id);
    Then(s, t, actions, Count(id));
    Then(s, t, actions + [Count(id)], Push);
    Then(s, t, actions + [Count(id)] + [Push], Leave);
    Then(s, t, actions + [Count(id)] + [Push] + [Leave], Release);
    ReleasesLast(Does(s, t, actions + [Count(id)] + [Push] + [Leave]), t);
    assert s.tasks[t := Locked(GiveBack)][t := Settled][t := Idle] == s.tasks;
  }

  /** The return in the middle of it. */
  lemma SendsBack(s: State, t: nat, id: nat)
    requires t < |s.tasks| && s.tasks[t] == Locked(GiveBack) && id in s.attached && id in s.channels && s.channels[id].open
    ensures var s1 := Step(s, Event(t, Count(id)));
      var s2 := Step(s1, Event(t, Push));
      Step(s2, Event(t, Leave)) ==
        Put(As(s, t, Settled), id, Channel(true, s.channels[id].waiting + 1)).(count := s.count + 1, lock := false)
  {
    var s1 := As(s, t, Counted(id, GiveBack)).(count := s.count + 1);
    assert Step(s, Event(t, Count(id))) == s1;
    var s2 := Put(As(s1, t, Locked(GiveBack)), id, Channel(true, s.channels[id].waiting + 1));
    assert Step(s1, Event(t, Push)) == s2;
    assert s.tasks[t := Counted(id, GiveBack)][t := Locked(GiveBack)][t := Settled] == s.tasks[t := Settled];
  }

  // -- Detaching ---------------------------------------------------------------------------------

  /** The drain of `n` deliveries. */
  function Drains(n: nat): seq<Action> {
    if n == 0 then [] else Drains(n - 1) + [Drain] + [DrainRelease]
  }

  /** The state with `n` deliveries of one channel drained and released. */
  function Emptied(s: State, id: nat, n: nat): State
    requires id in s.channels && n <= s.channels[id].waiting
  {
    Put(s, id, Channel(s.channels[id].open, s.channels[id].waiting - n)).(count := s.count - n)
  }

  lemma EmptiedNone(s: State, id: nat)
    requires id in s.channels
    ensures Emptied(s, id, 0) == s
  {
    assert s.channels[id := s.channels[id]] == s.channels;
  }

  lemma EmptiedOneMore(s: State, id: nat, n: nat)
    requires id in s.channels && 0 < n <= s.channels[id].waiting
    ensures Emptied(Emptied(s, id, n - 1), id, 1) == Emptied(s, id, n)
  {
    var c := s.channels[id];
    assert s.channels[id := Channel(c.open, c.waiting - (n - 1))][id := Channel(c.open, c.waiting - n)] ==
      s.channels[id := Channel(c.open, c.waiting - n)];
  }

  lemma {:induction false} DrainsAll(s: State, t: nat, id: nat, n: nat)
    requires t < |s.tasks| && s.tasks[t] == Draining(id) && id in s.channels && n <= s.channels[id].waiting
    ensures Does(s, t, Drains(n)) == Emptied(s, id, n)
  {
    if n == 0 {
      EmptiedNone(s, id);
    } else {
      DrainsAll(s, t, id, n - 1);
      Then(s, t, Drains(n - 1), Drain);
      Then(s, t, Drains(n - 1) + [Drain], DrainRelease);
      DrainsOne(Emptied(s, id, n - 1), t, id);
      EmptiedOneMore(s, id, n);
    }
  }

  lemma DrainsOne(s: State, t: nat, id: nat)
    requires t < |s.tasks| && s.tasks[t] == Draining(id) && id in s.channels && s.channels[id].waiting > 0
    ensures Step(Step(s, Event(t, Drain)), Event(t, DrainRelease)) == Emptied(s, id, 1)
  {
    assert s.tasks[t := Drained(id)][t := Draining(id)] == s.tasks;
  }

  lemma {:induction false} Joined(s: State, t: nat, a: seq<Action>, b: seq<Action>)
    ensures Does(s, t, a + b) == Does(Does(s, t, a), t, b)
  {
    if b == [] {
      assert a + b == a;
    } else {
      assert (a + b)[..|a + b| - 1] == a + b[..|b| - 1];
      Joined(s, t, a, b[..|b| - 1]);
    }
  }

  lemma ClosesIt(s: State, t: nat, id: nat)
    requires Free(s, t) && id in s.channels
    ensures Step(s, Event(t, Close(id))) == Put(As(s, t, Draining(id)), id, Channel(false, s.channels[id].waiting))
  {
  }

  /** A link that detaches releases the count of everything in its channel, and is gone. */
  lemma DetachReleasesAll(s: State, t: nat, id: nat)
    requires Free(s, t) && !s.lock && id in s.attached && id in s.channels
    ensures Does(s, t, [Close(id)] + Drains(s.channels[id].waiting) + [Drop] + [Leave]) ==
      s.(count := s.count - s.channels[id].waiting, attached := s.attached - {id}, channels := s.channels - {id})
  {
    var n := s.channels[id].waiting;
    var s1 := Put(As(s, t, Draining(id)), id, Channel(false, n));
    First(s, t, Close(id));
    ClosesIt(s, t, id);
    Joined(s, t, [Close(id)], Drains(n));
    DrainsAll(s1, t, id, n);
    Then(s, t, [Close(id)] + Drains(n), Drop);
    Then(s, t, [Close(id)] + Drains(n) + [Drop], Leave);
    DropsIt(Emptied(s1, id, n), t, id);
    Gone(s, s1, t, id, n);
  }

  lemma Gone(s: State, s1: State, t: nat, id: nat, n: nat)
    requires Free(s, t) && id in s.channels && n == s.channels[id].waiting
    requires s1.channels == s.channels[id := Channel(false, n)] && s1.tasks == s.tasks[t := Draining(id)]
    requires s1 == s.(channels := s1.channels, tasks := s1.tasks)
    ensures As(Emptied(s1, id, n), t, Idle).(attached := s.attached - {id}, channels := Emptied(s1, id, n).channels - {id}) ==
      s.(count := s.count - n, attached := s.attached - {id}, channels := s.channels - {id})
  {
    assert Emptied(s1, id, n).channels - {id} == s.channels - {id};
    assert s.tasks[t := Draining(id)][t := Idle] == s.tasks;
  }

  lemma DropsIt(s: State, t: nat, id: nat)
    requires t < |s.tasks| && s.tasks[t] == Draining(id) && !s.lock
    requires id in s.attached && id in s.channels && s.channels[id].waiting == 0
    ensures Step(Step(s, Event(t, Drop)), Event(t, Leave)) ==
      As(s, t, Idle).(attached := s.attached - {id}, channels := s.channels - {id})
  {
    assert s.tasks[t := Locked(Call)][t := Idle] == s.tasks[t := Idle];
  }

  lemma DetachesFirst(s: State, t: nat, id: nat)
    requires Free(s, t) && !s.lock && id in s.channels
    ensures Step(Step(s, Event(t, Detach(id))), Event(t, Leave)) == As(s, t, Draining(id)).(attached := s.attached - {id})
  {
    assert s.tasks[t := Locked(DetachReplies(id))][t := Draining(id)] == s.tasks[t := Draining(id)];
  }

  lemma DropsDetached(s: State, t: nat, id: nat)
    requires t < |s.tasks| && s.tasks[t] == Draining(id) && id !in s.attached && id in s.channels && s.channels[id].waiting == 0
    ensures Step(s, Event(t, Drop)) == As(s, t, Idle).(channels := s.channels - {id})
  {
  }

  /** A request that is done detaches its reply address first and releases what raced the deadline then. */
  lemma DoneRequestReleasesAll(s: State, t: nat, id: nat)
    requires Free(s, t) && !s.lock && id in s.channels
    ensures Does(s, t, [Detach(id)] + [Leave] + Drains(s.channels[id].waiting) + [Drop]) ==
      s.(count := s.count - s.channels[id].waiting, attached := s.attached - {id}, channels := s.channels - {id})
  {
    var n := s.channels[id].waiting;
    var s1 := As(s, t, Draining(id)).(attached := s.attached - {id});
    First(s, t, Detach(id));
    Then(s, t, [Detach(id)], Leave);
    DetachesFirst(s, t, id);
    Joined(s, t, [Detach(id)] + [Leave], Drains(n));
    DrainsAll(s1, t, id, n);
    Then(s, t, [Detach(id)] + [Leave] + Drains(n), Drop);
    DropsDetached(Emptied(s1, id, n), t, id);
    GoneDetached(s, s1, t, id, n);
  }

  lemma GoneDetached(s: State, s1: State, t: nat, id: nat, n: nat)
    requires Free(s, t) && id in s.channels && n == s.channels[id].waiting
    requires s1 == As(s, t, Draining(id)).(attached := s.attached - {id})
    ensures As(Emptied(s1, id, n), t, Idle).(channels := Emptied(s1, id, n).channels - {id}) ==
      s.(count := s.count - n, attached := s.attached - {id}, channels := s.channels - {id})
  {
    assert Emptied(s1, id, n).channels - {id} == s.channels - {id};
    assert s.tasks[t := Draining(id)][t := Idle] == s.tasks;
  }

  /** Subscribing attaches a new, empty channel, unless the transport closed. */
  lemma SubscribeAttaches(s: State, t: nat)
    requires Free(s, t) && !s.lock
    ensures Does(s, t, [Enter] + [Attach] + [Leave]) == if s.closed then s else
      Put(s, s.nextChannel, Channel(true, 0)).(nextChannel := s.nextChannel + 1, attached := s.attached + {s.nextChannel})
  {
    First(s, t, Enter);
    Then(s, t, [Enter], Attach);
    Then(s, t, [Enter] + [Attach], Leave);
    assert s.tasks[t := Locked(Call)][t := Idle] == s.tasks;
  }
}
