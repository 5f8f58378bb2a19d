/** The harness predicts whom the next publish reaches; the prediction agrees with the routing. */
module RouterPrediction {
  import opened Router
  import opened RouterTurns

  /** Whether the next publish reaches each subscription on `address` with an id below `n`. */
  function Recipients(s: State, address: string, n: nat): (marks: seq<bool>)
    requires Valid(s)
    ensures |marks| == |Attached(s, address, n)|
  {
    if n == 0 then []
    else Recipients(s, address, n - 1) + if At(s, n - 1, address) then [Reached(s, address, n - 1)] else []
  }

  function CountTrue(marks: seq<bool>): nat {
    if marks == [] then 0 else CountTrue(marks[..|marks| - 1]) + if marks[|marks| - 1] then 1 else 0
  }

  function Topics(s: State, address: string, n: nat): nat {
    if n == 0 then 0
    else Topics(s, address, n - 1) + if At(s, n - 1, address) && s.subs[n - 1].routing.Multicast? then 1 else 0
  }

  /** The competing consumer whose place is its rank. */
  lemma {:induction false} RankIsPlace(s: State, address: string, id: nat, n: nat)
    requires id < n && Competes(s, id, address)
    ensures |Competing(s, address, id)| < |Competing(s, address, n)|
    ensures Competing(s, address, n)[|Competing(s, address, id)|] == id
  {
    if id < n - 1 {
      RankIsPlace(s, address, id, n - 1);
    }
  }

  /** A consumer has the turn exactly when its rank says so. */
  lemma TurnIsRank(s: State, address: string, id: nat, place: nat)
    requires Valid(s) && Competes(s, id, address) && place < |Competing(s, address, s.nextId)|
    ensures |Competing(s, address, id)| == place <==> Competing(s, address, s.nextId)[place] == id
  {
    RankIsPlace(s, address, id, s.nextId);
    CompetingAscends(s, address, s.nextId);
  }

  lemma HandOverReachesTheTurn(s: State, address: string, d: Delivery, id: nat)
    requires Valid(s) && (forall i :: i in s.channels ==> Takes(s, i)) && id in s.channels
    ensures var s' := HandToOne(s, address, d);
      id in s'.channels && s'.channels[id].items ==
        if Competes(s, id, address) && Reached(s, address, id) then s.channels[id].items + [d] else s.channels[id].items
  {
    var ids := Competing(s, address, s.nextId);
    if Competes(s, id, address) {
      assert id in ids;
    }
    if ids != [] {
      forall i | 0 <= i < |ids| ensures Takes(s, ids[i]) {
        assert ids[i] in ids;
      }
      HandOverInTurn(s, address, d);
      var place := Get(s.turn, address, 0) % |ids|;
      assert ids[place] in ids;
      if Competes(s, id, address) {
        TurnIsRank(s, address, id, place);
      }
    }
  }

  /** With every receiver open, a publish adds the message to the channel of each subscription the
      prediction marks, and to no other channel. */
  lemma PublishReachesThePredicted(s: State, address: string, d: Delivery, id: nat)
    requires Valid(s) && (forall i :: i in s.channels ==> Takes(s, i)) && id in s.channels
    ensures var s' := PublishOne(s, address, d);
      id in s'.channels && s'.channels[id].items ==
        if At(s, id, address) && Reached(s, address, id) then s.channels[id].items + [d] else s.channels[id].items
  {
    var s1 := Copy(Note(s, address, d), address, d);
    CompetingDependsOnSubs(s, s1, address, s.nextId);
    CompetingDependsOnSubs(s, s1, address, id);
    HandOverReachesTheTurn(s1, address, d, id);
  }

  lemma CountTrueMore(marks: seq<bool>, m: bool)
    ensures CountTrue(marks + [m]) == CountTrue(marks) + if m then 1 else 0
  {
    assert (marks + [m])[..|marks|] == marks;
  }

  /** One more subscription on the address marks one more exactly if the publish reaches it. */
  lemma MarksOneMore(s: State, address: string, n: nat)
    requires Valid(s) && n > 0 && At(s, n - 1, address)
    ensures CountTrue(Recipients(s, address, n)) ==
      CountTrue(Recipients(s, address, n - 1)) + if Reached(s, address, n - 1) then 1 else 0
  {
    CountTrueMore(Recipients(s, address, n - 1), Reached(s, address, n - 1));
  }

  lemma MarksNoMore(s: State, address: string, n: nat)
    requires Valid(s) && n > 0 && !At(s, n - 1, address)
    ensures Recipients(s, address, n) == Recipients(s, address, n - 1)
    ensures Topics(s, address, n) == Topics(s, address, n - 1)
    ensures |Competing(s, address, n)| == |Competing(s, address, n - 1)|
  {
    assert Recipients(s, address, n - 1) + [] == Recipients(s, address, n - 1);
  }

  /** How many of the competitors below `n` have the turn, when it is at `place`. */
  function Turned(place: nat, competitors: nat): nat {
    if place < competitors then 1 else 0
  }

  predicate HasTurn(s: State, address: string, place: nat) {
    var all := |Competing(s, address, s.nextId)|;
    all > 0 ==> place == Get(s.turn, address, 0) % all
  }

  /** What subscription `n - 1` adds: itself as a topic one, or itself as a competitor whose turn it may be. */
  lemma TopicAdds(s: State, address: string, n: nat)
    requires Valid(s) && n > 0 && At(s, n - 1, address) && s.subs[n - 1].routing.Multicast?
    ensures Reached(s, address, n - 1) && Topics(s, address, n) == Topics(s, address, n - 1) + 1
    ensures |Competing(s, address, n)| == |Competing(s, address, n - 1)|
  {
  }

  lemma CompetitorAdds(s: State, address: string, n: nat, place: nat)
    requires Valid(s) && 0 < n <= s.nextId && Competes(s, n - 1, address) && HasTurn(s, address, place)
    ensures Reached(s, address, n - 1) <==> place == |Competing(s, address, n - 1)|
    ensures Topics(s, address, n) == Topics(s, address, n - 1)
    ensures |Competing(s, address, n)| == |Competing(s, address, n - 1)| + 1
  {
    assert n - 1 in Competing(s, address, s.nextId);
  }

  predicate Marks(s: State, address: string, n: nat, place: nat)
    requires Valid(s)
  {
    CountTrue(Recipients(s, address, n)) == Topics(s, address, n) + Turned(place, |Competing(s, address, n)|)
  }

  lemma MarksStep(s: State, address: string, n: nat, place: nat)
    requires Valid(s) && 0 < n <= s.nextId && HasTurn(s, address, place) && Marks(s, address, n - 1, place)
    ensures Marks(s, address, n, place)
  {
    if !At(s, n - 1, address) {
      MarksNoMore(s, address, n);
    } else {
      MarksOneMore(s, address, n);
      if s.subs[n - 1].routing.Multicast? {
        TopicAdds(s, address, n);
      } else {
        CompetitorAdds(s, address, n, place);
      }
    }
  }

  lemma {:induction false} MarksCount(s: State, address: string, n: nat, place: nat)
    requires Valid(s) && n <= s.nextId && HasTurn(s, address, place)
    ensures Marks(s, address, n, place)
  {
    if n > 0 {
      MarksCount(s, address, n - 1, place);
      MarksStep(s, address, n, place);
    }
  }

  /** The prediction marks as many subscriptions as there are topic ones, and one more where queue
      subscriptions compete. */
  lemma PredictionCounts(s: State, address: string)
    requires Valid(s)
    ensures CountTrue(Recipients(s, address, s.nextId)) ==
      Topics(s, address, s.nextId) + if Competing(s, address, s.nextId) != [] then 1 else 0
  {
    var all := |Competing(s, address, s.nextId)|;
    MarksCount(s, address, s.nextId, if all > 0 then Get(s.turn, address, 0) % all else 0);
  }

  lemma {:induction false} RecipientsMark(s: State, address: string, n: nat, k: nat)
    requires Valid(s) && k < |Attached(s, address, n)|
    ensures var id := Attached(s, address, n)[k];
      At(s, id, address) && Recipients(s, address, n)[k] == Reached(s, address, id)
  {
    if k < |Attached(s, address, n - 1)| {
      RecipientsMark(s, address, n - 1, k);
    }
  }

  // -- The positions the harness waits on ------------------------------------------------------

  /** The positions of the app's subscriptions of one name, in order. */
  function SameName(names: seq<string>, name: string): seq<nat> {
    if names == [] then []
    else SameName(names[..|names| - 1], name) + if names[|names| - 1] == name then [|names| - 1] else []
  }

  function Marked(positions: seq<nat>, marks: seq<bool>): seq<nat>
    requires |positions| == |marks|
  {
    if positions == [] then []
    else
      var n := |positions| - 1;
      Marked(positions[..n], marks[..n]) + if marks[n] then [positions[n]] else []
  }

  /** Where the app's subscriptions of the name are as many as the attached ones, the answer names
      the marked positions; where they disagree, it counts. */
  function Routes(s: State, name: string, names: seq<string>): seq<nat>
    requires Valid(s)
  {
    var same := SameName(names, name);
    var marks := Recipients(s, name, s.nextId);
    if |marks| == |same| then Marked(same, marks)
    else
      var reached := Topics(s, name, s.nextId) + if Competing(s, name, s.nextId) != [] then 1 else 0;
      same[..if reached < |same| then reached else |same|]
  }

  lemma {:induction false} SameNameAscends(names: seq<string>, name: string)
    ensures Ascending(SameName(names, name)) && forall i :: 0 <= i < |SameName(names, name)| ==> SameName(names, name)[i] < |names|
  {
    if names != [] {
      SameNameAscends(names[..|names| - 1], name);
      assert SameName(names[..|names| - 1], name) + [] == SameName(names[..|names| - 1], name);
    }
  }

  lemma {:induction false} MarkedMembers(positions: seq<nat>, marks: seq<bool>, p: nat)
    requires |positions| == |marks|
    ensures p in Marked(positions, marks) <==> exists k :: 0 <= k < |positions| && positions[k] == p && marks[k]
  {
    if positions != [] {
      var n := |positions| - 1;
      MarkedMembers(positions[..n], marks[..n], p);
      if p in Marked(positions[..n], marks[..n]) {
        var k :| 0 <= k < n && positions[..n][k] == p && marks[..n][k];
        assert positions[k] == p && marks[k];
      }
      if k :| 0 <= k < n && positions[k] == p && marks[k] {
        assert positions[..n][k] == p && marks[..n][k];
      }
    }
  }

  /** Where the app's subscriptions of a name are the attached ones in order, the position of each is
      named exactly when the next publish puts the message into its channel. */
  lemma {:induction false} RoutesNamesTheReached(s: State, name: string, names: seq<string>, d: Delivery, k: nat)
    requires Valid(s) && forall i :: i in s.channels ==> Takes(s, i)
    requires |SameName(names, name)| == |Attached(s, name, s.nextId)| && k < |SameName(names, name)|
    ensures var id := Attached(s, name, s.nextId)[k];
      && id in s.channels && id in PublishOne(s, name, d).channels
      && (SameName(names, name)[k] in Routes(s, name, names) <==>
           PublishOne(s, name, d).channels[id].items == s.channels[id].items + [d])
  {
    var same, marks := SameName(names, name), Recipients(s, name, s.nextId);
    RecipientsMark(s, name, s.nextId, k);
    PublishReachesThePredicted(s, name, d, Attached(s, name, s.nextId)[k]);
    MarkedMembers(same, marks, same[k]);
    SameNameAscends(names, name);
    if j :| 0 <= j < |same| && same[j] == same[k] && marks[j] {
      assert j == k;
    }
  }

  /** Where they are not, the answer still names as many as the publish reaches, or all there are. */
  lemma RoutesCounts(s: State, name: string, names: seq<string>)
    requires Valid(s) && |SameName(names, name)| != |Attached(s, name, s.nextId)|
    ensures var reached := CountTrue(Recipients(s, name, s.nextId));
      |Routes(s, name, names)| == if reached < |SameName(names, name)| then reached else |SameName(names, name)|
  {
    PredictionCounts(s, name);
  }

  lemma OneMoreAscends(ids: seq<nat>, next: nat)
    requires Ascending(ids) && forall id :: id in ids ==> id < next
    ensures Ascending(ids + [next]) && Ascending(ids + [])
  {
    assert ids + [] == ids;
    forall i | 0 <= i < |ids| ensures ids[i] < next {
      assert ids[i] in ids;
    }
  }

  /** The subscriptions of an address: those attached there, and in attach order. */
  lemma {:induction false} AttachedInOrder(s: State, address: string, n: nat)
    ensures Ascending(Attached(s, address, n)) && Ascending(Competing(s, address, n))
    ensures forall id: nat :: id in Attached(s, address, n) <==> id < n && At(s, id, address)
  {
    if n > 0 {
      AttachedInOrder(s, address, n - 1);
      OneMoreAscends(Attached(s, address, n - 1), n - 1);
      OneMoreAscends(Competing(s, address, n - 1), n - 1);
    }
  }

  /** The app's positions of a name: those, and in order. */
  lemma {:induction false} SameNameExactly(names: seq<string>, name: string, p: nat)
    ensures p in SameName(names, name) <==> p < |names| && names[p] == name
  {
    if names != [] {
      var front := names[..|names| - 1];
      SameNameExactly(front, name, p);
      assert p < |front| ==> front[p] == names[p];
    }
  }

  lemma {:induction false} MarkedAscends(positions: seq<nat>, marks: seq<bool>)
    requires |positions| == |marks| && Ascending(positions)
    ensures Ascending(Marked(positions, marks))
    ensures forall i :: 0 <= i < |Marked(positions, marks)| ==> Marked(positions, marks)[i] in positions
  {
    if positions != [] {
      var n := |positions| - 1;
      var front := Marked(positions[..n], marks[..n]);
      MarkedAscends(positions[..n], marks[..n]);
      assert front + [] == front;
      forall i | 0 <= i < |front| ensures front[i] < positions[n] {
        assert front[i] in positions[..n];
      }
    }
  }

  /** The answer names positions of that name only, each once and in the app's order; where it only counts,
      the first ones. */
  lemma RoutesInOrder(s: State, name: string, names: seq<string>)
    requires Valid(s)
    ensures var routes := Routes(s, name, names);
      && Ascending(routes) && (forall p :: p in routes ==> p < |names| && names[p] == name)
      && (|SameName(names, name)| != |Attached(s, name, s.nextId)| ==> routes <= SameName(names, name))
  {
    var same, marks := SameName(names, name), Recipients(s, name, s.nextId);
    SameNameAscends(names, name);
    if |marks| == |same| { MarkedAscends(same, marks); }
    forall p | p in Routes(s, name, names) ensures p < |names| && names[p] == name {
      SameNameExactly(names, name, p);
    }
  }
}
