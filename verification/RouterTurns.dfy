/** How competing consumers take their turns. */
module RouterTurns {
  import opened Common
  import opened Message
  import opened Router

  // -- Remainders ------------------------------------------------------------------------------

  lemma MultipleIsFar(d: int, n: nat)
    requires n > 0
    ensures d >= 1 ==> d * n >= n
    ensures d <= -1 ==> d * n <= 0 - n
  {
    if d >= 1 { assert (d - 1) * n >= 0; }
    if d <= -1 { assert (-d - 1) * n >= 0; }
  }

  /** Two values that differ by less than `n` have the same remainder only if they are equal. */
  lemma SameRemainder(x: nat, q: int, n: nat, y: int)
    requires n > 0 && x == q * n + y && 0 - n < y - x % n < n
    ensures y == x % n
  {
    var d := x / n - q;
    assert x == (x / n) * n + x % n;
    assert d * n == y - x % n;
    MultipleIsFar(d, n);
  }

  lemma RemainderOf(x: nat, q: int, n: nat, y: nat)
    requires n > 0 && y < n && x == q * n + y
    ensures x % n == y
  {
    SameRemainder(x, q, n, y);
  }

  /** Some number of places on from `first` there is a value with remainder `i`. */
  lemma PlacesOn(first: nat, n: nat, i: nat) returns (o: nat)
    requires i < n
    ensures o < n && (first + o) % n == i
  {
    var r, q := first % n, first / n;
    assert first == q * n + r;
    if i >= r {
      o := i - r;
      RemainderOf(first + o, q, n, i);
    } else {
      o := i + n - r;
      assert (q + 1) * n == q * n + n;
      RemainderOf(first + o, q + 1, n, i);
    }
  }

  /** A wrap at a multiple of `n` does not show in the remainder. */
  lemma WrapOnAMultiple(x: nat, width: nat, n: nat)
    requires 0 < n && width <= x < 2 * width && width % n == 0
    ensures (x % width) % n == x % n
  {
    RemainderOf(x, 1, width, x - width);
    var m, y := width / n, x / n;
    assert width == m * n && x == y * n + x % n;
    assert (y - m) * n == y * n - m * n;
    RemainderOf(x - width, y - m, n, x % n);
  }

  // -- The rotation reaches everyone -----------------------------------------------------------

  predicate Reaches(width: nat, first: nat, n: nat, i: nat)
    requires n > 0 && width > 0
  {
    exists o :: 0 <= o < n && PlaceOn(width, first, o, n) == i
  }

  lemma ReachedWithoutWrap(width: nat, first: nat, n: nat, i: nat)
    requires 0 < n <= width && first < width && i < n
    requires first + n <= width || width % n == 0
    ensures Reaches(width, first, n, i)
  {
    var o := PlacesOn(first, n, i);
    if first + o < width {
      RemainderOf(first + o, 0, width, first + o);
    } else {
      WrapOnAMultiple(first + o, width, n);
    }
    assert PlaceOn(width, first, o, n) == i;
  }

  /** The consumer passed over when the counter wraps between two rounds of the consumers. */
  function PassedOverAt(width: nat, first: nat, n: nat): nat
    requires 0 < n <= width && first < width && first + n > width
  {
    if width % n >= n - (width - first) then width % n else n - (width - first)
  }

  lemma MissedBefore(width: nat, first: nat, n: nat, o: nat)
    requires 0 < n <= width && first < width
    requires first + n > width && width % n != 0 && first + o < width
    ensures PlaceOn(width, first, o, n) != PassedOverAt(width, first, n)
  {
    var i, x, q, r := PassedOverAt(width, first, n), first + o, width / n, width % n;
    RemainderOf(x, 0, width, x);
    if x % n == i {
      assert width == q * n + r;
      SameRemainder(x, q, n, r - (width - x));
    }
  }

  lemma MissedAfter(width: nat, first: nat, n: nat, o: nat)
    requires 0 < n <= width && first < width
    requires first + n > width && width % n != 0 && first + o >= width && o < n
    ensures PlaceOn(width, first, o, n) != PassedOverAt(width, first, n)
  {
    var y := first + o - width;
    RemainderOf(first + o, 1, width, y);
    RemainderOf(y, 0, n, y);
  }

  /** Once the counter wraps inside one hand-over, and the wrap falls between two rounds of the
      consumers, one of them is never asked. */
  lemma MissedAtTheWrap(width: nat, first: nat, n: nat)
    requires 0 < n <= width && first < width
    requires first + n > width && width % n != 0
    ensures PassedOverAt(width, first, n) < n && !Reaches(width, first, n, PassedOverAt(width, first, n))
  {
    forall o | 0 <= o < n ensures PlaceOn(width, first, o, n) != PassedOverAt(width, first, n) {
      if first + o < width { MissedBefore(width, first, n, o); } else { MissedAfter(width, first, n, o); }
    }
  }

  /** One hand-over asks every consumer exactly when the counter does not wrap inside it, or wraps
      between two rounds. */
  lemma RotationAsksEveryone(width: nat, first: nat, n: nat)
    requires 0 < n <= width && first < width
    ensures (forall i :: 0 <= i < n ==> Reaches(width, first, n, i)) <==> first + n <= width || width % n == 0
  {
    if first + n <= width || width % n == 0 {
      forall i | 0 <= i < n ensures Reaches(width, first, n, i) {
        ReachedWithoutWrap(width, first, n, i);
      }
    } else {
      MissedAtTheWrap(width, first, n);
    }
  }

  // -- The rotation asks nobody twice ----------------------------------------------------------

  /** Where the counter does not show its wrap, a place on from `first` is the plain remainder. */
  lemma PlainPlace(width: nat, first: nat, n: nat, o: nat)
    requires 0 < n <= width && first < width && o < n
    requires first + n <= width || width % n == 0
    ensures PlaceOn(width, first, o, n) == (first + o) % n
  {
    if first + o < width {
      RemainderOf(first + o, 0, width, first + o);
    } else {
      WrapOnAMultiple(first + o, width, n);
    }
  }

  lemma DifferentRemainders(x: nat, y: nat, n: nat)
    requires x < y < x + n
    ensures x % n != y % n
  {
    if x % n == y % n {
      var q := x / n;
      assert x == q * n + x % n;
      SameRemainder(y, q, n, y % n + y - x);
    }
  }

  lemma NobodyTwiceWithoutWrap(width: nat, first: nat, n: nat, o: nat, p: nat)
    requires 0 < n <= width && first < width && o < p < n
    requires first + n <= width || width % n == 0
    ensures PlaceOn(width, first, o, n) != PlaceOn(width, first, p, n)
  {
    PlainPlace(width, first, n, o);
    PlainPlace(width, first, n, p);
    DifferentRemainders(first + o, first + p, n);
  }

  /** Where the wrap falls inside a round: two offsets that share a place, one on either side of it. */
  function AskedTwiceAt(width: nat, first: nat, n: nat): (r: (nat, nat))
    requires 0 < n <= width && first < width && first + n > width && width % n != 0
    ensures r.0 < r.1 < n
  {
    var before := width - first;
    if width % n < before then (before - width % n, before) else (0, width % n)
  }

  lemma SamePlaceTwice(width: nat, first: nat, n: nat)
    requires 0 < n <= width && first < width && first + n > width && width % n != 0
    ensures var (o, p) := AskedTwiceAt(width, first, n); PlaceOn(width, first, o, n) == PlaceOn(width, first, p, n)
  {
    var (o, p) := AskedTwiceAt(width, first, n);
    var before, q, r := width - first, width / n, width % n;
    assert width == q * n + r;
    RemainderOf(first + o, 0, width, first + o);
    RemainderOf(first + p, 1, width, first + p - width);
    if r < before {
      RemainderOf(first + o, q, n, 0);
      RemainderOf(0, 0, n, 0);
    } else {
      RemainderOf(first, q, n, r - before);
      RemainderOf(r - before, 0, n, r - before);
    }
  }

  /** One hand-over asks no consumer twice exactly when the counter does not wrap inside it, or wraps
      between two rounds. */
  lemma RotationAsksNobodyTwice(width: nat, first: nat, n: nat)
    requires 0 < n <= width && first < width
    ensures (forall o, p :: 0 <= o < p < n ==> PlaceOn(width, first, o, n) != PlaceOn(width, first, p, n)) <==>
      first + n <= width || width % n == 0
  {
    if first + n <= width || width % n == 0 {
      forall o: nat, p: nat | o < p < n ensures PlaceOn(width, first, o, n) != PlaceOn(width, first, p, n) {
        NobodyTwiceWithoutWrap(width, first, n, o, p);
      }
    } else {
      SamePlaceTwice(width, first, n);
    }
  }

  // -- One hand-over ---------------------------------------------------------------------------

  /** The places of the consumers asked, in order, up to the first that takes the delivery. */
  function Asked(s: State, ids: seq<nat>, first: nat, offset: nat): seq<nat>
    requires ids != [] && offset <= |ids|
    decreases |ids| - offset
  {
    if offset == |ids| then []
    else [Place(first, offset, |ids|)] +
         if Takes(s, ids[Place(first, offset, |ids|)]) then [] else Asked(s, ids, first, offset + 1)
  }

  lemma {:induction false} AskedInOrder(s: State, ids: seq<nat>, first: nat, offset: nat, k: nat)
    requires ids != [] && offset <= |ids|
    ensures k < |Asked(s, ids, first, offset)| ==>
      offset + k < |ids| && Asked(s, ids, first, offset)[k] == Place(first, offset + k, |ids|)
    decreases k
  {
    if 0 < k < |Asked(s, ids, first, offset)| {
      var rest := Asked(s, ids, first, offset + 1);
      assert Asked(s, ids, first, offset) == [Place(first, offset, |ids|)] + rest;
      AskedInOrder(s, ids, first, offset + 1, k - 1);
    }
  }

  /** Place `i` was asked last, and everyone before it refused. */
  predicate EndsAt(s: State, ids: seq<nat>, places: seq<nat>, i: nat) {
    && places != [] && places[|places| - 1] == i
    && forall j :: 0 <= j < |places| - 1 ==> places[j] < |ids| && !Takes(s, ids[places[j]])
  }

  lemma EndsLater(s: State, ids: seq<nat>, place: nat, places: seq<nat>, i: nat)
    requires EndsAt(s, ids, places, i) && place < |ids| && !Takes(s, ids[place])
    ensures EndsAt(s, ids, [place] + places, i)
  {
  }

  /** The last one asked is the taker, if there is one, and the others refused; otherwise all were asked. */
  lemma {:induction false} AskedUntilTaken(s: State, ids: seq<nat>, first: nat, offset: nat)
    requires ids != [] && offset <= |ids|
    ensures var asked, taker := Asked(s, ids, first, offset), Taker(s, ids, first, offset);
      if taker.Some? then EndsAt(s, ids, asked, taker.value) else |asked| == |ids| - offset
    decreases |ids| - offset
  {
    if offset < |ids| && !Takes(s, ids[Place(first, offset, |ids|)]) {
      AskedUntilTaken(s, ids, first, offset + 1);
      var taker := Taker(s, ids, first, offset + 1);
      if taker.Some? {
        EndsLater(s, ids, Place(first, offset, |ids|), Asked(s, ids, first, offset + 1), taker.value);
      }
    }
  }

  /** The place of the first consumer asked that takes the delivery, or none. */
  function Taker(s: State, ids: seq<nat>, first: nat, offset: nat): Option<nat>
    requires ids != [] && offset <= |ids|
    decreases |ids| - offset
  {
    if offset == |ids| then None
    else if Takes(s, ids[Place(first, offset, |ids|)]) then Some(Place(first, offset, |ids|))
    else Taker(s, ids, first, offset + 1)
  }

  lemma {:induction false} OfferToTaker(s: State, address: string, d: Delivery, ids: seq<nat>, first: nat, offset: nat)
    requires ids != [] && offset <= |ids|
    ensures match Taker(s, ids, first, offset)
      case Some(i) => i < |ids| && Takes(s, ids[i]) && Offer(s, address, d, ids, first, offset) == Send(s, ids[i], d)
      case None =>
        && Offer(s, address, d, ids, first, offset) == Store(s, address, d)
        && forall o :: offset <= o < |ids| ==> !Takes(s, ids[Place(first, o, |ids|)])
    decreases |ids| - offset
  {
    if offset < |ids| && !Takes(s, ids[Place(first, offset, |ids|)]) {
      OfferToTaker(s, address, d, ids, first, offset + 1);
    }
  }

  lemma SomeTaker(s: State, ids: seq<nat>, first: nat, i: nat)
    requires i < |ids| <= WRAP && first < WRAP && Takes(s, ids[i])
    requires first + |ids| <= WRAP || WRAP % |ids| == 0
    ensures Taker(s, ids, first, 0).Some?
  {
    ReachedWithoutWrap(WRAP, first, |ids|, i);
    var o :| 0 <= o < |ids| && PlaceOn(WRAP, first, o, |ids|) == i;
    assert Place(first, o, |ids|) == i;
    OfferToTaker(s, "", Delivery(0, [], map[], None, NoReplyId), ids, first, 0);
  }

  predicate NoneTwice(places: seq<nat>) {
    forall j, k :: 0 <= j < k < |places| ==> places[j] != places[k]
  }

  lemma AskedOnce(s: State, ids: seq<nat>, first: nat)
    requires 0 < |ids| <= WRAP && first < WRAP && (first + |ids| <= WRAP || WRAP % |ids| == 0)
    ensures NoneTwice(Asked(s, ids, first, 0))
  {
    var asked := Asked(s, ids, first, 0);
    forall j: nat, k: nat | j < k < |asked| ensures asked[j] != asked[k] {
      AskedInOrder(s, ids, first, 0, j);
      AskedInOrder(s, ids, first, 0, k);
      NobodyTwiceWithoutWrap(WRAP, first, |ids|, j, k);
    }
  }

  /** What a hand-over comes to, given the rotation asks every consumer: it asks consumers in turn,
      none of them twice, up to the one that takes the delivery; the queue keeps it only when all were
      asked and refused. */
  lemma HandOverFindsAConsumer(s: State, address: string, d: Delivery)
    requires Valid(s)
    requires var n := |Competing(s, address, s.nextId)|;
      n > 0 && n <= WRAP && (Get(s.turn, address, 0) + n <= WRAP || WRAP % n == 0)
    ensures var ids, first := Competing(s, address, s.nextId), Get(s.turn, address, 0);
      var s' := s.(turn := s.turn[address := (first + 1) % WRAP]);
      var asked := Asked(s, ids, first, 0);
      NoneTwice(asked) &&
      match Taker(s, ids, first, 0)
      case Some(i) => i < |ids| && Takes(s, ids[i]) && HandToOne(s, address, d) == Send(s', ids[i], d) && EndsAt(s, ids, asked, i)
      case None => |asked| == |ids| && (forall i :: 0 <= i < |ids| ==> !Takes(s, ids[i])) && HandToOne(s, address, d) == Store(s', address, d)
  {
    var ids, first := Competing(s, address, s.nextId), Get(s.turn, address, 0);
    var s' := s.(turn := s.turn[address := (first + 1) % WRAP]);
    OfferToTaker(s', address, d, ids, first, 0);
    TakerReadsChannels(s, s', ids, first, 0);
    AskedOnce(s, ids, first);
    AskedUntilTaken(s, ids, first, 0);
    forall i | 0 <= i < |ids| && Takes(s, ids[i]) ensures Taker(s, ids, first, 0).Some? {
      SomeTaker(s, ids, first, i);
    }
  }

  lemma {:induction false} TakerReadsChannels(s: State, s': State, ids: seq<nat>, first: nat, offset: nat)
    requires ids != [] && offset <= |ids| && s'.channels == s.channels
    ensures Taker(s', ids, first, offset) == Taker(s, ids, first, offset)
    decreases |ids| - offset
  {
    if offset < |ids| {
      TakerReadsChannels(s, s', ids, first, offset + 1);
    }
  }

  /** Consumer `i` is the only one that takes deliveries. */
  predicate OnlyTaker(s: State, ids: seq<nat>, i: nat) {
    i < |ids| && forall o :: 0 <= o < |ids| && o != i ==> !Takes(s, ids[o])
  }

  /** At a wrap that falls inside a round, a consumer is never asked: where it is the only one that
      would take the delivery, the delivery goes to the queue, or is lost without one. */
  lemma {:induction false} WrapPassesOverAConsumer(s: State, address: string, d: Delivery)
    requires Valid(s)
    ensures var ids, first := Competing(s, address, s.nextId), Get(s.turn, address, 0);
      0 < |ids| <= WRAP && first + |ids| > WRAP && WRAP % |ids| != 0 && OnlyTaker(s, ids, PassedOverAt(WRAP, first, |ids|)) ==>
        HandToOne(s, address, d) == Store(s.(turn := s.turn[address := (first + 1) % WRAP]), address, d)
  {
    var ids := Competing(s, address, s.nextId);
    var first := Get(s.turn, address, 0);
    var s' := s.(turn := s.turn[address := (first + 1) % WRAP]);
    if 0 < |ids| <= WRAP && first + |ids| > WRAP && WRAP % |ids| != 0 {
      MissedAtTheWrap(WRAP, first, |ids|);
      OfferToTaker(s', address, d, ids, first, 0);
      TakerIsAPlace(s', ids, first, 0);
    }
  }

  lemma {:induction false} TakerIsAPlace(s: State, ids: seq<nat>, first: nat, offset: nat)
    requires ids != [] && offset <= |ids|
    ensures var t := Taker(s, ids, first, offset);
      t.Some? ==> t.value < |ids| && Takes(s, ids[t.value]) && Reaches(WRAP, first, |ids|, t.value)
    decreases |ids| - offset
  {
    if offset < |ids| {
      if Takes(s, ids[Place(first, offset, |ids|)]) {
        assert PlaceOn(WRAP, first, offset, |ids|) == Place(first, offset, |ids|);
      } else {
        TakerIsAPlace(s, ids, first, offset + 1);
      }
    }
  }

  /** Three consumers of which only the third still takes deliveries, and the turn before the wrap. */
  function BeforeTheWrap(address: string): State {
    var sub := Subscription(address, Anycast);
    Fresh().(subs := map[0 := sub, 1 := sub, 2 := sub],
             channels := map[0 := Channel(false, []), 1 := Channel(false, []), 2 := Channel(true, [])],
             turn := map[address := WRAP - 1], queues := map[address := []], nextId := 3)
  }

  lemma ThreeCompetitors(address: string)
    ensures Competing(BeforeTheWrap(address), address, 3) == [0, 1, 2]
  {
    var s := BeforeTheWrap(address);
    assert Competing(s, address, 1) == [0];
    assert Competing(s, address, 2) == [0, 1];
  }

  /** The wrap does pass a delivery over: here one consumer would take it, and it is stored. */
  lemma WrapStoresWhatAConsumerWouldTake(address: string, d: Delivery)
    ensures var s := BeforeTheWrap(address);
      && Valid(s) && Competes(s, 2, address) && Takes(s, 2)
      && HandToOne(s, address, d).channels == s.channels && Get(HandToOne(s, address, d).queues, address, []) == [d]
  {
    var s := BeforeTheWrap(address);
    ThreeCompetitors(address);
    assert WRAP % 3 == 1 && PassedOverAt(WRAP, WRAP - 1, 3) == 2;
    WrapPassesOverAConsumer(s, address, d);
  }

  // -- Fair shares -----------------------------------------------------------------------------

  /** How many of the `k` turns from `first` on are consumer `i`'s, among `n`. */
  function Turns(first: nat, n: nat, k: nat, i: nat): nat
    requires n > 0
  {
    if k == 0 then 0 else Turns(first, n, k - 1, i) + if (first + k - 1) % n == i then 1 else 0
  }

  lemma QuotientOf(x: nat, q: nat, n: nat, y: nat)
    requires n > 0 && y < n && x == q * n + y
    ensures x / n == q
  {
    RemainderOf(x, q, n, y);
    var e := x / n - q;
    assert x == (x / n) * n + x % n;
    assert e * n == 0;
    MultipleIsFar(e, n);
  }

  /** How often the quotient of a sliding value goes up by one: at remainder `i` after `n - 1 - i`. */
  lemma QuotientSteps(m: nat, q: nat, r: nat, n: nat, i: nat)
    requires i < n && r < n && m == q * n + r
    ensures (m + n - 1 - i) / n == q + if r > i then 1 else 0
    ensures (m + n - i) / n == q + if r >= i then 1 else 0
  {
    assert (q + 1) * n == q * n + n;
    if r > i {
      QuotientOf(m + n - 1 - i, q + 1, n, r - 1 - i);
    } else {
      QuotientOf(m + n - 1 - i, q, n, r + n - 1 - i);
    }
    if r >= i {
      QuotientOf(m + n - i, q + 1, n, r - i);
    } else {
      QuotientOf(m + n - i, q, n, r + n - i);
    }
  }

  lemma NextQuotient(x: nat, m: nat, n: nat, i: nat)
    requires i < n && x == m + n - i
    ensures x / n == (x - 1) / n + if m % n == i then 1 else 0
  {
    QuotientSteps(m, m / n, m % n, n, i);
  }

  lemma {:induction false} TurnsQuotient(first: nat, n: nat, k: nat, i: nat, a: nat)
    requires i < n && a == first + n - 1 - i
    ensures Turns(first, n, k, i) == (a + k) / n - a / n
  {
    if k > 0 {
      TurnsQuotient(first, n, k - 1, i, a);
      NextQuotient(a + k, first + k - 1, n, i);
    }
  }

  lemma QuotientOfParts(x: nat, p: nat, u: nat, q: nat, v: nat, n: nat)
    requires u < n && v < n && x == p * n + u + q * n + v
    ensures x / n == p + q + if u + v < n then 0 else 1
  {
    var sum := p + q;
    assert sum * n == p * n + q * n;
    if u + v < n {
      QuotientOf(x, sum, n, u + v);
    } else {
      assert (sum + 1) * n == sum * n + n;
      QuotientOf(x, sum + 1, n, u + v - n);
    }
  }

  lemma QuotientOfSum(a: nat, k: nat, n: nat)
    requires n > 0
    ensures k / n <= (a + k) / n - a / n <= k / n + if k % n == 0 then 0 else 1
  {
    QuotientOfParts(a + k, a / n, a % n, k / n, k % n, n);
  }

  /** Of `k` consecutive turns every consumer gets the rounded share: `k / n` of them, or one more
      where `k` is not a multiple of `n`. */
  lemma {:induction false} EveryoneGetsAShare(first: nat, n: nat, k: nat, i: nat)
    requires i < n
    ensures k / n <= Turns(first, n, k, i) <= k / n + if k % n == 0 then 0 else 1
  {
    TurnsQuotient(first, n, k, i, first + n - 1 - i);
    QuotientOfSum(first + n - 1 - i, k, n);
  }

  predicate AllTake(s: State, ids: seq<nat>) {
    forall i :: 0 <= i < |ids| ==> Takes(s, ids[i])
  }

  /** With every receiver open, a hand-over goes to the consumer whose turn it is. */
  lemma HandOverInTurn(s: State, address: string, d: Delivery)
    requires Valid(s) && Competing(s, address, s.nextId) != [] && AllTake(s, Competing(s, address, s.nextId))
    ensures var ids, first := Competing(s, address, s.nextId), Get(s.turn, address, 0);
      HandToOne(s, address, d) ==
        Send(s.(turn := s.turn[address := (first + 1) % WRAP]), ids[first % |ids|], d)
  {
    var first := Get(s.turn, address, 0);
    RemainderOf(first, 0, WRAP, first);
  }

  lemma {:induction false} CompetingDependsOnSubs(s: State, s': State, address: string, n: nat)
    requires s'.subs == s.subs
    ensures Competing(s', address, n) == Competing(s, address, n)
  {
    if n > 0 {
      CompetingDependsOnSubs(s, s', address, n - 1);
    }
  }

  function Queued(s: State, id: nat): seq<Delivery> {
    if id in s.channels then s.channels[id].items else []
  }

  predicate Ascending(ids: seq<nat>) {
    forall i, j :: 0 <= i < j < |ids| ==> ids[i] < ids[j]
  }

  lemma {:induction false} CompetingAscends(s: State, address: string, n: nat)
    ensures Ascending(Competing(s, address, n))
  {
    if n > 0 {
      CompetingAscends(s, address, n - 1);
      var front := Competing(s, address, n - 1);
      forall i | 0 <= i < |front| ensures front[i] < n - 1 {
        assert front[i] in front;
      }
      assert Ascending(front + [n - 1]);
      assert front + [] == front;
    }
  }

  lemma OneHandOver(s: State, address: string, d: Delivery, i: nat)
    requires Valid(s)
    requires var ids := Competing(s, address, s.nextId); i < |ids| && AllTake(s, ids)
    requires Get(s.turn, address, 0) + 1 < WRAP
    ensures var ids, turn, s' := Competing(s, address, s.nextId), Get(s.turn, address, 0), HandToOne(s, address, d);
      && s'.subs == s.subs && s'.nextId == s.nextId && s'.queues == s.queues && Valid(s') && AllTake(s', ids)
      && Get(s'.turn, address, 0) == turn + 1
      && |Queued(s', ids[i])| == |Queued(s, ids[i])| + if turn % |ids| == i then 1 else 0
  {
    HandOverInTurn(s, address, d);
    CompetingAscends(s, address, s.nextId);
    RemainderOf(Get(s.turn, address, 0) + 1, 0, WRAP, Get(s.turn, address, 0) + 1);
  }

  /** Over `k` consecutive hand-overs among unchanged open consumers, before the counter wraps, each
      consumer's channel grows by its share of the turns, and nothing is stored or lost. */
  lemma {:induction false} FairHandOvers(s: State, address: string, ds: seq<Delivery>, i: nat)
    requires Valid(s)
    requires var ids := Competing(s, address, s.nextId); i < |ids| && AllTake(s, ids)
    requires Get(s.turn, address, 0) + |ds| < WRAP
    ensures var ids, s' := Competing(s, address, s.nextId), HandAll(s, address, ds);
      && s'.subs == s.subs && s'.nextId == s.nextId && s'.queues == s.queues && Valid(s') && AllTake(s', ids)
      && Get(s'.turn, address, 0) == Get(s.turn, address, 0) + |ds|
      && |Queued(s', ids[i])| == |Queued(s, ids[i])| + Turns(Get(s.turn, address, 0), |ids|, |ds|, i)
  {
    if ds != [] {
      var front := ds[..|ds| - 1];
      FairHandOvers(s, address, front, i);
      var s1 := HandAll(s, address, front);
      CompetingDependsOnSubs(s, s1, address, s.nextId);
      OneHandOver(s1, address, ds[|ds| - 1], i);
    }
  }

  lemma {:induction false} FairRotation(s: State, address: string, ds: seq<Delivery>, i: nat)
    requires Valid(s)
    requires var ids := Competing(s, address, s.nextId); i < |ids| && AllTake(s, ids)
    requires Get(s.turn, address, 0) + |ds| < WRAP
    ensures var ids := Competing(s, address, s.nextId);
      var grown := |Queued(HandAll(s, address, ds), ids[i])| - |Queued(s, ids[i])|;
      |ds| / |ids| <= grown <= |ds| / |ids| + if |ds| % |ids| == 0 then 0 else 1
  {
    FairHandOvers(s, address, ds, i);
    EveryoneGetsAShare(Get(s.turn, address, 0), |Competing(s, address, s.nextId)|, |ds|, i);
  }
}
