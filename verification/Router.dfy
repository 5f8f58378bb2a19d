/** The in-process subscription registry and its routing. Every operation runs under the registry's
    lock, so it is one step. `State` is the registry with the channels its subscriptions read. */
module Router {
  import opened Common
  import opened Message

  datatype Routing = Anycast | Multicast

  /** One delivery. `serial` says which publish of the run it stems from; no code reads it. */
  datatype Delivery = Delivery(serial: nat, payload: Bytes, headers: Headers, count: Option<nat>, replyId: ReplyId)

  datatype Logged = Logged(payload: Bytes, headers: Headers)

  datatype Subscription = Subscription(address: string, routing: Routing)

  /** The channel of one subscription. A send to a channel whose receiver closed it is refused. */
  datatype Channel = Channel(open: bool, items: seq<Delivery>)

  datatype State = State(
    subs: map<nat, Subscription>,
    channels: map<nat, Channel>,
    log: map<string, seq<Logged>>,
    turn: map<string, nat>,
    queues: map<string, seq<Delivery>>,
    outstanding: map<nat, seq<Delivery>>,
    nextId: nat,
    closed: bool)

  /** The width of the turn counter: it wraps there. */
  const WRAP: nat := 0x1_0000_0000_0000_0000

  predicate Valid(s: State) {
    && (forall id :: id in s.subs ==> id < s.nextId && id in s.channels)
    && (forall id :: id in s.channels ==> id < s.nextId)
    && (forall id :: id in s.outstanding ==> id < s.nextId)
    && (forall a :: a in s.turn ==> s.turn[a] < WRAP)
  }

  function Fresh(): State {
    State(map[], map[], map[], map[], map[], map[], 0, false)
  }

  function Get<K, V>(m: map<K, V>, k: K, default: V): V {
    if k in m then m[k] else default
  }

  predicate At(s: State, id: nat, address: string) {
    id in s.subs && s.subs[id].address == address
  }

  predicate Competes(s: State, id: nat, address: string) {
    At(s, id, address) && s.subs[id].routing.Anycast?
  }

  /** The subscriptions on `address` with ids below `n`, in attach order. */
  function Attached(s: State, address: string, n: nat): seq<nat> {
    if n == 0 then []
    else Attached(s, address, n - 1) + if At(s, n - 1, address) then [n - 1] else []
  }

  /** The competing ones among them, in attach order. */
  function Competing(s: State, address: string, n: nat): (ids: seq<nat>)
    ensures forall id: nat :: id in ids <==> id < n && Competes(s, id, address)
  {
    if n == 0 then []
    else Competing(s, address, n - 1) + if Competes(s, n - 1, address) then [n - 1] else []
  }

  predicate Takes(s: State, id: nat) {
    id in s.channels && s.channels[id].open
  }

  function Push(c: Channel, d: Delivery): Channel {
    if c.open then c.(items := c.items + [d]) else c
  }

  function Send(s: State, id: nat, d: Delivery): State {
    if id in s.channels then s.(channels := s.channels[id := Push(s.channels[id], d)]) else s
  }

  /** The address's queue keeps the delivery, where the address has one. */
  function Store(s: State, address: string, d: Delivery): State {
    if address in s.queues then s.(queues := s.queues[address := s.queues[address] + [d]]) else s
  }

  /** Whose turn an offer is: `offset` places on from `first`, on a counter that wraps at `width`. */
  function PlaceOn(width: nat, first: nat, offset: nat, n: nat): (i: nat)
    requires n > 0 && width > 0
    ensures i < n
  {
    (first + offset) % width % n
  }

  function Place(first: nat, offset: nat, n: nat): (i: nat)
    requires n > 0
    ensures i < n
  {
    PlaceOn(WRAP, first, offset, n)
  }

  /** Offers the delivery from place `offset` on, until one takes it; the queue keeps it if none does. */
  function Offer(s: State, address: string, d: Delivery, ids: seq<nat>, first: nat, offset: nat): State
    requires ids != [] && offset <= |ids|
    decreases |ids| - offset
  {
    if offset == |ids| then Store(s, address, d)
    else if Takes(s, ids[Place(first, offset, |ids|)]) then Send(s, ids[Place(first, offset, |ids|)], d)
    else Offer(s, address, d, ids, first, offset + 1)
  }

  function HandToOne(s: State, address: string, d: Delivery): State {
    var ids := Competing(s, address, s.nextId);
    if ids == [] then Store(s, address, d)
    else
      var first := Get(s.turn, address, 0);
      Offer(s.(turn := s.turn[address := (first + 1) % WRAP]), address, d, ids, first, 0)
  }

  function HandAll(s: State, address: string, ds: seq<Delivery>): State {
    if ds == [] then s else HandToOne(HandAll(s, address, ds[..|ds| - 1]), address, ds[|ds| - 1])
  }

  /** A copy to every topic subscription of the address outside `left`. */
  function CopyOutside(s: State, address: string, d: Delivery, left: set<nat>): State {
    s.(channels := map id | id in s.channels ::
         if id !in left && At(s, id, address) && s.subs[id].routing.Multicast? then Push(s.channels[id], d) else s.channels[id])
  }

  function Copy(s: State, address: string, d: Delivery): State {
    CopyOutside(s, address, d, {})
  }

  lemma CopyNone(s: State, address: string, d: Delivery)
    ensures CopyOutside(s, address, d, s.subs.Keys) == s
  {
    assert CopyOutside(s, address, d, s.subs.Keys).channels == s.channels;
  }

  lemma CopyOneMore(s: State, address: string, d: Delivery, left: set<nat>, id: nat)
    requires id in left && id in s.subs && id in s.channels
    ensures CopyOutside(s, address, d, left - {id}) ==
      if At(s, id, address) && s.subs[id].routing.Multicast? then Send(CopyOutside(s, address, d, left), id, d)
      else CopyOutside(s, address, d, left)
  {
    var next := CopyOutside(s, address, d, left - {id});
    var now := CopyOutside(s, address, d, left);
    if At(s, id, address) && s.subs[id].routing.Multicast? {
      assert next.channels == now.channels[id := Push(s.channels[id], d)];
    } else {
      assert next.channels == now.channels;
    }
  }

  function Note(s: State, address: string, d: Delivery): State {
    s.(log := s.log[address := Get(s.log, address, []) + [Logged(d.payload, d.headers)]])
  }

  function PublishOne(s: State, address: string, d: Delivery): State {
    HandToOne(Copy(Note(s, address, d), address, d), address, d)
  }

  function PublishAll(s: State, messages: seq<(string, Delivery)>): State {
    if messages == [] then s
    else PublishOne(PublishAll(s, messages[..|messages| - 1]), messages[|messages| - 1].0, messages[|messages| - 1].1)
  }

  /** A queue subscription creates the address's queue, or takes over what it holds. */
  function Subscribe(s: State, address: string, routing: Routing): State {
    var id := s.nextId;
    var s' := s.(nextId := id + 1);
    if s.closed then s'
    else
      s'.(subs := s.subs[id := Subscription(address, routing)],
          channels := s.channels[id := Channel(true, if routing.Anycast? then Get(s.queues, address, []) else [])],
          queues := if routing.Anycast? then s.queues[address := []] else s.queues)
  }

  /** The queue goes once it is empty with no consumer left. */
  function Prune(s: State, address: string): State {
    if Competing(s, address, s.nextId) == [] && address in s.queues && s.queues[address] == []
    then s.(queues := s.queues - {address}) else s
  }

  function Unsubscribe(s: State, id: nat, pending: seq<Delivery>): State {
    if id !in s.subs then s
    else
      var sub := s.subs[id];
      var held := Get(s.outstanding, id, []);
      var s' := s.(subs := s.subs - {id}, outstanding := s.outstanding - {id});
      Prune(if sub.routing.Anycast? then HandAll(s', sub.address, held + pending) else s', sub.address)
  }

  function Release(s: State, id: nat, address: string, d: Delivery): State {
    if s.closed then s
    else if id in s.subs then s.(outstanding := s.outstanding[id := Get(s.outstanding, id, []) + [d]])
    else HandToOne(s, address, d)
  }

  function Requeue(s: State, id: nat, address: string, d: Delivery): State {
    if s.closed then s else if id in s.subs then Send(s, id, d) else HandToOne(s, address, d)
  }

  function Close(s: State): State {
    s.(closed := true, subs := map[], turn := map[], queues := map[], outstanding := map[])
  }

  /** Whether the next publish reaches the subscription: a topic one always, a queue one on its turn. */
  predicate Reached(s: State, address: string, id: nat)
    requires Valid(s) && At(s, id, address)
  {
    s.subs[id].routing.Multicast? ||
    assert id in Competing(s, address, s.nextId);
    |Competing(s, address, id)| == Get(s.turn, address, 0) % |Competing(s, address, s.nextId)|
  }
}
