/**
 The message side of the provider queues: where every pooled `ChannelMessage` is, and which
 reply channels are wired to it.

 `Places` holds the channel buffers of all provider queues, the message pool and the one message
 each goroutine may have in hand; `Replies` holds the one-slot reply channels and their pool.
 A handful of primitive moves are the only ways the gateway touches them; each keeps `Valid`,
 from which "every message is in exactly one place" follows.
 */
module MessageStore {
  import opened Options

  type Msg = nat
  type Req = nat
  type Provider = nat

  /** The `n`-th queue made for provider `p`, and the `k`-th worker started on it. */
  datatype QId = QId(p: Provider, n: nat)
  datatype WId = WId(q: QId, k: nat)

  /** The three kinds of reply channel a message carries; `Stream` only for streaming requests. */
  datatype Port = Response | Failure | Stream

  /** A pooled reply channel. Each has a buffer of one slot. */
  datatype Chan = Chan(port: Port, id: nat)

  /** The goroutines that can have one message in hand. */
  datatype Holder =
    | ByProducer(r: Req)
    | ByWorker(w: WId)
    | ByController(p: Provider)
    | ByCleanup(q: QId)
    | ByShutdown

  datatype Place = Pooled | InHand(h: Holder) | InQueue(q: QId) | Settled

  /** A channel buffer with its history: everything ever sent and everything ever received. */
  datatype Buffer = Buffer(items: seq<Msg>, capacity: nat, sent: seq<Msg>, received: seq<Msg>)

  /** `home` is auxiliary: the place each message was last put. No guard of a move reads it. */
  datatype Places = Places(
    buffers: map<QId, Buffer>,
    pool: set<Msg>,
    held: map<Holder, Msg>,
    settled: set<Msg>,
    home: map<Msg, Place>)

  /**
   `wires[m]` are the channels of message `m`, `idle` the channels in the pools, `full` the
   channels with a value in their slot. `lead` is auxiliary: whom each channel was last given to.
   */
  datatype Replies = Replies(
    owner: map<Msg, Req>,
    wires: map<Msg, set<Chan>>,
    idle: set<Chan>,
    full: set<Chan>,
    lead: map<Chan, Option<Msg>>)

  datatype Store = Store(at: Places, rp: Replies)

  const EMPTY_STORE := Store(Places(map[], {}, map[], {}, map[]), Replies(map[], map[], {}, {}, map[]))

  /** One response channel, one error channel, and a stream channel just for streaming requests. */
  ghost predicate WellWired(cs: set<Chan>, stream: bool) {
    && (exists c :: c in cs && c.port == Response)
    && (exists c :: c in cs && c.port == Failure)
    && (stream <==> exists c :: c in cs && c.port == Stream)
    && (forall c, d :: c in cs && d in cs && c.port == d.port ==> c == d)
  }

  ghost predicate AtPlace(at: Places, m: Msg, pl: Place) {
    match pl
    case Pooled => m in at.pool
    case InHand(h) => h in at.held && at.held[h] == m
    case InQueue(q) => q in at.buffers && m in at.buffers[q].items
    case Settled => m in at.settled
  }

  ghost predicate Distinct<T>(s: seq<T>) {
    forall i, j :: 0 <= i < j < |s| ==> s[i] != s[j]
  }

  // ----- the invariant -----

  ghost predicate PoolOk(at: Places) {
    && (forall m :: m in at.pool <==> m in at.home && at.home[m] == Pooled)
    && (forall m :: m in at.settled <==> m in at.home && at.home[m] == Settled)
  }

  ghost predicate HandsOk(at: Places) {
    && (forall h :: h in at.held ==> at.held[h] in at.home && at.home[at.held[h]] == InHand(h))
    && (forall m :: m in at.home && at.home[m].InHand? ==> at.home[m].h in at.held && at.held[at.home[m].h] == m)
  }

  ghost predicate QueuedOk(at: Places) {
    && (forall q, m :: q in at.buffers && m in at.buffers[q].items ==> m in at.home && at.home[m] == InQueue(q))
    && (forall m :: m in at.home && at.home[m].InQueue? ==>
          at.home[m].q in at.buffers && m in at.buffers[at.home[m].q].items)
  }

  ghost predicate BufferOk(b: Buffer) {
    && Distinct(b.items)
    && |b.items| <= b.capacity
    && b.sent == b.received + b.items
  }

  ghost predicate BuffersOk(at: Places) {
    forall q :: q in at.buffers ==> BufferOk(at.buffers[q])
  }

  ghost predicate WiresOk(rp: Replies) {
    && rp.owner.Keys == rp.wires.Keys
    && (forall m, c :: m in rp.wires && c in rp.wires[m] ==> c in rp.lead && rp.lead[c] == Some(m))
    && (forall c :: c in rp.idle ==> c in rp.lead && rp.lead[c] == None)
  }

  /** A buffered value sits on a channel wired to some message, on one of its channels at most. */
  ghost predicate FullOk(rp: Replies) {
    && (forall c :: c in rp.full ==>
          c in rp.lead && rp.lead[c].Some? && rp.lead[c].value in rp.wires && c in rp.wires[rp.lead[c].value])
    && (forall c, d :: c in rp.full && d in rp.full && rp.lead[c] == rp.lead[d] ==> c == d)
  }

  /** Channels belong exactly to the messages outside the pool; only settled messages carry a reply. */
  ghost predicate Linked(st: Store) {
    && (forall m :: m in st.rp.wires <==> m in st.at.home && st.at.home[m] != Pooled)
    && (forall c :: c in st.rp.full && c in st.rp.lead && st.rp.lead[c].Some? ==> st.rp.lead[c].value in st.at.settled)
  }

  ghost predicate PlacesOk(at: Places) {
    PoolOk(at) && HandsOk(at) && QueuedOk(at) && BuffersOk(at)
  }

  ghost predicate Valid(st: Store) {
    PlacesOk(st.at) && WiresOk(st.rp) && FullOk(st.rp) && Linked(st)
  }

  /** Every message ever allocated is at one place, at no second place, and in one slot of it. */
  lemma ExactlyOnePlace(st: Store, m: Msg)
    requires Valid(st) && m in st.at.home
    ensures exists pl :: AtPlace(st.at, m, pl) && forall other :: AtPlace(st.at, m, other) ==> other == pl
    ensures forall q, i, j ::
              (q in st.at.buffers && 0 <= i < j < |st.at.buffers[q].items|) ==>
              !(st.at.buffers[q].items[i] == m && st.at.buffers[q].items[j] == m)
  {
    hide WiresOk, FullOk, Linked;
    forall q, i, j | q in st.at.buffers && 0 <= i < j < |st.at.buffers[q].items|
      ensures !(st.at.buffers[q].items[i] == m && st.at.buffers[q].items[j] == m)
    {
      assert BufferOk(st.at.buffers[q]);
    }
    assert AtPlace(st.at, m, st.at.home[m]);
  }

  /** Two messages outside the pool never share a reply channel, nor one with the channel pools. */
  lemma ChannelsNotShared(st: Store, m: Msg, n: Msg)
    requires Valid(st) && m in st.rp.wires && n in st.rp.wires && m != n
    ensures st.rp.wires[m] !! st.rp.wires[n]
    ensures st.rp.wires[m] !! st.rp.idle
  {
    forall c | c in st.rp.wires[m] ensures c !in st.rp.wires[n] && c !in st.rp.idle {
      assert st.rp.lead[c] == Some(m);
    }
  }

  /** A message that is queued or in hand has an empty slot on each of its channels. */
  lemma SlotsEmptyUntilSettled(st: Store, m: Msg)
    requires Valid(st) && m in st.at.home
    requires st.at.home[m].InHand? || st.at.home[m].InQueue?
    ensures m in st.rp.wires && m in st.rp.owner && st.rp.wires[m] !! st.rp.full
  {
    forall c | c in st.rp.wires[m] ensures c !in st.rp.full {
      assert st.rp.lead[c] == Some(m);
    }
  }

  // ----- primitive moves -----

  /** getChannelMessage takes a message and channels that are pooled or brand new. */
  ghost predicate CanAcquire(st: Store, r: Req, m: Msg, cs: set<Chan>, stream: bool) {
    && ByProducer(r) !in st.at.held
    && (m in st.at.pool || m !in st.at.home)
    && WellWired(cs, stream)
    && (forall c :: c in cs ==> c in st.rp.idle || forall n :: n in st.rp.wires ==> c !in st.rp.wires[n])
  }

  function PlaceAcquired(at: Places, r: Req, m: Msg): Places {
    at.(pool := at.pool - {m}, held := at.held[ByProducer(r) := m], home := at.home[m := InHand(ByProducer(r))])
  }

  function WireUp(rp: Replies, r: Req, m: Msg, cs: set<Chan>): Replies {
    rp.(owner := rp.owner[m := r],
        wires := rp.wires[m := cs],
        idle := rp.idle - cs,
        full := rp.full - cs,
        lead := map c | c in rp.lead.Keys + cs :: if c in cs then Some(m) else rp.lead[c])
  }

  /** getChannelMessage, with its drain of the channels it was given. */
  function Acquire(st: Store, r: Req, m: Msg, cs: set<Chan>): Store {
    Store(PlaceAcquired(st.at, r, m), WireUp(st.rp, r, m, cs))
  }

  /** A producer that still has the message in hand puts it back. */
  function PlaceReturned(at: Places, r: Req, m: Msg): Places {
    at.(pool := at.pool + {m}, held := at.held - {ByProducer(r)}, home := at.home[m := Pooled])
  }

  /** A producer that received its reply puts the settled message back. */
  function PlaceRecycled(at: Places, m: Msg): Places {
    at.(pool := at.pool + {m}, settled := at.settled - {m}, home := at.home[m := Pooled])
  }

  function Unwire(rp: Replies, m: Msg): Replies
    requires m in rp.wires
  {
    rp.(owner := rp.owner - {m},
        wires := rp.wires - {m},
        idle := rp.idle + rp.wires[m],
        full := rp.full - rp.wires[m],
        lead := map c | c in rp.lead.Keys + rp.wires[m] :: if c in rp.wires[m] then None else rp.lead[c])
  }

  /** releaseChannelMessage by a producer whose message was never enqueued. */
  function Return(st: Store, r: Req): Store
    requires ByProducer(r) in st.at.held && st.at.held[ByProducer(r)] in st.rp.wires
  {
    var m := st.at.held[ByProducer(r)];
    Store(PlaceReturned(st.at, r, m), Unwire(st.rp, m))
  }

  /** releaseChannelMessage by a producer that has its reply. */
  function Recycle(st: Store, m: Msg): Store
    requires m in st.rp.wires
  {
    Store(PlaceRecycled(st.at, m), Unwire(st.rp, m))
  }

  predicate HasRoom(at: Places, q: QId) {
    q in at.buffers && |at.buffers[q].items| < at.buffers[q].capacity
  }

  predicate HasItem(at: Places, q: QId) {
    q in at.buffers && |at.buffers[q].items| > 0
  }

  predicate IsDrained(at: Places, q: QId) {
    q in at.buffers && at.buffers[q].items == []
  }

  /** `queue <- msg` by the goroutine that has the message in hand. */
  function Offer(at: Places, h: Holder, q: QId): Places
    requires h in at.held && HasRoom(at, q)
  {
    var m, b := at.held[h], at.buffers[q];
    at.(held := at.held - {h},
        buffers := at.buffers[q := b.(items := b.items + [m], sent := b.sent + [m])],
        home := at.home[m := InQueue(q)])
  }

  /** `msg := <-queue` */
  function Take(at: Places, q: QId, h: Holder): Places
    requires HasItem(at, q) && h !in at.held
  {
    var b := at.buffers[q];
    var m := b.items[0];
    at.(held := at.held[h := m],
        buffers := at.buffers[q := b.(items := b.items[1..], received := b.received + [m])],
        home := at.home[m := InHand(h)])
  }

  /** The holder lets go of the message for good. */
  function LetGo(at: Places, h: Holder): Places
    requires h in at.held
  {
    var m := at.held[h];
    at.(held := at.held - {h}, settled := at.settled + {m}, home := at.home[m := Settled])
  }

  /** The holder settles the message after sending a value on the channels in `reply` (one or none). */
  function Settle(st: Store, h: Holder, reply: set<Chan>): Store
    requires h in st.at.held
  {
    Store(LetGo(st.at, h), st.rp.(full := st.rp.full + reply))
  }

  /** The waiting caller receives the value buffered on `c`. */
  function Receive(st: Store, c: Chan): Store {
    st.(rp := st.rp.(full := st.rp.full - {c}))
  }

  function AddBuffer(at: Places, q: QId, capacity: nat): Places {
    at.(buffers := at.buffers[q := Buffer([], capacity, [], [])])
  }

  // ----- each move keeps the invariant -----

  lemma WireUpOk(rp: Replies, r: Req, m: Msg, cs: set<Chan>)
    requires WiresOk(rp) && FullOk(rp) && m !in rp.wires
    requires forall c :: c in cs ==> c in rp.idle || forall n :: n in rp.wires ==> c !in rp.wires[n]
    ensures WiresOk(WireUp(rp, r, m, cs)) && FullOk(WireUp(rp, r, m, cs))
    ensures WireUp(rp, r, m, cs).full == rp.full
  {
    assert forall c :: c in rp.full ==> c !in cs;
  }

  lemma UnwireOk(rp: Replies, m: Msg)
    requires WiresOk(rp) && FullOk(rp) && m in rp.wires
    ensures WiresOk(Unwire(rp, m)) && FullOk(Unwire(rp, m))
  {
    var rp' := Unwire(rp, m);
    forall n, c | n in rp'.wires && c in rp'.wires[n] ensures c !in rp.wires[m] {
      assert rp.lead[c] == Some(n);
    }
  }

  lemma AcquirePlacesOk(at: Places, r: Req, m: Msg)
    requires PlacesOk(at) && ByProducer(r) !in at.held && (m in at.pool || m !in at.home)
    ensures PlacesOk(PlaceAcquired(at, r, m))
  {
    var at' := PlaceAcquired(at, r, m);
    assert QueuedOk(at');
    assert HandsOk(at');
  }

  lemma AcquireKeepsValid(st: Store, r: Req, m: Msg, cs: set<Chan>, stream: bool)
    requires Valid(st) && CanAcquire(st, r, m, cs, stream)
    ensures Valid(Acquire(st, r, m, cs))
  {
    AcquirePlacesOk(st.at, r, m);
    WireUpOk(st.rp, r, m, cs);
    var st' := Acquire(st, r, m, cs);
    forall c | c in st'.rp.full ensures st'.rp.lead[c] == st.rp.lead[c] {
    }
  }

  lemma ReturnPlacesOk(at: Places, r: Req)
    requires PlacesOk(at) && ByProducer(r) in at.held
    ensures PlacesOk(PlaceReturned(at, r, at.held[ByProducer(r)]))
  {
    var at' := PlaceReturned(at, r, at.held[ByProducer(r)]);
    assert QueuedOk(at');
    assert HandsOk(at');
  }

  lemma UnwireLinked(st: Store, at': Places, m: Msg)
    requires Linked(st) && WiresOk(st.rp) && FullOk(st.rp) && m in st.rp.wires
    requires at'.home == st.at.home[m := Pooled] && at'.settled == st.at.settled - {m}
    ensures Linked(Store(at', Unwire(st.rp, m)))
  {
    var rp' := Unwire(st.rp, m);
    forall c | c in rp'.full && c in rp'.lead && rp'.lead[c].Some? ensures rp'.lead[c].value in at'.settled {
      assert rp'.lead[c] == st.rp.lead[c] && st.rp.lead[c].value != m;
    }
  }

  lemma ReturnKeepsValid(st: Store, r: Req)
    requires Valid(st) && ByProducer(r) in st.at.held
    ensures st.at.held[ByProducer(r)] in st.rp.wires
    ensures Valid(Return(st, r))
  {
    var m := st.at.held[ByProducer(r)];
    ReturnPlacesOk(st.at, r);
    UnwireOk(st.rp, m);
    assert st.at.settled == st.at.settled - {m};
    UnwireLinked(st, PlaceReturned(st.at, r, m), m);
  }

  lemma RecyclePlacesOk(at: Places, m: Msg)
    requires PlacesOk(at) && m in at.settled
    ensures PlacesOk(PlaceRecycled(at, m))
  {
    var at' := PlaceRecycled(at, m);
    assert QueuedOk(at');
    assert HandsOk(at');
  }

  lemma RecycleKeepsValid(st: Store, m: Msg)
    requires Valid(st) && m in st.at.settled
    ensures m in st.rp.wires
    ensures Valid(Recycle(st, m))
  {
    RecyclePlacesOk(st.at, m);
    UnwireOk(st.rp, m);
    UnwireLinked(st, PlaceRecycled(st.at, m), m);
  }

  lemma OfferQueuedOk(at: Places, h: Holder, q: QId)
    requires QueuedOk(at) && BuffersOk(at) && h in at.held && HasRoom(at, q)
    requires at.held[h] in at.home && at.home[at.held[h]] == InHand(h)
    ensures QueuedOk(Offer(at, h, q)) && BuffersOk(Offer(at, h, q))
  {
    var at', m, b := Offer(at, h, q), at.held[h], at.buffers[q];
    assert BufferOk(b);
    assert m !in b.items;
    assert forall n :: n in at'.buffers[q].items <==> n == m || n in b.items;
    assert b.sent + [m] == b.received + (b.items + [m]);
    assert BufferOk(at'.buffers[q]);
  }

  lemma OfferKeepsValid(st: Store, h: Holder, q: QId)
    requires Valid(st) && h in st.at.held && HasRoom(st.at, q)
    ensures Valid(st.(at := Offer(st.at, h, q)))
  {
    OfferQueuedOk(st.at, h, q);
    OfferRestOk(st, h, q);
  }

  lemma OfferRestOk(st: Store, h: Holder, q: QId)
    requires PoolOk(st.at) && HandsOk(st.at) && Linked(st) && h in st.at.held && HasRoom(st.at, q)
    ensures PoolOk(Offer(st.at, h, q)) && HandsOk(Offer(st.at, h, q)) && Linked(st.(at := Offer(st.at, h, q)))
  {
  }

  lemma TakeQueuedOk(at: Places, q: QId, h: Holder)
    requires QueuedOk(at) && BuffersOk(at) && HasItem(at, q) && h !in at.held
    ensures QueuedOk(Take(at, q, h)) && BuffersOk(Take(at, q, h))
  {
    var at', b := Take(at, q, h), at.buffers[q];
    var m := b.items[0];
    assert BufferOk(b);
    assert b.items == [m] + b.items[1..];
    assert forall n :: n in b.items <==> n == m || n in b.items[1..];
    assert m !in b.items[1..];
    assert b.sent == (b.received + [m]) + b.items[1..];
    assert BufferOk(at'.buffers[q]);
    assert m in b.items && at.home[m] == InQueue(q);
  }

  lemma TakeRestOk(st: Store, q: QId, h: Holder)
    requires PoolOk(st.at) && HandsOk(st.at) && Linked(st) && HasItem(st.at, q) && h !in st.at.held
    requires st.at.buffers[q].items[0] in st.at.home && st.at.home[st.at.buffers[q].items[0]] == InQueue(q)
    ensures PoolOk(Take(st.at, q, h)) && HandsOk(Take(st.at, q, h)) && Linked(st.(at := Take(st.at, q, h)))
  {
  }

  lemma TakeKeepsValid(st: Store, q: QId, h: Holder)
    requires Valid(st) && HasItem(st.at, q) && h !in st.at.held
    ensures Valid(st.(at := Take(st.at, q, h)))
  {
    TakeQueuedOk(st.at, q, h);
    assert st.at.buffers[q].items[0] in st.at.buffers[q].items;
    TakeRestOk(st, q, h);
  }

  lemma LetGoOk(at: Places, h: Holder)
    requires PlacesOk(at) && h in at.held
    ensures PlacesOk(LetGo(at, h))
  {
    var at' := LetGo(at, h);
    assert QueuedOk(at');
    assert HandsOk(at');
  }

  lemma SettleRepliesOk(st: Store, h: Holder, reply: set<Chan>)
    requires WiresOk(st.rp) && FullOk(st.rp) && Linked(st)
    requires h in st.at.held && st.at.held[h] in st.rp.wires && st.at.held[h] !in st.at.settled
    requires st.at.held[h] in st.at.home && st.at.home[st.at.held[h]] == InHand(h)
    requires reply <= st.rp.wires[st.at.held[h]]
    requires forall c, d :: c in reply && d in reply ==> c == d
    ensures var st' := Settle(st, h, reply); WiresOk(st'.rp) && FullOk(st'.rp) && Linked(st')
  {
    var st' := Settle(st, h, reply);
    assert forall c :: c in reply ==> st.rp.lead[c] == Some(st.at.held[h]);
    assert forall c :: c in st.rp.full ==> st.rp.lead[c] != Some(st.at.held[h]);
    assert FullOk(st'.rp);
  }

  lemma SettleKeepsValid(st: Store, h: Holder, reply: set<Chan>)
    requires Valid(st) && h in st.at.held
    requires st.at.held[h] in st.rp.wires ==> reply <= st.rp.wires[st.at.held[h]]
    requires forall c, d :: c in reply && d in reply ==> c == d
    ensures Valid(Settle(st, h, reply))
  {
    LetGoOk(st.at, h);
    SettleRepliesOk(st, h, reply);
  }

  lemma ReceiveKeepsValid(st: Store, c: Chan)
    requires Valid(st)
    ensures Valid(Receive(st, c))
  {
  }

  lemma AddBufferKeepsValid(st: Store, q: QId, capacity: nat)
    requires Valid(st) && q !in st.at.buffers
    ensures Valid(st.(at := AddBuffer(st.at, q, capacity)))
  {
    var at' := AddBuffer(st.at, q, capacity);
    assert BufferOk(at'.buffers[q]);
    assert QueuedOk(at');
    assert HandsOk(at');
  }
}
