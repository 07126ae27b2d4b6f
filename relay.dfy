/**
 * The relay hand-off of the man-in-the-middle proxy. Two protocol instances
 * share two Twisted DeferredQueues: the leg facing the real client
 * (`ProxyServer`, origin "client") puts what it receives on the upstream queue
 * and takes from the downstream one; the leg facing the real server
 * (`ProxyClient`, origin "server") does the opposite. A lost connection puts
 * the `False` sentinel (`Closed` here) on the queue towards the peer, and the
 * peer closes its own connection when it takes it.
 *
 * Callbacks are run synchronously, as DeferredQueue does: `put` hands a frame
 * straight to a waiting `get`, and a `get` on a queue with frames pending is
 * answered at once, so one delivery may drain the queue.
 */
module RelayEngine {
  import opened Common
  import opened Hex
  import opened CaptureLogger

  /** What travels through a hand-off queue: received bytes, or the sentinel. */
  datatype Frame = Data(bytes: seq<byte>) | Closed

  /**
   * A DeferredQueue: the frames put and not yet taken, the number of `get`
   * calls still waiting for a frame, and every frame ever put (a trace).
   */
  datatype Queue = Queue(pending: seq<Frame>, waiters: nat, history: seq<Frame>)

  const EmptyQueue := Queue([], 0, [])

  /** The leg facing the real client (`ProxyServer`) and the one facing the real server (`ProxyClient`). */
  datatype Side = ClientSide | ServerSide

  function Peer(side: Side): (p: Side)
    ensures p != side
  {
    if side == ClientSide then ServerSide else ClientSide
  }

  /** The direction tag a leg logs its received data under. */
  function Origin(side: Side): string {
    if side == ClientSide then "client" else "server"
  }

  /**
   * What a leg reports or raises instead of relaying: the message for data it
   * cannot send on (`tx` is None), the AttributeError of `None.get()` once
   * `rx` is None, and the AttributeError of a server leg whose `connectionMade`
   * has not run (it has no `origin`, `log`, `rx` or `tx` yet).
   */
  datatype Note = Undeliverable | NoReceiveQueue | NotConnected

  /**
   * One `ProxyProtocol` instance: whether `rx` and `tx` are set, the frames
   * handed to `proxyDataReceived`, the payloads written to its transport,
   * whether it called `loseConnection`, and its notes.
   */
  datatype Leg = Leg(hasRx: bool, hasTx: bool, received: seq<Frame>, written: seq<seq<byte>>,
                     losing: bool, notes: seq<Note>)

  /** Both legs, both queues, the shared Logger, and whether `reactor.stop` has been called. */
  datatype Proxy = Proxy(up: Queue, down: Queue, client: Leg, server: Leg, log: LogState, stopped: bool)

  /**
   * The proxy before any connection: `ProxyServerFactory` gives the client leg
   * both queues; the server leg gets its queues when it connects.
   */
  function Initial(log: LogState): (r: Proxy)
    ensures r.client.hasRx && r.client.hasTx && !r.server.hasRx && !r.server.hasTx
    ensures r.up.history == [] && r.down.history == [] && r.log == log && !r.stopped
  {
    Proxy(EmptyQueue, EmptyQueue, Leg(true, true, [], [], false, []), Leg(false, false, [], [], false, []), log, false)
  }

  /** The queue a leg takes from: downstream for the client leg, upstream for the server leg. */
  function RxOf(r: Proxy, side: Side): Queue {
    if side == ClientSide then r.down else r.up
  }

  function LegOf(r: Proxy, side: Side): Leg {
    if side == ClientSide then r.client else r.server
  }

  /** A leg and the queue it takes from, as one `get`/callback chain leaves them. */
  datatype Hand = Hand(q: Queue, leg: Leg)

  /** The proxy with one leg and its receive queue replaced. */
  function Set(r: Proxy, side: Side, h: Hand): (r': Proxy)
    ensures RxOf(r', side) == h.q && LegOf(r', side) == h.leg
    ensures RxOf(r', Peer(side)) == RxOf(r, Peer(side)) && LegOf(r', Peer(side)) == LegOf(r, Peer(side))
    ensures r'.log == r.log && r'.stopped == r.stopped
  {
    if side == ClientSide then r.(down := h.q, client := h.leg) else r.(up := h.q, server := h.leg)
  }

  // ---- proxyDataReceived and the re-arming get -------------------------------

  /** `proxyDataReceived(f)` up to its `rx.get()`: close on the sentinel, write when `tx` is set, else report. */
  function Handled(leg: Leg, f: Frame): Leg {
    var leg1 := leg.(received := leg.received + [f]);
    if f.Closed? then leg1.(hasRx := false, losing := true)
    else if leg.hasTx then leg1.(written := leg.written + [f.bytes])
    else leg1.(notes := leg.notes + [Undeliverable])
  }

  /** Whether `proxyDataReceived(f)` goes on to `rx.get()`. */
  predicate Rearms(leg: Leg, f: Frame) {
    f.Data? && leg.hasTx
  }

  /** `proxyDataReceived(f)` on a leg taking from `q`, with everything its `get` triggers at once. */
  function Deliver(q: Queue, leg: Leg, f: Frame): Hand
    decreases |q.pending|, 1
  {
    if Rearms(leg, f) then Take(q, Handled(leg, f)) else Hand(q, Handled(leg, f))
  }

  /**
   * `rx.get().addCallback(proxyDataReceived)`: with `rx` None it raises; with a
   * frame pending the frame is delivered at once; otherwise the leg waits.
   */
  function Take(q: Queue, leg: Leg): Hand
    decreases |q.pending|, 0
  {
    if !leg.hasRx then Hand(q, leg.(notes := leg.notes + [NoReceiveQueue]))
    else if q.pending == [] then Hand(q.(waiters := q.waiters + 1), leg)
    else Deliver(q.(pending := q.pending[1..]), leg, q.pending[0])
  }

  /** `put(f)` on the queue `side` takes from: handed to a waiting `get` if there is one, else kept. */
  function AfterPut(r: Proxy, side: Side, f: Frame): Proxy {
    var q := RxOf(r, side);
    var q1 := q.(history := q.history + [f]);
    if q.waiters > 0 then Set(r, side, Deliver(q1.(waiters := q.waiters - 1), LegOf(r, side), f))
    else Set(r, side, Hand(q1.(pending := q.pending + [f]), LegOf(r, side)))
  }

  // ---- the handlers ----------------------------------------------------------

  /**
   * `connectionMade`: the server leg first takes its queues from its factory;
   * both legs then call `rx.get()`.
   */
  function AfterMade(r: Proxy, side: Side): Proxy {
    var leg := LegOf(r, side);
    var leg1 := if side == ServerSide then leg.(hasRx := true, hasTx := true) else leg;
    Set(r, side, Take(RxOf(r, side), leg1))
  }

  /**
   * A handler on a server leg before its `connectionMade` (the only leg
   * without `tx`) raises AttributeError and changes nothing else:
   * `dataReceived` on `self.log`, `connectionLost` on `self.origin`.
   */
  function Unconnected(r: Proxy, side: Side): Proxy {
    var leg := LegOf(r, side);
    Set(r, side, Hand(RxOf(r, side), leg.(notes := leg.notes + [NotConnected])))
  }

  /** `dataReceived(data)`: log the hex of the data under the leg's origin, then put it on `tx`. */
  function AfterData(r: Proxy, side: Side, data: seq<byte>, now: real): Proxy {
    DecodeEncode(data);
    if !LegOf(r, side).hasTx then Unconnected(r, side)
    else AfterPut(r.(log := AfterLog(r.log, Origin(side), HexEncode(data), now).value), Peer(side), Data(data))
  }

  /**
   * `connectionLost`: close the log, drop `rx`, put the sentinel on `tx`, and
   * stop the reactor.
   */
  function AfterLost(r: Proxy, side: Side): Proxy {
    if !LegOf(r, side).hasTx then Unconnected(r, side)
    else
      var leg := LegOf(r, side).(hasRx := false);
      var r1 := Set(r.(log := AfterClose(r.log)), side, Hand(RxOf(r, side), leg));
      AfterPut(r1, Peer(side), Closed).(stopped := true)
  }

  /** `ProxyClientFactory.clientConnectionFailed`: the sentinel goes on the queue towards the client. */
  function AfterConnectFailed(r: Proxy): Proxy {
    AfterPut(r, ClientSide, Closed)
  }

  datatype Event =
    | Made(side: Side)
    | Received(side: Side, data: seq<byte>, at: real)
    | Lost(side: Side)
    | ConnectFailed

  function Step(r: Proxy, e: Event): Proxy {
    match e
    case Made(side) => AfterMade(r, side)
    case Received(side, data, at) => AfterData(r, side, data, at)
    case Lost(side) => AfterLost(r, side)
    case ConnectFailed => AfterConnectFailed(r)
  }

  function Run(r: Proxy, events: seq<Event>): Proxy
    decreases |events|
  {
    if events == [] then r else Run(Step(r, events[0]), events[1..])
  }

  // ---- the hand-off invariant ------------------------------------------------

  /** The DeferredQueue invariant: a waiting `get` means nothing is pending. */
  predicate Settled(q: Queue) {
    q.waiters > 0 ==> q.pending == []
  }

  /** The payloads among some frames, in order; the sentinel carries none. */
  function DataOf(frames: seq<Frame>): seq<seq<byte>>
    decreases |frames|
  {
    if frames == [] then []
    else
      var f := frames[|frames| - 1];
      DataOf(frames[..|frames| - 1]) + (if f.Data? then [f.bytes] else [])
  }

  lemma DataOfSnoc(frames: seq<Frame>, f: Frame)
    ensures DataOf(frames + [f]) == DataOf(frames) + (if f.Data? then [f.bytes] else [])
  {
    assert (frames + [f])[..|frames|] == frames;
  }

  /** The payloads of two runs of frames are those of the first followed by those of the second. */
  lemma {:induction false} DataOfAppend(a: seq<Frame>, b: seq<Frame>)
    ensures DataOf(a + b) == DataOf(a) + DataOf(b)
    decreases |b|
  {
    if b == [] {
      assert a + b == a;
    } else {
      var init, f := b[..|b| - 1], b[|b| - 1];
      assert b == init + [f];
      assert a + b == (a + init) + [f];
      DataOfAppend(a, init);
      DataOfSnoc(a + init, f);
      DataOfSnoc(init, f);
      Associative(DataOf(a), DataOf(init), if f.Data? then [f.bytes] else []);
    }
  }

  /**
   * One leg and the queue it takes from: frames are handed over in the order
   * they were put, none lost and none twice (what was taken followed by what is
   * pending is everything put), the leg has written exactly the payloads it
   * was handed, in order, and it has never reported undeliverable data.
   */
  predicate Fifo(q: Queue, leg: Leg) {
    && Settled(q)
    && leg.received + q.pending == q.history
    && leg.written == DataOf(leg.received)
    && Undeliverable !in leg.notes
  }

  /**
   * The proxy's invariant. The client leg's `tx` is set from the start, and a
   * leg waits on its queue only once its `tx` is set: so `proxyDataReceived`
   * always finds `tx` set and its third branch cannot be taken.
   */
  predicate Wired(r: Proxy) {
    && r.client.hasTx
    && (r.up.waiters > 0 ==> r.server.hasTx)
    && Fifo(r.down, r.client)
    && Fifo(r.up, r.server)
  }

  /**
   * A `get` chain on a leg whose `tx` is set keeps the leg's view of its queue
   * (taken frames followed by pending ones), leaves the trace and `tx` alone,
   * and never reports undeliverable data.
   */
  lemma {:induction false} TakeKeeps(q: Queue, leg: Leg)
    requires leg.hasTx && Fifo(q, leg)
    ensures var h := Take(q, leg);
      Fifo(h.q, h.leg) && h.leg.hasTx && h.q.history == q.history
    decreases |q.pending|, 0
  {
    if leg.hasRx && q.pending != [] {
      var q' := q.(pending := q.pending[1..]);
      Associative(leg.received, [q.pending[0]], q'.pending);
      assert [q.pending[0]] + q'.pending == q.pending;
      DeliverKeeps(q', leg, q.pending[0]);
    }
  }

  /** The same for `proxyDataReceived(f)` with `f` just taken from the queue. */
  lemma {:induction false} DeliverKeeps(q: Queue, leg: Leg, f: Frame)
    requires leg.hasTx && Settled(q) && leg.received + [f] + q.pending == q.history
    requires leg.written == DataOf(leg.received) && Undeliverable !in leg.notes
    ensures var h := Deliver(q, leg, f);
      Fifo(h.q, h.leg) && h.leg.hasTx && h.q.history == q.history
    decreases |q.pending|, 1
  {
    DataOfSnoc(leg.received, f);
    if Rearms(leg, f) {
      TakeKeeps(q, Handled(leg, f));
    }
  }

  /** `put` keeps the invariant of the queue it puts on and of its consumer. */
  lemma PutKeeps(r: Proxy, side: Side, f: Frame)
    requires Wired(r)
    ensures var r' := AfterPut(r, side, f);
      && Wired(r')
      && RxOf(r', side).history == RxOf(r, side).history + [f]
      && RxOf(r', Peer(side)) == RxOf(r, Peer(side)) && LegOf(r', Peer(side)) == LegOf(r, Peer(side))
      && r'.log == r.log && r'.stopped == r.stopped
  {
    var q, leg := RxOf(r, side), LegOf(r, side);
    if q.waiters > 0 {
      assert q.pending == [];
      DeliverKeeps(q.(history := q.history + [f], waiters := q.waiters - 1), leg, f);
    } else {
      Associative(leg.received, q.pending, [f]);
    }
  }

  lemma MadeKeepsWired(r: Proxy, side: Side)
    requires Wired(r)
    ensures Wired(AfterMade(r, side))
  {
    var leg := LegOf(r, side);
    TakeKeeps(RxOf(r, side), if side == ServerSide then leg.(hasRx := true, hasTx := true) else leg);
  }

  lemma DataKeepsWired(r: Proxy, side: Side, data: seq<byte>, at: real)
    requires Wired(r)
    ensures Wired(AfterData(r, side, data, at))
  {
    if LegOf(r, side).hasTx {
      DecodeEncode(data);
      PutKeeps(r.(log := AfterLog(r.log, Origin(side), HexEncode(data), at).value), Peer(side), Data(data));
    }
  }

  lemma LostKeepsWired(r: Proxy, side: Side)
    requires Wired(r)
    ensures Wired(AfterLost(r, side))
  {
    if LegOf(r, side).hasTx {
      var leg := LegOf(r, side).(hasRx := false);
      PutKeeps(Set(r.(log := AfterClose(r.log)), side, Hand(RxOf(r, side), leg)), Peer(side), Closed);
    }
  }

  lemma StepKeepsWired(r: Proxy, e: Event)
    requires Wired(r)
    ensures Wired(Step(r, e))
  {
    match e
    case Made(side) => MadeKeepsWired(r, side);
    case Received(side, data, at) => DataKeepsWired(r, side, data, at);
    case Lost(side) => LostKeepsWired(r, side);
    case ConnectFailed => PutKeeps(r, ClientSide, Closed);
  }

  lemma {:induction false} RunKeepsWired(r: Proxy, events: seq<Event>)
    requires Wired(r)
    ensures Wired(Run(r, events))
    decreases |events|
  {
    if events != [] {
      StepKeepsWired(r, events[0]);
      RunKeepsWired(Step(r, events[0]), events[1..]);
    }
  }

  /**
   * Whatever the events, frames reach each leg in the order they were put,
   * none lost or duplicated; every payload put is written by the leg it was
   * put towards, in order and once, except those still pending; and neither
   * leg ever reports that it could not send data on: the `tx is None` branch
   * of `proxyDataReceived` is dead.
   */
  lemma HandOffIsWired(log: LogState, events: seq<Event>)
    ensures var r := Run(Initial(log), events);
      && Undeliverable !in r.client.notes && Undeliverable !in r.server.notes
      && r.client.received + r.down.pending == r.down.history
      && r.server.received + r.up.pending == r.up.history
      && r.client.written + DataOf(r.down.pending) == DataOf(r.down.history)
      && r.server.written + DataOf(r.up.pending) == DataOf(r.up.history)
  {
    var r := Run(Initial(log), events);
    RunKeepsWired(Initial(log), events);
    DataOfAppend(r.client.received, r.down.pending);
    DataOfAppend(r.server.received, r.up.pending);
  }

  // ---- the sentinel ------------------------------------------------------------

  /**
   * `dataReceived` on a leg with `tx` set logs one record under the leg's
   * origin and puts exactly the data on the queue towards the peer; its own
   * receive queue is left alone.
   */
  lemma DataReceivedPuts(r: Proxy, side: Side, data: seq<byte>, now: real)
    requires LegOf(r, side).hasTx && Wired(r)
    ensures var r' := AfterData(r, side, data, now);
      && RxOf(r', Peer(side)).history == RxOf(r, Peer(side)).history + [Data(data)]
      && RxOf(r', side) == RxOf(r, side) && LegOf(r', side) == LegOf(r, side)
      && Some(r'.log) == AfterLog(r.log, Origin(side), HexEncode(data), now)
  {
    DecodeEncode(data);
    PutKeeps(r.(log := AfterLog(r.log, Origin(side), HexEncode(data), now).value), Peer(side), Data(data));
  }

  /**
   * `connectionLost` on a leg with `tx` set closes the log, drops the leg's
   * `rx`, puts the sentinel on the queue towards the peer and stops the
   * reactor.
   */
  lemma LostPutsSentinel(r: Proxy, side: Side)
    requires Wired(r) && LegOf(r, side).hasTx
    ensures var r' := AfterLost(r, side);
      && RxOf(r', Peer(side)).history == RxOf(r, Peer(side)).history + [Closed]
      && !LegOf(r', side).hasRx
      && !r'.log.fileOpen && r'.stopped
  {
    var leg := LegOf(r, side).(hasRx := false);
    PutKeeps(Set(r.(log := AfterClose(r.log)), side, Hand(RxOf(r, side), leg)), Peer(side), Closed);
  }

  /**
   * A leg waiting on its queue that is handed the sentinel drops its `rx`,
   * closes its transport, writes nothing and does not wait again.
   */
  lemma SentinelCloses(r: Proxy, side: Side)
    requires Wired(r) && RxOf(r, side).waiters > 0
    ensures var r', leg, leg' := AfterPut(r, side, Closed), LegOf(r, side), LegOf(AfterPut(r, side, Closed), side);
      && !leg'.hasRx && leg'.losing
      && leg'.received == leg.received + [Closed]
      && leg'.written == leg.written
      && RxOf(r', side).waiters == RxOf(r, side).waiters - 1
      && RxOf(r', side).pending == []
  {
  }

  /**
   * A leg with `rx` and `tx` set that is handed a payload writes it to its
   * transport and waits on its queue again, consuming at once what is pending.
   */
  lemma PayloadRearms(q: Queue, leg: Leg, bytes: seq<byte>)
    requires leg.hasRx && leg.hasTx && q.pending == []
    ensures Deliver(q, leg, Data(bytes)) ==
      Hand(q.(waiters := q.waiters + 1), leg.(received := leg.received + [Data(bytes)], written := leg.written + [bytes]))
  {
  }

  /** A payload handed to a leg whose `rx` is gone is written, and the re-arming `get` raises. */
  lemma PayloadAfterRxGone(q: Queue, leg: Leg, bytes: seq<byte>)
    requires !leg.hasRx && leg.hasTx
    ensures var h := Deliver(q, leg, Data(bytes));
      h.q == q && h.leg.written == leg.written + [bytes] && h.leg.notes == leg.notes + [NoReceiveQueue]
  {
  }

  /**
   * Both legs connected and waiting, then the real client goes: the server leg
   * takes the sentinel and closes, while the client leg, its `rx` gone, is
   * still registered on its queue.
   */
  lemma LossAfterConnecting(log: LogState)
    ensures var r := AfterLost(AfterMade(AfterMade(Initial(log), ClientSide), ServerSide), ClientSide);
      && r.server.losing && !r.server.hasRx && r.server.hasTx
      && r.down.waiters == 1 && !r.client.hasRx && r.client.hasTx && r.client.written == []
  {
    var r1 := AfterMade(Initial(log), ClientSide);
    assert r1.down.waiters == 1 && r1.up == EmptyQueue && r1.client == Initial(log).client;
    var r2 := AfterMade(r1, ServerSide);
    assert r2.up.waiters == 1 && r2.down == r1.down && r2.client == r1.client;
    assert r2.server.hasRx && r2.server.hasTx;
  }

  /**
   * Data the real server sends after the real client has gone still reaches
   * the client leg, whose callback is still registered: the leg writes it to
   * its lost transport and its re-arming `rx.get()` raises, `rx` being None.
   */
  lemma LateDataAfterLossRaises(log: LogState, data: seq<byte>, at: real)
    ensures var r3 := AfterLost(AfterMade(AfterMade(Initial(log), ClientSide), ServerSide), ClientSide);
      var r := AfterData(r3, ServerSide, data, at);
      && r.client.written == [data] && NoReceiveQueue in r.client.notes
      && r.server.losing && !r.server.hasRx
  {
    var r3 := AfterLost(AfterMade(AfterMade(Initial(log), ClientSide), ServerSide), ClientSide);
    LossAfterConnecting(log);
    DecodeEncode(data);
    PayloadAfterRxGone(r3.down.(history := r3.down.history + [Data(data)], waiters := 0), r3.client, data);
    assert [] + [data] == [data];
  }

  /**
   * From any reachable state, losing a connected leg closes the peer leg if
   * it is waiting for data: the peer takes the sentinel, drops its `rx` and
   * closes its transport without writing anything more.
   */
  lemma LostClosesWaitingPeer(r: Proxy, side: Side)
    requires Wired(r) && LegOf(r, side).hasTx && RxOf(r, Peer(side)).waiters > 0
    ensures var r', peer := AfterLost(r, side), LegOf(r, Peer(side));
      && LegOf(r', Peer(side)).losing && !LegOf(r', Peer(side)).hasRx
      && LegOf(r', Peer(side)).received == peer.received + [Closed]
      && LegOf(r', Peer(side)).written == peer.written
      && !LegOf(r', side).hasRx && !r'.log.fileOpen && r'.stopped
  {
    var leg := LegOf(r, side).(hasRx := false);
    var r1 := Set(r.(log := AfterClose(r.log)), side, Hand(RxOf(r, side), leg));
    assert Wired(r1);
    SentinelCloses(r1, Peer(side));
  }

  /** A failed connection to the real server closes a client leg that waits for data. */
  lemma ConnectFailedClosesClient(r: Proxy)
    requires Wired(r) && r.down.waiters > 0
    ensures var r' := AfterConnectFailed(r);
      !r'.client.hasRx && r'.client.losing && r'.down.history == r.down.history + [Closed]
  {
    SentinelCloses(r, ClientSide);
  }

  // ---- relaying a conversation -------------------------------------------------

  /** The real client sending the chunks, one `dataReceived` each. */
  function ClientSends(chunks: seq<seq<byte>>, ats: seq<real>): (events: seq<Event>)
    requires |ats| == |chunks|
    ensures |events| == |chunks|
  {
    seq(|chunks|, i requires 0 <= i < |chunks| => Received(ClientSide, chunks[i], ats[i]))
  }

  function DataFrames(chunks: seq<seq<byte>>): (frames: seq<Frame>)
    ensures |frames| == |chunks|
  {
    seq(|chunks|, i requires 0 <= i < |chunks| => Data(chunks[i]))
  }

  /** One chunk from the real client, with the server leg connected and waiting, is written to the real server. */
  lemma ForwardsOne(r: Proxy, data: seq<byte>, at: real)
    requires Wired(r) && r.server.hasRx && r.up.waiters > 0
    ensures var r' := AfterData(r, ClientSide, data, at);
      && Wired(r')
      && r'.server.written == r.server.written + [data]
      && r'.up.history == r.up.history + [Data(data)]
      && r'.server.hasRx && r'.up.waiters == r.up.waiters
  {
    DecodeEncode(data);
    var r0 := r.(log := AfterLog(r.log, Origin(ClientSide), HexEncode(data), at).value);
    PutKeeps(r0, ServerSide, Data(data));
    PayloadRearms(r.up.(history := r.up.history + [Data(data)], waiters := r.up.waiters - 1), r.server, data);
  }

  /**
   * Once the server leg is connected and waiting, the chunks the real client
   * sends are written to the real server exactly, in order, and the server leg
   * is left waiting again.
   */
  lemma {:induction false} ForwardsInOrder(r: Proxy, chunks: seq<seq<byte>>, ats: seq<real>)
    requires Wired(r) && r.server.hasRx && r.up.waiters > 0 && |ats| == |chunks|
    ensures var r' := Run(r, ClientSends(chunks, ats));
      && Wired(r')
      && r'.server.written == r.server.written + chunks
      && r'.up.history == r.up.history + DataFrames(chunks)
      && r'.server.hasRx && r'.up.waiters == r.up.waiters
    decreases |chunks|
  {
    if chunks == [] {
      assert r.server.written + chunks == r.server.written;
      assert r.up.history + DataFrames(chunks) == r.up.history;
    } else {
      SendsSplit(chunks, ats);
      var r1 := AfterData(r, ClientSide, chunks[0], ats[0]);
      ForwardsOne(r, chunks[0], ats[0]);
      ForwardsInOrder(r1, chunks[1..], ats[1..]);
      Associative(r.server.written, [chunks[0]], chunks[1..]);
      Associative(r.up.history, [Data(chunks[0])], DataFrames(chunks[1..]));
    }
  }

  lemma SendsSplit(chunks: seq<seq<byte>>, ats: seq<real>)
    requires |ats| == |chunks| > 0
    ensures var events := ClientSends(chunks, ats);
      && events[0] == Received(ClientSide, chunks[0], ats[0])
      && events[1..] == ClientSends(chunks[1..], ats[1..])
    ensures [chunks[0]] + chunks[1..] == chunks
    ensures [Data(chunks[0])] + DataFrames(chunks[1..]) == DataFrames(chunks)
  {
    assert ClientSends(chunks, ats)[1..] == ClientSends(chunks[1..], ats[1..]);
    assert [Data(chunks[0])] + DataFrames(chunks[1..]) == DataFrames(chunks);
  }

  // ---- the objects ---------------------------------------------------------------

  /**
   * Both protocol instances with their shared queues and Logger. Each handler
   * changes the fields as the function of the same name says.
   */
  class Relay {
    const log: Logger
    var up: Queue
    var down: Queue
    var client: Leg
    var server: Leg
    var stopped: bool

    function State(): Proxy
      reads this, log
    {
      Proxy(up, down, client, server, log.State(), stopped)
    }

    /** `ProxyServerFactory` with its two fresh queues, sharing the given Logger. */
    constructor (log: Logger)
      ensures this.log == log
      ensures State() == Initial(log.State())
    {
      this.log := log;
      up, down := EmptyQueue, EmptyQueue;
      client := Leg(true, true, [], [], false, []);
      server := Leg(false, false, [], [], false, []);
      stopped := false;
    }

    /** Store a leg and its receive queue. */
    method Store(side: Side, q: Queue, leg: Leg)
      modifies this
      ensures State() == Set(old(State()), side, Hand(q, leg))
    {
      if side == ClientSide {
        down, client := q, leg;
      } else {
        up, server := q, leg;
      }
    }

    /**
     * `rx.get().addCallback(proxyDataReceived)` and every delivery it leads to,
     * as a loop: each pass takes one pending frame and hands it over.
     */
    method Drain(side: Side)
      modifies this
      ensures State() == Set(old(State()), side, Take(RxOf(old(State()), side), LegOf(old(State()), side)))
    {
      var q := if side == ClientSide then down else up;
      var leg := if side == ClientSide then client else server;
      ghost var goal := Take(q, leg);
      var more := true;
      while more
        invariant more ==> Take(q, leg) == goal
        invariant !more ==> Hand(q, leg) == goal
        decreases if more then |q.pending| + 1 else 0
      {
        if !leg.hasRx {
          leg := leg.(notes := leg.notes + [NoReceiveQueue]);
          more := false;
        } else if q.pending == [] {
          q := q.(waiters := q.waiters + 1);
          more := false;
        } else {
          var f := q.pending[0];
          q := q.(pending := q.pending[1..]);
          more := Rearms(leg, f);
          leg := Handled(leg, f);
        }
      }
      Store(side, q, leg);
    }

    /** `proxyDataReceived(f)` on one leg. */
    method ProxyDataReceived(side: Side, f: Frame)
      modifies this
      ensures State() == Set(old(State()), side, Deliver(RxOf(old(State()), side), LegOf(old(State()), side), f))
    {
      var leg := if side == ClientSide then client else server;
      var more := Rearms(leg, f);
      Store(side, if side == ClientSide then down else up, Handled(leg, f));
      if more {
        Drain(side);
      }
    }

    /** `put(f)` on the queue `side` takes from. */
    method Put(side: Side, f: Frame)
      modifies this
      ensures State() == AfterPut(old(State()), side, f)
    {
      var q := if side == ClientSide then down else up;
      var q1 := q.(history := q.history + [f]);
      var leg := if side == ClientSide then client else server;
      if q.waiters > 0 {
        Store(side, q1.(waiters := q.waiters - 1), leg);
        ProxyDataReceived(side, f);
      } else {
        Store(side, q1.(pending := q.pending + [f]), leg);
      }
    }

    method ConnectionMade(side: Side)
      modifies this
      ensures State() == AfterMade(old(State()), side)
    {
      if side == ServerSide {
        server := server.(hasRx := true, hasTx := true);
      }
      Drain(side);
    }

    method DataReceived(side: Side, data: seq<byte>, now: real)
      modifies this, log
      ensures State() == AfterData(old(State()), side, data, now)
    {
      var leg := if side == ClientSide then client else server;
      if !leg.hasTx {
        Store(side, if side == ClientSide then down else up, leg.(notes := leg.notes + [NotConnected]));
        return;
      }
      DecodeEncode(data);
      var ok := log.Log(Origin(side), HexEncode(data), now);
      Put(Peer(side), Data(data));
    }

    method ConnectionLost(side: Side)
      modifies this, log
      ensures State() == AfterLost(old(State()), side)
    {
      var leg := if side == ClientSide then client else server;
      if !leg.hasTx {
        Store(side, if side == ClientSide then down else up, leg.(notes := leg.notes + [NotConnected]));
        return;
      }
      log.CloseLog();
      Store(side, if side == ClientSide then down else up, leg.(hasRx := false));
      Put(Peer(side), Closed);
      stopped := true;
    }

    /** `ProxyClientFactory.clientConnectionFailed`. */
    method ClientConnectionFailed()
      modifies this
      ensures State() == AfterConnectFailed(old(State()))
    {
      Put(ClientSide, Closed);
    }
  }
}
