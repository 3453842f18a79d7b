/**
 * The forwarding engine: one correlation map from transaction ID to client
 * address and two packet queues, shared by four loops. Each loop iteration is
 * one atomic step of the GeoDnsProxy class:
 *   - ReceiveQuery: the main loop reads a client query and queues it;
 *   - Dispatch: the outgoing-writer thread takes a query, routes it, records
 *     its ID and forwards it upstream;
 *   - ReceiveReply: the outgoing-reader thread reads an upstream reply, resolves
 *     its ID to the client and queues the reply;
 *   - Respond: the incoming-writer thread takes a reply and sends it to the client.
 * Sends are recorded in an output log instead of being performed.
 */
module Proxy {
  import opened Base
  import opened Net
  import opened Routing
  import opened Packet

  /** Upstream nameservers are always asked on the DNS port. */
  const DnsPort: u16 := 53

  // ---------------------------------------------------------------------------
  // The queue discipline: VecDeque::insert(0, …) to add, pop_front() to take.

  /** `insert(0, x)`: x becomes the front element. */
  function InsertFront<T>(q: seq<T>, x: T): (r: seq<T>)
    ensures |r| == |q| + 1 && r[0] == x && r[1..] == q
  {
    [x] + q
  }

  /** `pop_front()`: the front element and the rest, or nothing on an empty queue. */
  function PopFront<T>(q: seq<T>): (r: Option<(T, seq<T>)>)
    ensures r.None? <==> q == []
    ensures r.Some? ==> [r.value.0] + r.value.1 == q
  {
    if q == [] then None else Some((q[0], q[1..]))
  }

  /** Inserting xs one after another, as a producer loop does. */
  function InsertAll<T>(q: seq<T>, xs: seq<T>): (r: seq<T>)
    ensures |r| == |q| + |xs|
    decreases xs
  {
    if xs == [] then q else InsertAll(InsertFront(q, xs[0]), xs[1..])
  }

  /** A pop takes the element inserted last: the queues are stacks (LIFO). */
  lemma PopTakesLastInserted<T>(q: seq<T>, x: T)
    ensures PopFront(InsertFront(q, x)) == Some((x, q))
  {
  }

  /** After a series of inserts the queue holds them newest first, ahead of what was there. */
  lemma {:induction false} InsertAllReverses<T>(q: seq<T>, xs: seq<T>)
    ensures InsertAll(q, xs) == Reversed(xs) + q
    decreases xs
  {
    if xs != [] {
      InsertAllReverses(InsertFront(q, xs[0]), xs[1..]);
      ReversedFront(xs);
      assert Reversed(xs[1..]) + ([xs[0]] + q) == (Reversed(xs[1..]) + [xs[0]]) + q;
    }
  }

  /** Of two queued packets the later one is taken first, not the earlier one. */
  lemma {:induction false} LaterPacketTakenFirst<T>(a: T, b: T)
    ensures PopFront(InsertAll([], [a, b])) == Some((b, [a]))
  {
    InsertAllReverses([], [a, b]);
    ReversedAt([a, b], 0);
    ReversedAt([a, b], 1);
    var r := Reversed([a, b]);
    assert r == [b, a];
    assert InsertAll([], [a, b]) == [b, a];
  }

  // ---------------------------------------------------------------------------
  // The correlation map: HashMap<u16, SocketAddr>.

  /** `insert(id, client)`: the entry for id is the client, whatever was there before. */
  function Record(m: map<u16, SocketAddr>, id: u16, client: SocketAddr): (m': map<u16, SocketAddr>)
    ensures m'.Keys == m.Keys + {id}
    ensures m'[id] == client
    ensures forall k :: k in m && k != id ==> m'[k] == m[k]
  {
    m[id := client]
  }

  /** A second record for the same ID replaces the first: last writer wins. */
  lemma LastWriterWins(m: map<u16, SocketAddr>, id: u16, first: SocketAddr, second: SocketAddr)
    ensures Record(Record(m, id, first), id, second) == Record(m, id, second)
  {
  }

  /** `contains_key` then `remove`: the client for id, taken out of the map; an unknown id leaves it alone. */
  function Resolve(m: map<u16, SocketAddr>, id: u16): (r: (Option<SocketAddr>, map<u16, SocketAddr>))
    ensures id in m ==> r.0 == Some(m[id])
    ensures id !in m ==> r.0 == None && r.1 == m
    ensures r.1.Keys == m.Keys - {id}
    ensures forall k :: k in r.1 ==> r.1[k] == m[k]
  {
    if id in m then (Some(m[id]), m - {id}) else (None, m)
  }

  /** A recorded ID resolves to its client once and is then gone. */
  lemma RecordThenResolve(m: map<u16, SocketAddr>, id: u16, client: SocketAddr)
    ensures Resolve(Record(m, id, client), id) == (Some(client), m - {id})
  {
    assert Record(m, id, client) - {id} == m - {id};
  }

  // ---------------------------------------------------------------------------
  // The engine state and its four steps, as values.

  /** The proxy's two sockets: the client-facing one and the upstream one. */
  datatype Socket = InSocket | OutSocket

  /**
   * One `send_to` call: which socket, which bytes, which destination, and the
   * client the datagram was sent for (the querying client of an upstream query,
   * the destination itself of a reply). The last field is bookkeeping of the
   * log, not part of the datagram.
   */
  datatype Send = Send(via: Socket, payload: seq<byte>, to: SocketAddr, client: SocketAddr)

  /** What one iteration of the dispatch loop did. */
  datatype DispatchOutcome =
    | Halted                           // the thread had panicked earlier and is gone
    | Idle                             // the queue was empty: the thread waits, nothing changes
    | NoZone                           // no zone contains the client: packet dropped
    | Panicked                         // a routed packet of fewer than 2 bytes: the thread panics
    | Forwarded(id: u16, ns: IpAddr)   // ID recorded and query sent to ns:53

  /** Everything the four loops share, plus the log of datagrams sent so far (oldest first). */
  datatype Engine = Engine(
    idAddrMap: map<u16, SocketAddr>,
    outgoingQueue: seq<ProxiedPacket>,
    responseQueue: seq<ProxiedPacket>,
    sent: seq<Send>,
    dispatcherRunning: bool)

  /** Empty map, empty queues, nothing sent, all threads running. */
  const Initial: Engine := Engine(map[], [], [], [], true)

  /** Main loop (src/main.rs:113-120): read a client datagram and queue it. */
  function ReceiveQueryStep(e: Engine, datagram: seq<byte>, src: SocketAddr): Engine {
    e.(outgoingQueue := InsertFront(e.outgoingQueue, RecvFrom(datagram, src)))
  }

  /** Outgoing-writer thread (src/main.rs:86-109): one iteration of its loop. */
  function DispatchStep(zones: seq<GeoZone>, e: Engine): (DispatchOutcome, Engine) {
    if !e.dispatcherRunning then (Halted, e)
    else match PopFront(e.outgoingQueue)
      case None => (Idle, e)
      case Some((packet, rest)) =>
        var e' := e.(outgoingQueue := rest);
        match GetNsAddr(zones, packet.peer.ip)
        case None => (NoZone, e')
        case Some(ns) =>
          if packet.len < 2 then
            // get_packet_id indexes bytes 0 and 1 of buf[..len]: out of bounds
            (Panicked, e'.(dispatcherRunning := false))
          else
            var id := GetPacketId(Payload(packet));
            (Forwarded(id, ns),
             e'.(idAddrMap := Record(e.idAddrMap, id, packet.peer),
                 sent := e.sent + [Send(OutSocket, Payload(packet), SocketAddr(ns, DnsPort), packet.peer)]))
  }

  /**
   * Outgoing-reader thread (src/main.rs:66-79): read an upstream reply and look
   * its ID up. The ID is read from the whole buffer, not from the received bytes.
   */
  function ReceiveReplyStep(e: Engine, datagram: seq<byte>, src: SocketAddr): (bool, Engine) {
    var received := RecvFrom(datagram, src);
    match Resolve(e.idAddrMap, GetPacketId(received.buf))
    case (None, _) => (false, e)
    case (Some(client), rest) =>
      (true, e.(idAddrMap := rest,
                responseQueue := InsertFront(e.responseQueue, ProxiedPacket(received.buf, received.len, client))))
  }

  /** Incoming-writer thread (src/main.rs:43-59): take a reply and send its bytes to the client. */
  function RespondStep(e: Engine): (bool, Engine) {
    match PopFront(e.responseQueue)
    case None => (false, e)
    case Some((packet, rest)) =>
      (true, e.(responseQueue := rest, sent := e.sent + [Send(InSocket, Payload(packet), packet.peer, packet.peer)]))
  }

  // ---------------------------------------------------------------------------
  // What every step keeps.

  ghost predicate IsNameserver(zones: seq<GeoZone>, a: IpAddr) {
    exists z :: z in zones && z.nameserver == a
  }

  /** s is an upstream query carrying transaction ID id, forwarded for client. */
  ghost predicate IsQueryFor(s: Send, id: u16, client: SocketAddr) {
    s.via == OutSocket && |s.payload| >= 2 && GetPacketId(s.payload) == id && s.client == client
  }

  /** Some upstream query in the log carried ID id for client. */
  ghost predicate QueriedFor(sent: seq<Send>, id: u16, client: SocketAddr) {
    exists i :: 0 <= i < |sent| && IsQueryFor(sent[i], id, client)
  }

  /**
   * reply answers query: the query went upstream, the reply goes back on the
   * client-facing socket to the client the query was forwarded for, and a reply
   * long enough to carry an ID carries the query's ID.
   */
  ghost predicate Answers(reply: Send, query: Send) {
    && reply.via == InSocket && query.via == OutSocket && |query.payload| >= 2
    && reply.to == query.client
    && (|reply.payload| >= 2 ==> GetPacketId(reply.payload) == GetPacketId(query.payload))
  }

  /** The send at index k answers an upstream query sent before it. */
  ghost predicate AnswersEarlierQuery(sent: seq<Send>, k: nat)
    requires k < |sent|
  {
    exists i :: 0 <= i < k && Answers(sent[k], sent[i])
  }

  /**
   * What holds in every reachable state:
   *   - no send exceeds 512 bytes (every payload is some `buf[..len]`, so this
   *     follows from the `Length` type rather than from any step's care);
   *   - every upstream send goes to port 53 of a configured nameserver;
   *   - every pending entry id -> c was forwarded upstream as a query with ID id for c;
   *   - every queued reply is for a client that sent a query with the reply's ID;
   *   - every datagram sent to a client answers a query that client sent earlier.
   */
  ghost predicate Inv(zones: seq<GeoZone>, e: Engine) {
    && (forall i :: 0 <= i < |e.sent| ==> |e.sent[i].payload| <= BufferSize)
    && (forall i :: 0 <= i < |e.sent| && e.sent[i].via == OutSocket ==>
          e.sent[i].to.port == DnsPort && IsNameserver(zones, e.sent[i].to.ip))
    && (forall id :: id in e.idAddrMap ==> QueriedFor(e.sent, id, e.idAddrMap[id]))
    && (forall k :: 0 <= k < |e.responseQueue| ==>
          QueriedFor(e.sent, GetPacketId(e.responseQueue[k].buf), e.responseQueue[k].peer))
    && (forall k :: 0 <= k < |e.sent| && e.sent[k].via == InSocket ==> AnswersEarlierQuery(e.sent, k))
  }

  lemma InitialInv(zones: seq<GeoZone>)
    ensures Inv(zones, Initial)
  {
  }

  lemma ReceiveQueryKeepsInv(zones: seq<GeoZone>, e: Engine, datagram: seq<byte>, src: SocketAddr)
    requires Inv(zones, e)
    ensures Inv(zones, ReceiveQueryStep(e, datagram, src))
  {
  }

  /** A query in the log stays in it when more is sent. */
  lemma QueriedForStays(sent: seq<Send>, s: Send, id: u16, client: SocketAddr)
    requires QueriedFor(sent, id, client)
    ensures QueriedFor(sent + [s], id, client)
  {
    var i :| 0 <= i < |sent| && IsQueryFor(sent[i], id, client);
    assert (sent + [s])[i] == sent[i];
  }

  /**
   * Appending one send keeps the invariant when the send keeps the size and
   * port rules, a reply answers an earlier query, and every pending entry and
   * queued reply of the new state is traced in the new log.
   */
  lemma SentGrows(zones: seq<GeoZone>, e: Engine, e': Engine, s: Send)
    requires Inv(zones, e)
    requires e'.sent == e.sent + [s]
    requires |s.payload| <= BufferSize
    requires s.via == OutSocket ==> s.to.port == DnsPort && IsNameserver(zones, s.to.ip)
    requires s.via == InSocket ==> AnswersEarlierQuery(e'.sent, |e.sent|)
    requires forall id :: id in e'.idAddrMap ==> QueriedFor(e'.sent, id, e'.idAddrMap[id])
    requires forall k :: 0 <= k < |e'.responseQueue| ==>
      QueriedFor(e'.sent, GetPacketId(e'.responseQueue[k].buf), e'.responseQueue[k].peer)
    ensures Inv(zones, e')
  {
    forall k | 0 <= k < |e.sent| && e.sent[k].via == InSocket
      ensures AnswersEarlierQuery(e'.sent, k)
    {
      var i :| 0 <= i < k && Answers(e.sent[k], e.sent[i]);
      assert e'.sent[k] == e.sent[k] && e'.sent[i] == e.sent[i];
    }
  }

  lemma DispatchKeepsInv(zones: seq<GeoZone>, e: Engine)
    requires Inv(zones, e)
    ensures Inv(zones, DispatchStep(zones, e).1)
  {
    var (outcome, e') := DispatchStep(zones, e);
    if outcome.Forwarded? {
      var packet := e.outgoingQueue[0];
      var z := SelectZone(zones, packet.peer.ip).value;
      assert zones[z] in zones;
      var s := Send(OutSocket, Payload(packet), SocketAddr(outcome.ns, DnsPort), packet.peer);
      forall id | id in e'.idAddrMap
        ensures QueriedFor(e'.sent, id, e'.idAddrMap[id])
      {
        if id == outcome.id {
          assert IsQueryFor(e'.sent[|e.sent|], id, packet.peer);
        } else {
          QueriedForStays(e.sent, s, id, e.idAddrMap[id]);
        }
      }
      forall k | 0 <= k < |e'.responseQueue|
        ensures QueriedFor(e'.sent, GetPacketId(e'.responseQueue[k].buf), e'.responseQueue[k].peer)
      {
        QueriedForStays(e.sent, s, GetPacketId(e.responseQueue[k].buf), e.responseQueue[k].peer);
      }
      SentGrows(zones, e, e', s);
    }
  }

  lemma ReceiveReplyKeepsInv(zones: seq<GeoZone>, e: Engine, datagram: seq<byte>, src: SocketAddr)
    requires Inv(zones, e)
    ensures Inv(zones, ReceiveReplyStep(e, datagram, src).1)
  {
    var (resolved, e') := ReceiveReplyStep(e, datagram, src);
    if resolved {
      var id := GetPacketId(RecvFrom(datagram, src).buf);
      assert QueriedFor(e.sent, id, e.idAddrMap[id]);
      assert e'.responseQueue[0].peer == e.idAddrMap[id];
      forall k | 0 <= k < |e'.responseQueue|
        ensures QueriedFor(e'.sent, GetPacketId(e'.responseQueue[k].buf), e'.responseQueue[k].peer)
      {
        if k > 0 {
          assert e'.responseQueue[k] == e.responseQueue[k - 1];
        }
      }
    }
  }

  /** The bytes a packet actually carries have the ID read from its whole buffer, when there are two of them. */
  lemma PayloadKeepsId(p: ProxiedPacket)
    requires p.len >= 2
    ensures GetPacketId(Payload(p)) == GetPacketId(p.buf)
  {
    assert Payload(p)[..2] == p.buf[..2];
    IdIsHeaderBytes(Payload(p), p.buf);
  }

  lemma RespondKeepsInv(zones: seq<GeoZone>, e: Engine)
    requires Inv(zones, e)
    ensures Inv(zones, RespondStep(e).1)
  {
    var (delivered, e') := RespondStep(e);
    if delivered {
      var packet := e.responseQueue[0];
      var s := Send(InSocket, Payload(packet), packet.peer, packet.peer);
      var i :| 0 <= i < |e.sent| && IsQueryFor(e.sent[i], GetPacketId(packet.buf), packet.peer);
      if packet.len >= 2 {
        PayloadKeepsId(packet);
      }
      assert Answers(e'.sent[|e.sent|], e'.sent[i]);
      forall id | id in e'.idAddrMap
        ensures QueriedFor(e'.sent, id, e'.idAddrMap[id])
      {
        QueriedForStays(e.sent, s, id, e.idAddrMap[id]);
      }
      forall k | 0 <= k < |e'.responseQueue|
        ensures QueriedFor(e'.sent, GetPacketId(e'.responseQueue[k].buf), e'.responseQueue[k].peer)
      {
        assert e'.responseQueue[k] == e.responseQueue[k + 1];
        QueriedForStays(e.sent, s, GetPacketId(e.responseQueue[k + 1].buf), e.responseQueue[k + 1].peer);
      }
      SentGrows(zones, e, e', s);
    }
  }

  /** One step of any of the four loops, with the input it reads. */
  datatype Event =
    | QueryArrives(datagram: seq<byte>, src: SocketAddr)
    | DispatchRuns
    | ReplyArrives(datagram: seq<byte>, src: SocketAddr)
    | RespondRuns

  function Apply(zones: seq<GeoZone>, e: Engine, ev: Event): Engine {
    match ev
    case QueryArrives(d, src) => ReceiveQueryStep(e, d, src)
    case DispatchRuns => DispatchStep(zones, e).1
    case ReplyArrives(d, src) => ReceiveReplyStep(e, d, src).1
    case RespondRuns => RespondStep(e).1
  }

  /** The state after the events, in order: one interleaving of the four loops. */
  function Run(zones: seq<GeoZone>, e: Engine, events: seq<Event>): Engine
    decreases |events|
  {
    if events == [] then e else Run(zones, Apply(zones, e, events[0]), events[1..])
  }

  /** The invariant holds after every interleaving of steps from a state where it holds. */
  lemma {:induction false} RunKeepsInv(zones: seq<GeoZone>, e: Engine, events: seq<Event>)
    requires Inv(zones, e)
    ensures Inv(zones, Run(zones, e, events))
    decreases |events|
  {
    if events != [] {
      match events[0] {
        case QueryArrives(d, src) => ReceiveQueryKeepsInv(zones, e, d, src);
        case DispatchRuns => DispatchKeepsInv(zones, e);
        case ReplyArrives(d, src) => ReceiveReplyKeepsInv(zones, e, d, src);
        case RespondRuns => RespondKeepsInv(zones, e);
      }
      RunKeepsInv(zones, Apply(zones, e, events[0]), events[1..]);
    }
  }

  /**
   * Whatever arrives and in whatever order the loops run, every datagram the
   * proxy sends to a client answers an upstream query it forwarded earlier for
   * that same client, with the same ID when the reply is long enough to carry one.
   */
  lemma {:induction false} RepliesReachTheClientThatAsked(zones: seq<GeoZone>, events: seq<Event>, k: nat)
    requires k < |Run(zones, Initial, events).sent|
    requires Run(zones, Initial, events).sent[k].via == InSocket
    ensures var sent := Run(zones, Initial, events).sent;
      exists i :: 0 <= i < k && sent[i].via == OutSocket && |sent[i].payload| >= 2 && sent[i].client == sent[k].to
        && (|sent[k].payload| >= 2 ==> GetPacketId(sent[k].payload) == GetPacketId(sent[i].payload))
  {
    RunKeepsInv(zones, Initial, events);
    var sent := Run(zones, Initial, events).sent;
    assert AnswersEarlierQuery(sent, k);
  }

  // ---------------------------------------------------------------------------
  // What each step does.

  /** A consumer that finds its queue empty waits: the step changes nothing. */
  lemma EmptyQueueChangesNothing(zones: seq<GeoZone>, e: Engine)
    ensures e.dispatcherRunning && e.outgoingQueue == [] ==> DispatchStep(zones, e) == (Idle, e)
    ensures e.responseQueue == [] ==> RespondStep(e) == (false, e)
  {
  }

  /** A query no zone routes is taken off the queue and dropped: no record, no send. */
  lemma UnroutedQueryIsDropped(zones: seq<GeoZone>, e: Engine)
    requires e.dispatcherRunning && e.outgoingQueue != []
    requires GetNsAddr(zones, e.outgoingQueue[0].peer.ip).None?
    ensures DispatchStep(zones, e) == (NoZone, e.(outgoingQueue := e.outgoingQueue[1..]))
  {
  }

  /**
   * A routed query of at least two bytes is taken off the queue, its ID is mapped
   * to its client (replacing any earlier entry for that ID) and exactly its
   * received bytes are sent to the zone's nameserver on port 53.
   */
  lemma RoutedQueryIsForwarded(zones: seq<GeoZone>, e: Engine)
    requires e.dispatcherRunning && e.outgoingQueue != []
    requires GetNsAddr(zones, e.outgoingQueue[0].peer.ip).Some?
    requires e.outgoingQueue[0].len >= 2
    ensures var p, ns := e.outgoingQueue[0], GetNsAddr(zones, e.outgoingQueue[0].peer.ip).value;
      var id := GetPacketId(p.buf[..p.len]);
      DispatchStep(zones, e) ==
        (Forwarded(id, ns),
         Engine(e.idAddrMap[id := p.peer], e.outgoingQueue[1..], e.responseQueue,
                e.sent + [Send(OutSocket, p.buf[..p.len], SocketAddr(ns, DnsPort), p.peer)], true))
  {
  }

  /** A routed query shorter than two bytes stops the dispatcher; the packet is lost. */
  lemma ShortRoutedQueryPanics(zones: seq<GeoZone>, e: Engine)
    requires e.dispatcherRunning && e.outgoingQueue != []
    requires GetNsAddr(zones, e.outgoingQueue[0].peer.ip).Some?
    requires e.outgoingQueue[0].len < 2
    ensures DispatchStep(zones, e) ==
      (Panicked, e.(outgoingQueue := e.outgoingQueue[1..], dispatcherRunning := false))
  {
  }

  /** A stopped dispatcher does nothing more. */
  lemma HaltedDispatcherStaysHalted(zones: seq<GeoZone>, e: Engine)
    requires !e.dispatcherRunning
    ensures DispatchStep(zones, e) == (Halted, e)
  {
  }

  /**
   * A reply whose ID is pending removes exactly that entry and queues the reply
   * for the recorded client; a reply with an unknown ID changes nothing.
   */
  lemma ReplyResolvesItsId(e: Engine, datagram: seq<byte>, src: SocketAddr)
    ensures var p := RecvFrom(datagram, src);
      var id := GetPacketId(p.buf);
      var (resolved, e') := ReceiveReplyStep(e, datagram, src);
      && resolved == (id in e.idAddrMap)
      && (resolved ==>
            && e'.idAddrMap.Keys == e.idAddrMap.Keys - {id}
            && (forall k :: k in e'.idAddrMap ==> e'.idAddrMap[k] == e.idAddrMap[k])
            && e'.responseQueue == [ProxiedPacket(p.buf, p.len, e.idAddrMap[id])] + e.responseQueue)
      && (!resolved ==> e' == e)
      && e'.outgoingQueue == e.outgoingQueue && e'.sent == e.sent
      && e'.dispatcherRunning == e.dispatcherRunning
  {
  }

  /** A queued reply is taken off the front and its received bytes sent to its client. */
  lemma ReplyIsSentToItsPeer(e: Engine)
    requires e.responseQueue != []
    ensures var p := e.responseQueue[0];
      RespondStep(e) ==
        (true, e.(responseQueue := e.responseQueue[1..], sent := e.sent + [Send(InSocket, p.buf[..p.len], p.peer, p.peer)]))
  {
  }

  // ---------------------------------------------------------------------------
  // The shared state as the source holds it: fields updated in place.

  class GeoDnsProxy {
    /** The zone table, read-only after loading. */
    const zones: seq<GeoZone>
    /** `id_addr_map`: pending transaction IDs and the clients that asked. */
    var idAddrMap: map<u16, SocketAddr>
    /** `outgoing_queue`: client queries waiting to be forwarded. */
    var outgoingQueue: seq<ProxiedPacket>
    /** `response_queue`: upstream replies waiting to be returned. */
    var responseQueue: seq<ProxiedPacket>
    /** Every datagram sent so far, oldest first. */
    var sent: seq<Send>
    /** False once the dispatch thread has panicked. */
    var dispatcherRunning: bool

    /** The fields as one value. */
    function State(): Engine
      reads this
    {
      Engine(idAddrMap, outgoingQueue, responseQueue, sent, dispatcherRunning)
    }

    ghost predicate Valid()
      reads this
    {
      Inv(zones, State())
    }

    constructor (zones: seq<GeoZone>)
      ensures Valid()
      ensures this.zones == zones && State() == Initial
    {
      this.zones := zones;
      idAddrMap := map[];
      outgoingQueue := [];
      responseQueue := [];
      sent := [];
      dispatcherRunning := true;
    }

    method ReceiveQuery(datagram: seq<byte>, src: SocketAddr)
      requires Valid()
      modifies this
      ensures State() == ReceiveQueryStep(old(State()), datagram, src)
      ensures Valid()
    {
      ReceiveQueryKeepsInv(zones, State(), datagram, src);
      var packet := RecvFrom(datagram, src);
      outgoingQueue := InsertFront(outgoingQueue, packet);
    }

    method Dispatch() returns (outcome: DispatchOutcome)
      requires Valid()
      modifies this
      ensures (outcome, State()) == DispatchStep(zones, old(State()))
      ensures Valid()
    {
      DispatchKeepsInv(zones, State());
      if !dispatcherRunning {
        return Halted;
      }
      match PopFront(outgoingQueue)
      case None =>
        outcome := Idle;
      case Some((packet, rest)) =>
        ghost var before := State();
        outgoingQueue := rest;
        match GetNsAddr(zones, packet.peer.ip)
        case None =>
          UnroutedQueryIsDropped(zones, before);
          outcome := NoZone;
        case Some(ns) =>
          if packet.len < 2 {
            ShortRoutedQueryPanics(zones, before);
            dispatcherRunning := false;
            outcome := Panicked;
          } else {
            RoutedQueryIsForwarded(zones, before);
            var outBuf := Payload(packet);
            var id := GetPacketId(outBuf);
            idAddrMap := Record(idAddrMap, id, packet.peer);
            sent := sent + [Send(OutSocket, outBuf, SocketAddr(ns, DnsPort), packet.peer)];
            outcome := Forwarded(id, ns);
          }
    }

    method ReceiveReply(datagram: seq<byte>, src: SocketAddr) returns (resolved: bool)
      requires Valid()
      modifies this
      ensures (resolved, State()) == ReceiveReplyStep(old(State()), datagram, src)
      ensures Valid()
    {
      ReceiveReplyKeepsInv(zones, State(), datagram, src);
      var received := RecvFrom(datagram, src);
      var id := GetPacketId(received.buf);
      var (client, rest) := Resolve(idAddrMap, id);
      match client
      case None =>
        resolved := false;
      case Some(addr) =>
        idAddrMap := rest;
        responseQueue := InsertFront(responseQueue, ProxiedPacket(received.buf, received.len, addr));
        resolved := true;
    }

    method Respond() returns (delivered: bool)
      requires Valid()
      modifies this
      ensures (delivered, State()) == RespondStep(old(State()))
      ensures Valid()
    {
      RespondKeepsInv(zones, State());
      match PopFront(responseQueue)
      case None =>
        delivered := false;
      case Some((packet, rest)) =>
        responseQueue := rest;
        sent := sent + [Send(InSocket, Payload(packet), packet.peer, packet.peer)];
        delivered := true;
    }
  }
}
