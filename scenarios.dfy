/**
 * Whole sequences of proxy steps: the engine started empty and driven through a fixed
 * interleaving of its four steps, stated for all zone tables, clients and
 * messages that meet each sequence's conditions.
 */
module Scenarios {
  import opened Base
  import opened Net
  import opened Routing
  import opened Packet
  import opened Proxy

  /** The upstream destination of a query from client c. */
  function Upstream(zones: seq<GeoZone>, c: SocketAddr): SocketAddr
    requires GetNsAddr(zones, c.ip).Some?
  {
    SocketAddr(GetNsAddr(zones, c.ip).value, DnsPort)
  }

  /** A routed query of 2..512 bytes at the head of the queue is forwarded as it came. */
  lemma {:induction false} HeadQueryForwarded(zones: seq<GeoZone>, e: Engine, query: seq<byte>, client: SocketAddr)
    requires e.dispatcherRunning && e.outgoingQueue != [] && e.outgoingQueue[0] == RecvFrom(query, client)
    requires GetNsAddr(zones, client.ip).Some?
    requires 2 <= |query| <= BufferSize
    ensures DispatchStep(zones, e) ==
      (Forwarded(GetPacketId(query), Upstream(zones, client).ip),
       e.(outgoingQueue := e.outgoingQueue[1..],
          idAddrMap := e.idAddrMap[GetPacketId(query) := client],
          sent := e.sent + [Send(OutSocket, query, Upstream(zones, client), client)]))
  {
    var p := e.outgoingQueue[0];
    assert p.buf[..p.len] == query by {
      assert query[..|query|] == query;
    }
    RoutedQueryIsForwarded(zones, e);
  }

  /** A routed query of 2..512 bytes, received while the dispatcher is idle, is forwarded next. */
  lemma {:induction false} FreshQueryForwarded(zones: seq<GeoZone>, e: Engine, query: seq<byte>, client: SocketAddr)
    requires e.dispatcherRunning && e.outgoingQueue == []
    requires GetNsAddr(zones, client.ip).Some?
    requires 2 <= |query| <= BufferSize
    ensures DispatchStep(zones, ReceiveQueryStep(e, query, client)) ==
      (Forwarded(GetPacketId(query), Upstream(zones, client).ip),
       e.(idAddrMap := e.idAddrMap[GetPacketId(query) := client],
          sent := e.sent + [Send(OutSocket, query, Upstream(zones, client), client)]))
  {
    HeadQueryForwarded(zones, ReceiveQueryStep(e, query, client), query, client);
  }

  /** A reply of 2..512 bytes whose ID is pending is queued, unchanged, for the recorded client. */
  lemma {:induction false} PendingReplyQueued(e: Engine, reply: seq<byte>, src: SocketAddr)
    requires 2 <= |reply| <= BufferSize
    requires GetPacketId(reply) in e.idAddrMap
    ensures var (resolved, e') := ReceiveReplyStep(e, reply, src);
      && resolved
      && e' == e.(idAddrMap := e.idAddrMap - {GetPacketId(reply)},
                  responseQueue := [RecvFrom(reply, src)
                                     .(peer := e.idAddrMap[GetPacketId(reply)])] + e.responseQueue)
      && Payload(e'.responseQueue[0]) == reply
  {
    var p := RecvFrom(reply, src);
    IdIsHeaderBytes(reply, p.buf);
    var (resolved, e') := ReceiveReplyStep(e, reply, src);
    assert e'.idAddrMap == e.idAddrMap - {GetPacketId(reply)};
    assert reply[..|reply|] == reply;
  }

  /**
   * A routed query goes out to the zone's nameserver on port 53, and a reply
   * with the same transaction ID comes back verbatim to the client that asked;
   * nothing stays pending.
   */
  lemma {:induction false} QueryIsAnsweredToItsClient(zones: seq<GeoZone>, client: SocketAddr, query: seq<byte>, reply: seq<byte>)
    requires GetNsAddr(zones, client.ip).Some?
    requires 2 <= |query| <= BufferSize && 2 <= |reply| <= BufferSize
    requires GetPacketId(reply) == GetPacketId(query)
    ensures var up := Upstream(zones, client);
      var e1 := DispatchStep(zones, ReceiveQueryStep(Initial, query, client)).1;
      var e2 := ReceiveReplyStep(e1, reply, up).1;
      var e3 := RespondStep(e2).1;
      e3.sent == [Send(OutSocket, query, up, client), Send(InSocket, reply, client, client)] && e3.idAddrMap == map[]
  {
    var up, id := Upstream(zones, client), GetPacketId(query);
    FreshQueryForwarded(zones, Initial, query, client);
    var e1 := DispatchStep(zones, ReceiveQueryStep(Initial, query, client)).1;
    assert e1.idAddrMap == map[id := client];
    PendingReplyQueued(e1, reply, up);
    var e2 := ReceiveReplyStep(e1, reply, up).1;
    ReplyIsSentToItsPeer(e2);
  }

  /** A query from an address no zone contains is dropped: nothing is sent and nothing recorded. */
  lemma UnroutedQueryLeavesNoTrace(zones: seq<GeoZone>, client: SocketAddr, query: seq<byte>)
    requires GetNsAddr(zones, client.ip).None?
    ensures DispatchStep(zones, ReceiveQueryStep(Initial, query, client)) == (NoZone, Initial)
  {
    UnroutedQueryIsDropped(zones, ReceiveQueryStep(Initial, query, client));
  }

  /** A reply whose ID nobody is waiting for is dropped: no client is sent anything. */
  lemma StaleReplyIsDropped(reply: seq<byte>, src: SocketAddr)
    ensures ReceiveReplyStep(Initial, reply, src) == (false, Initial)
    ensures RespondStep(ReceiveReplyStep(Initial, reply, src).1) == (false, Initial)
  {
  }

  /**
   * Two clients use the same transaction ID before the first is answered: the
   * second record overwrites the first, the one reply sent goes to the second
   * client, and a repeated reply is dropped; no datagram goes to the first
   * client unless it is the second client too.
   */
  lemma {:induction false} DuplicateIdGoesToLastWriter(zones: seq<GeoZone>, c1: SocketAddr, c2: SocketAddr,
                                                       q1: seq<byte>, q2: seq<byte>, reply: seq<byte>)
    requires GetNsAddr(zones, c1.ip).Some? && GetNsAddr(zones, c2.ip).Some?
    requires 2 <= |q1| <= BufferSize && 2 <= |q2| <= BufferSize && 2 <= |reply| <= BufferSize
    requires GetPacketId(q1) == GetPacketId(reply) && GetPacketId(q2) == GetPacketId(reply)
    ensures var up1, up2 := Upstream(zones, c1), Upstream(zones, c2);
      var e1 := DispatchStep(zones, ReceiveQueryStep(Initial, q1, c1)).1;
      var e2 := DispatchStep(zones, ReceiveQueryStep(e1, q2, c2)).1;
      var e3 := RespondStep(ReceiveReplyStep(e2, reply, up2).1).1;
      var (again, e4) := ReceiveReplyStep(e3, reply, up2);
      && e3.sent == [Send(OutSocket, q1, up1, c1), Send(OutSocket, q2, up2, c2), Send(InSocket, reply, c2, c2)]
      && !again && e4 == e3 && RespondStep(e4) == (false, e4)
  {
    var up1, up2, id := Upstream(zones, c1), Upstream(zones, c2), GetPacketId(reply);
    FreshQueryForwarded(zones, Initial, q1, c1);
    var e1 := DispatchStep(zones, ReceiveQueryStep(Initial, q1, c1)).1;
    FreshQueryForwarded(zones, e1, q2, c2);
    var e2 := DispatchStep(zones, ReceiveQueryStep(e1, q2, c2)).1;
    assert e2.idAddrMap == map[id := c2];
    PendingReplyQueued(e2, reply, up2);
    var e2' := ReceiveReplyStep(e2, reply, up2).1;
    assert e2'.idAddrMap == map[];
    ReplyIsSentToItsPeer(e2');
    var e3 := RespondStep(e2').1;
    assert e3.responseQueue == [];
    IdIsHeaderBytes(reply, RecvFrom(reply, up2).buf);
  }

  /**
   * The reply reader never checks where a reply came from: a datagram from any
   * address carrying a pending ID is accepted and delivered to the client, even
   * when it did not come from the nameserver the query was sent to.
   */
  lemma {:induction false} ForgedReplyReachesClient(zones: seq<GeoZone>, client: SocketAddr, query: seq<byte>,
                                                    forged: seq<byte>, attacker: SocketAddr)
    requires GetNsAddr(zones, client.ip).Some?
    requires attacker != Upstream(zones, client)
    requires 2 <= |query| <= BufferSize && 2 <= |forged| <= BufferSize
    requires GetPacketId(forged) == GetPacketId(query)
    ensures var e1 := DispatchStep(zones, ReceiveQueryStep(Initial, query, client)).1;
      var (accepted, e2) := ReceiveReplyStep(e1, forged, attacker);
      var e3 := RespondStep(e2).1;
      accepted && e3.sent == [Send(OutSocket, query, Upstream(zones, client), client), Send(InSocket, forged, client, client)]
  {
    FreshQueryForwarded(zones, Initial, query, client);
    var e1 := DispatchStep(zones, ReceiveQueryStep(Initial, query, client)).1;
    assert e1.idAddrMap == map[GetPacketId(query) := client];
    PendingReplyQueued(e1, forged, attacker);
    ReplyIsSentToItsPeer(ReceiveReplyStep(e1, forged, attacker).1);
  }

  /**
   * Two queries queued before the dispatcher runs are forwarded newest first;
   * when they share an ID, the entry left is the OLDER query's client.
   */
  lemma {:induction false} QueuedQueriesLeaveNewestFirst(zones: seq<GeoZone>, c1: SocketAddr, c2: SocketAddr,
                                                         q1: seq<byte>, q2: seq<byte>)
    requires GetNsAddr(zones, c1.ip).Some? && GetNsAddr(zones, c2.ip).Some?
    requires 2 <= |q1| <= BufferSize && 2 <= |q2| <= BufferSize
    ensures var e0 := ReceiveQueryStep(ReceiveQueryStep(Initial, q1, c1), q2, c2);
      var e2 := DispatchStep(zones, DispatchStep(zones, e0).1).1;
      && e2.sent == [Send(OutSocket, q2, Upstream(zones, c2), c2), Send(OutSocket, q1, Upstream(zones, c1), c1)]
      && (GetPacketId(q1) == GetPacketId(q2) ==> e2.idAddrMap == map[GetPacketId(q1) := c1])
  {
    var e0 := ReceiveQueryStep(ReceiveQueryStep(Initial, q1, c1), q2, c2);
    assert e0.outgoingQueue == [RecvFrom(q2, c2), RecvFrom(q1, c1)];
    HeadQueryForwarded(zones, e0, q2, c2);
    var e1 := DispatchStep(zones, e0).1;
    assert e1.outgoingQueue == [RecvFrom(q1, c1)];
    HeadQueryForwarded(zones, e1, q1, c1);
  }

  /**
   * A routed datagram of fewer than two bytes makes the dispatcher panic;
   * a query received afterwards stays queued and is never forwarded.
   */
  lemma ShortQueryStopsForwarding(zones: seq<GeoZone>, client: SocketAddr, short: seq<byte>,
                                  other: SocketAddr, query: seq<byte>)
    requires GetNsAddr(zones, client.ip).Some?
    requires |short| < 2
    ensures var (first, e1) := DispatchStep(zones, ReceiveQueryStep(Initial, short, client));
      var (second, e2) := DispatchStep(zones, ReceiveQueryStep(e1, query, other));
      && first == Panicked && second == Halted
      && e2.sent == [] && e2.outgoingQueue == [RecvFrom(query, other)]
  {
    ShortRoutedQueryPanics(zones, ReceiveQueryStep(Initial, short, client));
  }

  /** The class behaves the same way: a routed query and its reply, through the object's four methods. */
  method ProxyAnswersQuery(zones: seq<GeoZone>, client: SocketAddr, query: seq<byte>, reply: seq<byte>)
    returns (log: seq<Send>)
    requires GetNsAddr(zones, client.ip).Some?
    requires 2 <= |query| <= BufferSize && 2 <= |reply| <= BufferSize
    requires GetPacketId(reply) == GetPacketId(query)
    ensures log == [Send(OutSocket, query, Upstream(zones, client), client), Send(InSocket, reply, client, client)]
  {
    var proxy := new GeoDnsProxy(zones);
    proxy.ReceiveQuery(query, client);
    var dispatched := proxy.Dispatch();
    var resolved := proxy.ReceiveReply(reply, Upstream(zones, client));
    var delivered := proxy.Respond();
    QueryIsAnsweredToItsClient(zones, client, query, reply);
    log := proxy.sent;
  }
}
