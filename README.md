# geodnsproxy in Dafny

A model of the geography-aware DNS forwarding proxy in `src/main.rs`, with proofs about it.

The proxy reads DNS queries from clients over UDP. It routes each query by the
client's source address to the nameserver of the most specific configured zone
whose CIDR prefix contains that address. It remembers which client sent which
transaction ID and forwards the query to that nameserver on port 53. When a
reply comes back, it looks the reply's transaction ID up and sends the reply to
the client that asked.

The model has six modules, one file each:

- `base.dfy` (`Base`): an option type, bytes, Rust's `u16`, powers of two and sequence reversal.
- `net.dfy` (`Net`): IPv4 and IPv6 addresses, socket addresses and CIDR prefixes.
  A prefix contains an address when the address has the prefix's family and agrees
  with the base on the first `len` bits. A prefix's size is `2^(width - len)`.
- `routing.dfy` (`Routing`): the zone table and `get_ns_addr`. Also the order in
  which `load_cfg` builds the table.
- `packet.dfy` (`Packet`): the 512-byte receive buffer, `recv_from`'s truncation and
  `get_packet_id`, together with its inverse.
- `proxy.dfy` (`Proxy`): the two queues and the ID map, and the engine state
  (`Engine`) with one pure step function per loop iteration of the four loops.
  Also the invariant every step keeps, so that it holds after any interleaving
  of steps (`Run`): in particular every datagram sent to a client answers a
  query forwarded earlier for that client. Then the class `GeoDnsProxy`. Its fields are
  the shared state. Its four methods update those fields in place, and each is
  proved to match its step function and to keep the invariant.
- `scenarios.dfy` (`Scenarios`): whole sequences of steps. A query answered to
  its client, duplicate IDs, two queued queries, a stale reply and a short query.

Behaviour of the code that the model keeps as written:

- **The queues are last-in first-out.** Work queues between producer and
  consumer threads are normally first-in first-out; this code adds with
  `insert(0, …)` and takes with `pop_front()` (`src/main.rs:47`, `:90`, `:74`,
  `:118`), so the packet queued last is taken first. The model follows the code. `Proxy.LaterPacketTakenFirst` and
  `Scenarios.QueuedQueriesLeaveNewestFirst` state the consequence.
- **The zone table is reversed.** `load_cfg` inserts each zone at index 0
  (`src/main.rs:146`), so the table holds the configuration in reverse order.
  `min_by_key` keeps the first of equal minima. Together, these mean a tie
  between equally specific zones goes to the zone written last in the
  configuration (`Routing.TieGoesToLastConfigured`).
- **Duplicate IDs: last writer wins.** The ID map is a `HashMap::insert`. A
  second query with a pending ID overwrites the first client's entry, and a
  different first client never gets a reply (`Scenarios.DuplicateIdGoesToLastWriter`).
- **A short query stops forwarding.** The dispatcher reads the ID from
  `buf[..len]`. A routed datagram shorter than two bytes makes that thread panic
  (index out of bounds). From then on no query is forwarded. The model records
  this as the `Panicked` outcome and a `dispatcherRunning` flag.
- **A reply's ID comes from the whole buffer.** The reply reader takes the ID
  from the full 512-byte buffer (`src/main.rs:70`). A reply shorter than two bytes
  is looked up under an ID made from the zero padding; it does not panic.

## Model

| member | source | states |
|---|---|---|
| Net.Contains | src/main.rs:158 | no ensures of its own: `IpCidr::contains` as same family and equal first `len` bits; its behaviour is stated by Net.FullPrefixHoldsOnlyBase, Net.EmptyPrefixHoldsFamily and Net.TenNetExamples |
| Net.Size | src/main.rs:159 | no ensures of its own: `IpCidr::size` as 2^(width - len); its behaviour is stated by Net.SizeBounds and Net.SizeOrderIsLengthOrder |
| Net.FullPrefixHoldsOnlyBase | src/main.rs:14 | a full-length prefix contains exactly its base address |
| Net.EmptyPrefixHoldsFamily | src/main.rs:14 | a zero-length prefix contains every address of its family and none of the other family |
| Net.SizeBounds | src/main.rs:159 | a prefix's size lies between 1 and the number of addresses in its family |
| Net.SizeOrderIsLengthOrder | src/main.rs:159 | within one family, a smaller size is a longer prefix, and equal sizes are equal lengths |
| Net.TenNetExamples | src/main.rs:158 | 10.1.2.3 is in 10.0.0.0/8 and 10.1.0.0/16; 10.2.0.1 is only in the /8; 192.168.0.1 is in neither |
| Routing.MinBySizeFrom | src/main.rs:157-159 | the fold over the remaining zones ends with no match only if no zone contains the address; otherwise with the first containing zone of least size |
| Routing.SelectZone | src/main.rs:157-159 | no zone is chosen exactly when none contains the address; otherwise the chosen zone contains it, none containing it is smaller, and every containing zone before it is strictly larger |
| Routing.GetNsAddr | src/main.rs:156-161 | the result is None exactly when no zone contains the address; otherwise it is the nameserver of the first smallest containing zone |
| Routing.FirstSmallestMatchIsUnique | src/main.rs:159 | at most one zone meets the selection rule, so ties are resolved deterministically |
| Routing.GetNsAddrFollowsRule | src/main.rs:156-161 | conversely, if zone i meets the rule then the answer is zone i's nameserver |
| Routing.SmallestIsLongest | src/main.rs:159 | the zone of least size among the matches is the zone of longest prefix, in both directions |
| Routing.GetNsAddrIsLongestPrefixMatch | src/main.rs:156-161 | get_ns_addr is longest-prefix match: None exactly when nothing matches, else the nameserver of the first zone of longest matching prefix |
| Routing.LoadZones | src/main.rs:132-151 | the table built by inserting every configured zone at index 0 is the configuration reversed |
| Routing.TieGoesToLastConfigured | src/main.rs:146 | in a table loaded from a configuration, the chosen zone is a smallest containing entry, and every containing entry written after it is strictly larger |
| Routing.MostSpecificZoneWins | src/main.rs:156-161 | with zones 10.0.0.0/8 and 10.1.0.0/16 in either order, 10.1.2.3 goes to the /16's nameserver |
| Routing.WiderZoneServesTheRest | src/main.rs:156-161 | with the same zones, 10.2.0.1 goes to the /8's nameserver |
| Routing.OutsideAddressHasNoRoute | src/main.rs:156-161 | with the same zones, 192.168.0.1 has no route |
| Packet.RecvFrom | src/main.rs:114-115 | receiving into a zeroed 512-byte buffer keeps the first min(length, 512) bytes, leaves the rest zero and records the sender; lines 67-68 receive the same way |
| Packet.GetPacketId | src/main.rs:164-166 | the ID's high byte is byte 0 and its low byte is byte 1 (big-endian) |
| Packet.ShiftOrIsSum | src/main.rs:165 | on 16-bit words holding one byte each, shifting the first left by 8 and or-ing in the second is base-256 addition |
| Packet.EncodeId | src/main.rs:164-166 | the inverse encoding: two bytes whose base-256 value, high byte first, is the ID |
| Packet.IdRoundTrip | src/main.rs:164-166 | reading back an encoded ID gives the same ID |
| Packet.HeaderRoundTrip | src/main.rs:164-166 | encoding a packet's ID gives its first two bytes back |
| Packet.IdIsHeaderBytes | src/main.rs:164-166 | two packets have the same ID exactly when their first two bytes agree |
| Proxy.InsertFront | src/main.rs:118 | `insert(0, x)` puts x at the front and keeps the old queue behind it |
| Proxy.PopFront | src/main.rs:90 | `pop_front` is None exactly on an empty queue, and otherwise splits off the front element |
| Proxy.InsertAll | src/main.rs:113-119 | a series of inserts grows the queue by the number inserted |
| Proxy.PopTakesLastInserted | src/main.rs:47 | a pop right after an insert takes back the packet just inserted |
| Proxy.InsertAllReverses | src/main.rs:118 | after a series of inserts the queue holds them newest first, ahead of its old contents |
| Proxy.LaterPacketTakenFirst | src/main.rs:90 | of two packets queued in turn, the later one is popped first |
| Proxy.Record | src/main.rs:104 | after the insert, id maps to the client, the keys gain id, and all other entries are unchanged |
| Proxy.LastWriterWins | src/main.rs:104 | a second insert for the same ID replaces the first |
| Proxy.Resolve | src/main.rs:72-73 | a pending ID yields its client and is removed; an unknown ID yields nothing and leaves the map as it was; no other entry changes |
| Proxy.RecordThenResolve | src/main.rs:72-73 | an ID just recorded resolves to its client, and the map then lacks that ID |
| Proxy.ReceiveQueryStep | src/main.rs:113-119 | no ensures of its own: one iteration of the main loop; stated by Proxy.ReceiveQueryKeepsInv, Proxy.PopTakesLastInserted and Proxy.GeoDnsProxy.ReceiveQuery |
| Proxy.DispatchStep | src/main.rs:86-108 | no ensures of its own: one iteration of the outgoing-writer loop; stated by Proxy.EmptyQueueChangesNothing, Proxy.UnroutedQueryIsDropped, Proxy.RoutedQueryIsForwarded, Proxy.ShortRoutedQueryPanics, Proxy.HaltedDispatcherStaysHalted and Proxy.DispatchKeepsInv |
| Proxy.ReceiveReplyStep | src/main.rs:66-79 | no ensures of its own: one iteration of the outgoing-reader loop; stated by Proxy.ReplyResolvesItsId and Proxy.ReceiveReplyKeepsInv |
| Proxy.RespondStep | src/main.rs:43-58 | no ensures of its own: one iteration of the incoming-writer loop; stated by Proxy.EmptyQueueChangesNothing, Proxy.ReplyIsSentToItsPeer and Proxy.RespondKeepsInv |
| Proxy.InitialInv | src/main.rs:31-38 | the empty start state satisfies the invariant: sends of at most 512 bytes, upstream sends to port 53 of a configured nameserver, every pending id -> c forwarded upstream as a query with ID id for c, every queued reply for a client that sent a query with its ID, every datagram to a client answering an earlier query of that client |
| Proxy.ReceiveQueryKeepsInv | src/main.rs:113-119 | queuing a client datagram keeps the invariant |
| Proxy.DispatchKeepsInv | src/main.rs:86-108 | one dispatch iteration keeps the invariant; a forwarded query goes to port 53 of a zone's nameserver, and the entry it records is traced to that query and its client |
| Proxy.ReceiveReplyKeepsInv | src/main.rs:66-79 | reading an upstream reply keeps the invariant; a queued reply's client is the one the pending ID was forwarded for |
| Proxy.PayloadKeepsId | src/main.rs:56 | when at least two bytes were received, the ID of `buf[..len]` is the ID read from the whole buffer |
| Proxy.RespondKeepsInv | src/main.rs:43-58 | sending a queued reply keeps the invariant; the datagram sent answers an earlier query forwarded for the same client, with the same ID when it is at least two bytes long |
| Proxy.RunKeepsInv | src/main.rs:41-120 | after any interleaving of the four loops' steps from a state satisfying the invariant, the invariant still holds |
| Proxy.RepliesReachTheClientThatAsked | src/main.rs:41-120 | in any interleaving from the start, every datagram sent to a client follows an upstream query forwarded for that same client, and carries that query's ID when it is at least two bytes long |
| Proxy.EmptyQueueChangesNothing | src/main.rs:45-53 | a consumer that finds its queue empty changes nothing; the same holds for the dispatcher at lines 88-96 |
| Proxy.UnroutedQueryIsDropped | src/main.rs:98-100 | a query from an address in no zone is popped and dropped: nothing recorded, nothing sent |
| Proxy.RoutedQueryIsForwarded | src/main.rs:101-106 | a routed query of at least two bytes is popped, its ID is mapped to its client, and exactly its received bytes are sent to the nameserver on port 53; nothing else changes |
| Proxy.ShortRoutedQueryPanics | src/main.rs:102-103 | a routed query shorter than two bytes is popped and the dispatcher stops, with nothing recorded or sent |
| Proxy.HaltedDispatcherStaysHalted | src/main.rs:86-108 | once the dispatcher has stopped, a dispatch step changes nothing |
| Proxy.ReplyResolvesItsId | src/main.rs:66-78 | a reply is queued exactly when its ID is pending; then that entry alone is removed and the reply is queued at the front for the recorded client; otherwise nothing changes |
| Proxy.ReplyIsSentToItsPeer | src/main.rs:45-57 | a queued reply is popped and exactly its received bytes are sent to its client from the client-facing socket |
| Proxy.GeoDnsProxy.constructor | src/main.rs:31-38 | the shared state starts empty and satisfies the invariant |
| Proxy.GeoDnsProxy.ReceiveQuery | src/main.rs:113-119 | the fields change as the receive step says, and the invariant is kept |
| Proxy.GeoDnsProxy.Dispatch | src/main.rs:86-108 | the outcome and the fields are exactly those of the dispatch step, and the invariant is kept |
| Proxy.GeoDnsProxy.ReceiveReply | src/main.rs:66-79 | whether the reply was resolved, and the new fields, are those of the reply step; the invariant is kept |
| Proxy.GeoDnsProxy.Respond | src/main.rs:43-58 | whether a reply was sent, and the new fields, are those of the respond step; the invariant is kept |
| Scenarios.HeadQueryForwarded | src/main.rs:98-105 | a routed query of 2 to 512 bytes at the head of the queue is forwarded with its own bytes and its own ID |
| Scenarios.FreshQueryForwarded | src/main.rs:86-119 | a routed query of 2 to 512 bytes received while the dispatcher is idle is forwarded next, unchanged |
| Scenarios.PendingReplyQueued | src/main.rs:66-75 | a reply of 2 to 512 bytes with a pending ID is queued for the recorded client with its bytes unchanged |
| Scenarios.QueryIsAnsweredToItsClient | src/main.rs:43-119 | receive, dispatch, reply and respond send the query to port 53 of the zone's nameserver and the reply, with the same ID, to the client; no ID stays pending |
| Scenarios.UnroutedQueryLeavesNoTrace | src/main.rs:98-100 | a query from an unrouted address leaves the proxy as it started |
| Scenarios.StaleReplyIsDropped | src/main.rs:72-78 | a reply with an unknown ID is dropped and nothing is sent to any client |
| Scenarios.DuplicateIdGoesToLastWriter | src/main.rs:104 | two clients dispatch queries with the same ID: the log is exactly the two queries and one reply, sent to the second client; a repeated reply is dropped; so when the clients differ the first gets nothing |
| Scenarios.ForgedReplyReachesClient | src/main.rs:66-75 | a reply from an address other than the nameserver asked, carrying the pending ID, is accepted and sent to the client |
| Scenarios.QueuedQueriesLeaveNewestFirst | src/main.rs:90 | two queries queued before dispatch are forwarded newest first; with the same ID, the entry left is the OLDER query's client |
| Scenarios.ShortQueryStopsForwarding | src/main.rs:102-103 | after a short routed query panics the dispatcher, a later query stays queued and nothing is sent |
| Scenarios.ProxyAnswersQuery | src/main.rs:43-119 | the class's four methods, called in turn, produce the same two sends as the pure step sequence |

## Left out

- Sockets and I/O: a received datagram and its sender are parameters; a send is appended to a log (`sent`) instead of being performed. Each logged send also names the client it was made for; the real datagram carries no such field, and the model uses it only to state which client a reply answers.
- Threads, `Mutex` and `Condvar`: each loop iteration is one atomic step, and any interleaving of steps is allowed. Blocking on an empty queue is modelled as a step with no effect.
- Proxy.GeoDnsProxy.Dispatch: the insert into the ID map (line 104) and the send (line 105) form one step, so the model does not capture a reply racing ahead of the send.
- The `recv_from` failure path (`expect("")`, lines 68 and 115), which panics its thread on an I/O error, is not modelled.
- Send errors (lines 57 and 105) are logged and ignored; the model's sends always succeed.
- load_cfg's file reading and JSON parsing (lines 125-145) are left out because they are I/O and parsing. Routing.LoadZones captures only the order in which the table is built.
- cidr_utils is not part of this model. Routing.GetNsAddr uses the standard prefix definition in its place, with an address of the other family never contained.
- The `println!` diagnostics (lines 57, 77, 100, 105, 160) have no effect on the state and are left out.
- Packet.RecvFrom: a datagram longer than 512 bytes is cut off at 512 bytes, which is how Linux behaves. On Windows `recv_from` fails instead, and that is not modelled.
- The reply reader does not check which address a reply came from (line 68, `_src`): a reply from any address whose ID is pending is accepted and delivered (Proxy.ReplyResolvesItsId takes any source; Scenarios.ForgedReplyReachesClient shows one). Proxy.RepliesReachTheClientThatAsked therefore guarantees only that a reply goes to a client that sent a query with that ID, not that it came from the nameserver asked.
- The queues and the ID map are unbounded, as in the code; memory exhaustion is not modelled.
