# Antarc, modelled in Dafny

Antarc is a small connection-oriented protocol over UDP: a server accepts clients, each under a
connection id, and both sides send payloads (cut into fragments when they do not fit one datagram)
and heartbeats, with a sequence and an ack on every packet. This project models its protocol crate
and the order in which its driver calls it, and proves what that code keeps in every run.

How it is built, bottom up:

- `Packets`, `Codec`, `Fragments`, `Reassembly`, `Reliability`, `Scheduler`, `Peers`: the parts. What
  the source computes by expressions is a function; what it does step by step (the decoder's cursor,
  the scheduler's and the reliability handler's lists, the reassembly fold) is a method or a class
  proved against a function of its inputs.
- `Endpoint`, `ServerService`, `ClientService`: the protocol state of a server and of a client as
  classes over mutable fields. Each method's contract gives its whole new state as a function of the
  old one; loops that send a whole list are proved equal to a closed form.
- `Phases`, `Polls`, `ServerDriver`, `ClientDriver`: one poll of each driver, in place, phase by phase,
  and what its sending half comes to: all lists empty, everything scheduled sent in the driver's order.
- `LocalState`, `Discipline`, `Outbox`, `Origins`, `ServerNodes`, `ServerReceives`, `ClientNodes`,
  `ClientReceives`, `OriginSteps`: what every step of one node keeps, whatever it receives.
- `AntarcSystem`, `ServerSteps`, `ClientSteps`, `Reassemblers`, `SystemRuns`: one server, any number
  of clients, and a network that drops, duplicates, delays and reorders what was sent but makes
  nothing up; the invariant that couples both sides and the packets in flight.
- `Guarantees`, `Arrivals`, `Deliveries`, `DataTransfers`, `Accounts`, `Requests`, `FanOut`, `Hearing`:
  the results, over all runs. `Continuations` and `RetriedFragments` say how any run can go on.

A node's record of first transmissions (`first`) and the set of all its transmissions (`sent`) stand
for what is in flight: any element of `sent` can be delivered at any later time, any number of times.
The checksum is a parameter, so the codec results hold for every checksum function. Time is a number
given to each step, with no assumption on its order. The order in which a hash map is iterated is a parameter too.

Where the code does something other than what its names and comments say, the model follows the code:

- Reassembly loses the bytes of the last fragment to arrive, and its sort compares a key that all
  fragments of a group share, so it keeps the order of arrival. `Fragments.DeliveredAsWritten` gives
  the exact outcome, `Fragments.IntendedRoundTrip` is the variant that sorts by index and keeps all
  parts, and `FanOut.IntactExactlyWhenOneChunk` says when a payload survives: when it fits one packet.
- A reassembler counts fragments and does not look at their indices. A group it gives out is complete
  exactly when no arrival into its entry repeated an index the entry held, which the receiver could
  see before it stores the fragment (`Reassembly.CompleteExactlyWhenClean`,
  `Deliveries.ServerReassembly`). No network fault is needed for it to be otherwise: the server's own
  retry of a fragment gives out a group of two with one of its fragments twice
  (`RetriedFragments.RetryGivesOutHalf`).
- Expiry of kept packets does not depend on the time (`Reliability.Expired`, `Reliability.PollsDrain`),
  and a retry takes a packet out even when it is too young to be sent (`Reliability.RetryKeepsPacket`).
- Polling a connected peer drops a group that is still fresh and keeps those that are old
  (`Reassembly.EvictsOneYoung`, `Deliveries.PollDropsYoung`).
- A connected client drops the payloads of data transfers: over its whole life it hands on one at
  most (`DataTransfers.OneDataTransferAtMost`).
- Sending a connection request again always panics (`ClientNodes.ResendingAlwaysFails`); a client that
  knows one server never comes to it (`Guarantees.ClientCreatesAll`).
- Sending a packet again uses up one more sequence of its peer, though the packet carries its old one,
  so sequences are left out (`Polls.RetryBumpsOne`); a drained list leaves out none
  (`Discipline.DrainedGapless`).
- `schedule` returns the id after the one it stamps, and an empty payload schedules nothing yet uses
  an id up, even for a peer that is not connected (`FanOut.ScheduleFansOut`).
- Fragment indices and totals are cast to bytes. Sharing one sequence holds up to 256 fragments and
  no further (`Discipline.OnlyLastAdvances`); results about fragments carry the condition that the
  sender never scheduled more than 255 at once with success (`oversized`).
- The header size counts four bytes of a protocol id that is not sent; they make up for the four of
  the checksum (`Codec.WireLength`, `Guarantees.DatagramBound`).

Rows marked "linking layer" state a method's whole effect as a function of the state before it. They
tie the classes to the functions that the results above and below them are about; the drivers'
`PollOnce` rests on them.

## Model

| member | source | states |
|---|---|---|
| `Guarantees.HandshakeAgreement` | antarc-protocol/src/client/service.rs:300-327 | in every state of every run, what a client is connected as the server knows at that client's address, what the server has connected there the client is connected as, and the client has one id at most |
| `Guarantees.ConnectedAreClients` | antarc-protocol/src/server/service.rs:345-381 | whoever the server has connected is one of the clients, connected under the same id |
| `Guarantees.OneIdForEver` | antarc-protocol/src/client/service.rs:300-327 | once a client is connected under an id, that is its only id in every later state |
| `Guarantees.IdsAreNotReused` | antarc-protocol/src/server/service.rs:331-340 | an id the server gave out stays known at the same address for ever, and connected peers stay connected |
| `Guarantees.ServerPartition` | antarc-protocol/src/server/service.rs:224-274 | nobody is left requesting; awaiting and connected ids are disjoint, are exactly the ids below the tracker, have distinct addresses, and number tracker - 1, at most 65534 |
| `Guarantees.RequestsComeTo` | antarc-protocol/src/server/service.rs:318-344 | the exact outcome of any connection request in any reachable state: the branches for a peer already requesting and for one not found are never taken, and it panics exactly when the ids are used up |
| `Guarantees.NoPhantomAcksToClient` | antarc-protocol/src/server/service.rs:475-485 | every ack in flight to a client is of a sequence that client used, below its next one |
| `Guarantees.NoPhantomAcksToServer` | antarc-protocol/src/lib.rs:124-238 | every ack in flight to the server is 0 or of a sequence the server used towards that client, below its next one |
| `Guarantees.NoPhantomAcksOnServer` | antarc-protocol/src/server/service.rs:351-363 | every peer's local ack on the server is below its sequence tracker and 0 or really used; what it will ack next is a sequence the client used |
| `Guarantees.NoPhantomAcksOnClient` | antarc-protocol/src/client/service.rs:317-324 | the same for every peer of a client, in any of its three states |
| `Guarantees.ServerCreatesAll` | antarc-protocol/src/server/service.rs:470-485 | in every reachable state each scheduled answer is for a peer that still awaits and all else for a connected one, so creating never fails |
| `Guarantees.ClientCreatesAll` | antarc-protocol/src/client/service.rs:239-271 | scheduled requests are duplicate-free and cover exactly the requesting peers, all else is for connected peers that do not await, and between polls no request is there to be sent again |
| `Guarantees.ClientPartition` | antarc-protocol/src/client/service.rs:445-479 | an address is in at most one of requesting, awaiting and connected |
| `Guarantees.SequenceDiscipline` | antarc-protocol/src/server/service.rs:137-203 | first transmissions to one address: within one operation they are fragments in index order under one sequence, across operations the sequences rise strictly; whatever else is sent is a repeat of one of them |
| `Guarantees.RecordGrows` | antarc/src/lib.rs:60-175 | the record of first transmissions of any node only grows at its end over a run |
| `Guarantees.ServerIdsRise` | antarc-protocol/src/server.rs:29-39 | whatever the server schedules at a later step of a run carries a larger packet id |
| `Guarantees.ClientIdsRise` | antarc-protocol/src/client.rs:49-56 | the same for each client |
| `Guarantees.ServerCountsSuccesses` | antarc-protocol/src/lib.rs:293-327 | each step of the server whose operation succeeds raises the packet id tracker by exactly one and stamps all it schedules with the value before; every other step leaves the tracker alone and schedules nothing |
| `Guarantees.ClientCountsSuccesses` | antarc-protocol/src/client.rs:49-56 | the same for each step of a client |
| `Guarantees.ClientsDecodeAll` | antarc-protocol/src/packets/decode.rs:81-97 | whatever the server has in flight fits the wire, and a client decodes from its bytes exactly that packet, for every checksum |
| `Guarantees.ServerDecodesAll` | antarc-protocol/src/packets/decode.rs:63-79 | whatever a client has in flight fits the wire, and the server decodes from its bytes exactly that packet |
| `Guarantees.DatagramBound` | antarc-protocol/src/packets/encode.rs:65-100 | no datagram ever sent is longer than 1500 bytes, and a fragment that is not the last is exactly that long |
| `Deliveries.ServerReassembly` | antarc-protocol/src/server/service.rs:382-444 | from end to end over any run, duplicates and retries allowed: a peer's reassembler is the outcome of its arrivals and evictions; the events handed out for its fragments are exactly the groups given out; each group is complete, and worth its payload, exactly when no arrival into its entry repeated an index the entry held; how often a sequence is given out; and, where no fragment arrives twice, that a group is given out at most once, only complete, and exactly when all of it has arrived and none of it was evicted |
| `Deliveries.ClientReassembly` | antarc-protocol/src/client/service.rs:378-418 | the same for a client, which evicts nothing |
| `Deliveries.ServerHandsOut` | antarc-protocol/src/server/service.rs:424-441 | over any run the server's events for one peer's fragments, pushed step by step, are one for each group given out, in order, with what reassembly makes of it; any other delivery for that peer is of a data transfer it hears |
| `Deliveries.ClientHandsOut` | antarc-protocol/src/client/service.rs:398-415 | the same for a client |
| `Deliveries.ServerReassemblers` | antarc-protocol/src/server/service.rs:404-441 | in every state of every run, duplicates or not, each stored group is non-empty, of its key's sequence, made of fragments its peer sent, with one total that it has not reached |
| `Deliveries.ClientReassemblers` | antarc-protocol/src/client/service.rs:378-415 | the same on a client |
| `Deliveries.PollDropsYoung` | antarc-protocol/src/peers.rs:135-160 | in any run a poll of the server takes at most one group from a peer, one whose newest fragment came less than a second before, and takes one whenever there is such a group; older groups stay |
| `Arrivals.ArrivalsGiveOut` | antarc-protocol/src/packets/message.rs:94-126 | any arrivals of what a sender sent, duplicates or not: the exact worth of each group given out and how often each is |
| `Arrivals.ArrivalsReassemble` | antarc-protocol/src/packets/message.rs:94-126 | arrivals of distinct transmissions reassemble into the payloads they were cut from, once each, exactly when all arrived and none was evicted |
| `DataTransfers.ServerHandsOnAll` | antarc-protocol/src/server/service.rs:345-381 | every data transfer that reaches the server is handed on as one event, with the whole payload of the operation that sent it |
| `DataTransfers.HandsOnConnects` | antarc-protocol/src/client/service.rs:328-356 | a client hands a data transfer on exactly when that packet is what connects it |
| `DataTransfers.OneDataTransferAtMost` | antarc-protocol/src/client/service.rs:335-339 | a client hands on at most one data transfer in a run |
| `FanOut.ScheduleFansOut` | antarc-protocol/src/lib.rs:346-426 | when a call succeeds and exactly what it appends: the one list that grows is fixed by the reliability and by whether the payload fits 1483 bytes; for each target, named by its id, exactly the payload's chunks in index order, under one id and one total, which carry the payload; a failed call changes nothing |
| `FanOut.HeartbeatFansOut` | antarc-protocol/src/lib.rs:428-492 | when a heartbeat call succeeds and exactly what it appends: one heartbeat for the single target, or for every connected peer, to the list for its reliability, and nothing else; a failed call changes nothing |
| `FanOut.KeptExactlyWhenReliable` | antarc-protocol/src/server/service.rs:137-203 | what a call appended is kept once its list was sent if and only if the call said reliable |
| `FanOut.IntactExactlyWhenOneChunk` | antarc-protocol/src/packets/message.rs:94-126 | a payload whose packets all arrived is handed on intact exactly when it fits one packet |
| `Codec.AsRaw` | antarc-protocol/src/packets.rs:85-115 | the datagram is header, message, and the checksum of both behind the protocol id, which is not sent |
| `Codec.InnerDecode` | antarc-protocol/src/packets/raw.rs:34-95 | the cursor-driven decoder computes the decoding by fixed offsets, errors and panics included |
| `Codec.CommonDecode` | antarc-protocol/src/packets/raw.rs:98-250 | the part after the common header, by kind |
| `Codec.ReadInc` | antarc-protocol/src/lib.rs:37-46 | the next bytes and the cursor past them, or nothing when the buffer ends before |
| `Codec.RoundTrip` | antarc-protocol/src/packets/encode.rs:9-120 | decoding inverts encoding for all five kinds and every counter, id, index, total and payload |
| `Codec.RoleRoundTrip` | antarc-protocol/src/packets/decode.rs:63-97 | each role refuses exactly the one kind not meant for it |
| `Codec.AcceptedLanguage` | antarc-protocol/src/packets/raw.rs:34-250 | over all buffers of all lengths: which are accepted, on which the decoder panics, and that two of its errors cannot occur |
| `Codec.AcceptedMeans` | antarc-protocol/src/packets/raw.rs:34-250 | what any accepted datagram means, field by field, by plain offsets and literal numbers |
| `Codec.Refusals` | antarc-protocol/src/packets/raw.rs:34-110 | which error each refused datagram gets, with what it carries |
| `Codec.CanonicalForm` | antarc-protocol/src/packets/raw.rs:98-250 | an accepted datagram encodes back to the same bytes exactly when a kind without payload has no trailing bytes |
| `Codec.WireLength` | antarc-protocol/src/packets/encode.rs:3-120 | how long each kind is on the wire |
| `Codec.WireLayout` | antarc-protocol/src/packets/encode.rs:9-120 | where every field of each kind is on the wire, most significant byte first, with the numbers of the kinds and of the protocol spelt out |
| `Fragments.FlattenChunks` | antarc-protocol/src/lib.rs:358-369 | the chunks, in order, are the payload |
| `Fragments.ChunkShape` | antarc-protocol/src/lib.rs:358-371 | there are ceil(n / 1483) chunks, all full but the last, which is not empty |
| `Fragments.Reassemble` | antarc-protocol/src/packets/message.rs:94-126 | header of the last fragment, payloads of all others in order |
| `Fragments.IntendedRoundTrip` | antarc-protocol/src/packets/message.rs:94-126 | intended variant: sorting by index and keeping all parts gives the payload back from any order of arrival |
| `Fragments.DeliveredAsWritten` | antarc-protocol/src/server/service.rs:424-440 | as written: the arrivals but the last one, in order of arrival, always shorter than the payload |
| `Fragments.DeliveredInOrder` | antarc-protocol/src/packets/message.rs:94-126 | as written and arriving in order: the payload's first 1483 * (k - 1) bytes |
| `Fragments.EqualKeysKeepOrder` | antarc-protocol/src/server/service.rs:432 | a stable sort by a key all share changes nothing |
| `Reassembly.Poll` | antarc-protocol/src/peers.rs:135-160 | one group whose newest fragment is less than a second old goes, if there is one, and all others stay |
| `Reassembly.EvictsOneYoung` | antarc-protocol/src/peers.rs:135-160 | the same in plain arithmetic of whatever an eviction does: a group at least a second old never goes |
| `Reassembly.FiresOnceAndComplete` | antarc-protocol/src/server/service.rs:408-441 | without duplicates a group is given out at most once and only when all its fragments have arrived, whatever interleaves and is evicted |
| `Reassembly.FiresExactlyWhenComplete` | antarc-protocol/src/server/service.rs:408-441 | without duplicates, a group never evicted is given out if and only if all its fragments have arrived |
| `Reassembly.FiresExactly` | antarc-protocol/src/server/service.rs:408-441 | without duplicates and whatever is evicted, a group is given out if and only if all its fragments have arrived and no entry of it was evicted |
| `Reassembly.CompleteExactlyWhenClean` | antarc-protocol/src/server/service.rs:411-415 | duplicates allowed, whatever is evicted, for every total: a group given out has all its fragments if and only if no arrival into its entry repeated an index stored there |
| `Reassembly.GivenOutTimes` | antarc-protocol/src/server/service.rs:411-422 | duplicates allowed: a sequence is given out as often as its total fits into what arrived of it and was not lost to evictions; at most once if and only if that is less than twice the total |
| `Reassembly.FiredGroupPayload` | antarc-protocol/src/server/service.rs:424-440 | what a group given out contains, intended and as written |
| `Reassembly.DuplicateFiresEarly` | antarc-protocol/src/server/service.rs:411-415 | for every total: one fragment arriving that many times is given out as a group, though no other index arrived |
| `RetriedFragments.RetryGivesOutHalf` | antarc/src/lib.rs:194-208 | every run that has come to a connected client can go on so that the server sends a payload of two fragments, retries the second, and the client, hearing each of the two transmissions of it once, hands that fragment on as the payload |
| `Discipline.OnlyLastAdvances` | antarc-protocol/src/server/service.rs:168-175 | the last fragment is the only one to advance the sequence if and only if there are at most 256 |
| `Discipline.DrainedFollows` | antarc/src/lib.rs:60-91 | in a drained list two packets to one peer share their sequence exactly when they are of one operation, and are in index order then |
| `Discipline.DrainedGapless` | antarc/src/lib.rs:60-91 | a drained list leaves out no sequence between a peer's tracker before and after, and acks in each packet what was last heard from that peer |
| `Discipline.RowsGrouped` | antarc-protocol/src/lib.rs:373-423 | what a broadcast schedules makes whole, ordered groups for each peer, interleaved as they are |
| `Reliability.ReliabilityHandler.Push` | antarc-protocol/src/server/service.rs:151-155 | linking layer: a sent reliable packet joins the end of its kind's list |
| `Reliability.ReliabilityHandler.Poll` | antarc-protocol/src/reliability.rs:22-40 | linking layer: the oldest data transfer goes, or else the oldest fragment, and the oldest handshake packet, at any time |
| `Reliability.ReliabilityHandler.Retry` | antarc-protocol/src/reliability.rs:42-140 | linking layer: the newest packet is taken out, and given to be sent when it is late enough |
| `Accounts.ServerAccount` | antarc-protocol/src/reliability.rs:22-140 | over any run of the system, as multisets: the reliable packets the server sent, first and repeated transmissions, are those it keeps, those it took out for a retry and those it let expire; and all were on the wire |
| `Accounts.ClientAccount` | antarc-protocol/src/reliability.rs:22-140 | the same for each client |
| `Reliability.RetryKeepsPacket` | antarc-protocol/src/reliability.rs:42-140 | a packet sent again keeps id, address, sequence, ack and message; the lists lose just that one |
| `Reliability.PollsDrain` | antarc-protocol/src/reliability.rs:22-40 | after n polls: which packets are left in each list; data transfers and fragments fall by one a poll until there are none |
| `Scheduler.SchedulerLists.ScheduleForConnectedPeer` | antarc-protocol/src/scheduler.rs:54-88 | linking layer: one packet joins the end of the list for its reliability and size |
| `Scheduler.SchedulerLists.HeartbeatForConnectedPeer` | antarc-protocol/src/scheduler.rs:90-100 | linking layer: one heartbeat joins the end of its list |
| `Scheduler.SchedulerLists.Drain` | antarc-protocol/src/lib.rs:154-172 | linking layer: a whole list is taken, in order |
| `Peers.PollPeers` | antarc-protocol/src/server.rs:66-77 | linking layer: every connected peer's reassembler is polled, on its own, and nothing else about the peers changes |
| `Endpoint.Protocol.Schedule` | antarc-protocol/src/lib.rs:293-310 | linking layer: the whole effect and result of a call |
| `Endpoint.Protocol.ScheduleHelper` | antarc-protocol/src/lib.rs:346-426 | linking layer: the loops over chunks and peers append the rows, or fail having changed nothing |
| `Endpoint.Protocol.SendHeartbeat` | antarc-protocol/src/lib.rs:312-327 | linking layer: the whole effect and result of a call |
| `Endpoint.Protocol.CreatePacket` | antarc-protocol/src/lib.rs:124-152 | linking layer: the packet carries the peer's next sequence and what was last heard from it |
| `Endpoint.Protocol.SentPacket` | antarc-protocol/src/server/service.rs:137-203 | linking layer: the tracker advances unless this is a fragment before the last; a reliable packet is kept |
| `Endpoint.Protocol.PollScheduled` | antarc/src/lib.rs:60-175 | linking layer: a whole sending loop equals the closed form: each packet's sequence counts the advances before it |
| `Endpoint.SendOneMore` | antarc/src/lib.rs:60-91 | creating, sending and marking one more packet is one more step of the closed form |
| `Endpoint.Protocol.TakeIn` | antarc-protocol/src/server/service.rs:404-441 | linking layer: a fragment joins its group; a full group leaves and becomes an event |
| `ServerService.Server.UnexpectedConnection` | antarc-protocol/src/server/service.rs:224-236 | linking layer: refused when the address awaits, is connected, or is banned |
| `ServerService.Server.AcceptConnection` | antarc-protocol/src/server/service.rs:241-274 | linking layer: a requesting peer awaits and its answer is scheduled; anyone else is an event |
| `ServerService.Server.EnterRequestingPeer` | antarc-protocol/src/server/service.rs:322-340 | linking layer: the requesting peer at the address, or a new one under the next id, which may not exist |
| `ServerService.Server.SentConnectionAccepted` | antarc-protocol/src/server/service.rs:280-302 | linking layer: the tracker of a peer that still awaits advances, and the answer is kept |
| `ServerService.Server.CreateConnectionAccepted` | antarc-protocol/src/server/service.rs:470-485 | linking layer: the answer carries the awaiting peer's sequence and ack |
| `ServerService.Server.HearPeer` | antarc-protocol/src/server/service.rs:351-366 | linking layer: the named peer hears the packet; one that awaited is connected |
| `ServerService.Server.OnDecoded` | antarc-protocol/src/server/service.rs:307-468 | linking layer: the whole effect of any decoded packet |
| `ServerService.Server.OnReceived` | antarc-protocol/src/server.rs:29-39 | linking layer: decode for the server, dispatch, count an id when a peer was accepted |
| `ServerService.Server.PollConnectionAccepted` | antarc/src/server.rs:35-56 | linking layer: the whole loop over scheduled answers equals the closed form |
| `ServerService.Server.PollRetry` | antarc/src/server.rs:19-33 | linking layer: take the newest kept packet, send it when it is late enough, mark it as sent |
| `ServerService.Server.Poll` | antarc-protocol/src/server.rs:66-78 | linking layer: expiry, eviction, and the events handed out |
| `ClientService.Client.ConnectTo` | antarc-protocol/src/client/service.rs:454-479 | linking layer: a new peer requests and its request is scheduled under the next id; a known one is refused and nothing changes |
| `ClientService.Client.CreateConnectionRequest` | antarc-protocol/src/client/service.rs:239-252 | linking layer: the request carries the requesting peer's sequence and ack |
| `ClientService.Client.SentConnectionRequest` | antarc-protocol/src/client/service.rs:256-271 | linking layer: the requesting peer awaits, one sequence on, and the request is kept |
| `ClientService.Client.SentPacket` | antarc-protocol/src/client/service.rs:132-216 | linking layer: as on the server, after connecting a peer that still awaits at that address |
| `ClientService.Client.PollConnectionRequest` | antarc/src/client.rs:55-76 | linking layer: the whole loop over scheduled requests equals the closed form |
| `ClientService.Client.PollScheduled` | antarc/src/lib.rs:60-175 | linking layer: the sending loops promote nobody and equal the server's closed form |
| `ClientService.Client.PollRetry` | antarc/src/lib.rs:177-207 | linking layer: as on the server, for data transfers and fragments |
| `ClientService.Client.PollRetryConnectionRequest` | antarc/src/client.rs:78-92 | linking layer: sending a request again, with the failing unwrap |
| `ClientService.Client.HearPeer` | antarc-protocol/src/client/service.rs:335-349 | linking layer: the connected peer of that id hears the packet, or else the awaiting one at its address, which is then connected |
| `ClientService.Client.OnDecoded` | antarc-protocol/src/client/service.rs:274-443 | linking layer: the whole effect of any decoded packet |
| `ClientService.Client.OnReceived` | antarc-protocol/src/client.rs:45-47 | linking layer: decode for the client, then dispatch |
| `ClientService.Client.Poll` | antarc-protocol/src/client.rs:65-69 | linking layer: expiry and the events handed out; the reassemblers are left alone |
| `ServerDriver.AntarcServer.PollOnce` | antarc/src/server.rs:58-88 | one poll of the server, whatever datagram comes in: what was scheduled is sent, all of it, in the driver's order, behind the retries; the reliable part is kept; a datagram that does not decode becomes one event; then the oldest kept packets expire and the events are handed out; what holds between polls holds again; it fails exactly on a datagram too short to decode or when the ids are used up |
| `ServerDriver.PollSends` | antarc/src/server.rs:61-70 | the ten sending phases, from any state: all seven lists are empty after; the socket was given, in this order, the late retries of handshakes, data and fragments, then one packet for each scheduled one (same id, address and message, acking what was last heard), answers first, then unreliable before reliable data, fragments and heartbeats; the kept lists grow by exactly what was reliable; events, ids and all else about the peers stay |
| `Polls.AnswersStamp` | antarc-protocol/src/server/service.rs:280-302 | an answer carries its peer's next sequence and acks its request, which uses that sequence up; no other awaiting peer changes |
| `Polls.RetryBumpsOne` | antarc-protocol/src/server/service.rs:137-203 | a packet sent again uses up one more sequence of its peer, unless it is a fragment before the last, and of no other peer |
| `ServerDriver.OneReceiveIsAcceptable` | antarc/src/server.rs:61-84 | the one receive of a poll leaves scheduled answers for awaiting peers only, whatever the packet |
| `ServerDriver.DrainRoom` | antarc-protocol/src/server/service.rs:147-149 | sending a list takes no more of the 32-bit sequences than it has packets |
| `ClientDriver.AntarcClient.PollOnce` | antarc/src/client.rs:24-53 | one poll of a client, as for the server; it fails exactly when the newest request kept is late enough to be sent again or the datagram is too short |
| `ClientDriver.PollSends` | antarc/src/client.rs:27-36 | the nine sending phases, from any state of a client: as for the server, with requests first and data alone retried |
| `Polls.RequestsMove` | antarc-protocol/src/client/service.rs:239-271 | sending the requests leaves nobody requesting: each such peer awaits, one sequence on, its request sent with the sequence before |
| `ServerReceives.ReceiveKeepsServer` | antarc-protocol/src/server/service.rs:307-468 | any packet at all leaves the peers alone, admits its sender under the next id, or is heard by the one peer it names; the server's invariant holds after |
| `Hearing.ServerTakesExactly` | antarc-protocol/src/server/service.rs:345-468 | the exact outcome of any packet but a request: the named peer's acks are the packet's sequence and ack, one that awaited is connected, when nothing changes, and which event it makes |
| `Hearing.ServerAdmitsExactly` | antarc-protocol/src/server/service.rs:318-344 | the exact outcome of any request: one more peer awaits, under the next id and acking the request, or no peer changes |
| `Hearing.ServerHearsExactly` | antarc-protocol/src/server/service.rs:318-467 | the same for everything in flight to the server in any state of any run |
| `ServerReceives.ServerStepKeeps` | antarc/src/server.rs:58-88 | every step of a server keeps its invariant, with no assumption on what it receives |
| `ClientReceives.ReceiveKeepsClient` | antarc-protocol/src/client/service.rs:274-443 | any packet at all leaves the client's peers alone or is heard by one; the client's invariant holds after |
| `Hearing.ClientTakesExactly` | antarc-protocol/src/client/service.rs:274-443 | the exact outcome of any packet for any client: which peer hears it or is connected by it, with the packet's sequence and ack as its acks, when none changes, and which event it makes |
| `Hearing.ClientHearsExactly` | antarc-protocol/src/client/service.rs:300-443 | the same for everything in flight to a client in any state of any run |
| `ClientReceives.ClientStepKeeps` | antarc/src/client.rs:24-53 | every step of a client keeps its invariant, with any number of servers and anything received |
| `ClientNodes.CreatingNeverFails` | antarc-protocol/src/client/service.rs:132-216 | under that invariant every list can be created and sent and no peer is promoted by sending |
| `ClientNodes.ResendingAlwaysFails` | antarc-protocol/src/client/service.rs:256-271 | the retry of a request panics exactly when it has one late enough to send, and otherwise sends nothing |
| `Outbox.RetryRepeats` | antarc-protocol/src/reliability.rs:42-140 | a retry repeats an earlier transmission, field for field |
| `Origins.MovesKeepOrigins` | antarc-protocol/src/lib.rs:346-426 | everything a node holds or sent under one packet id stays part of one payload |
| `SystemRuns.NextKeepsInv` | antarc-protocol/src/server/service.rs:307-468 | every step of the system keeps the invariant that couples server, clients and packets in flight |
| `SystemRuns.EveryState` | antarc-protocol/src/server/service.rs:307-468 | so every state of every run has it, with the origins and the reassemblers' facts |
| `Continuations.EveryRunCanConnect` | antarc-protocol/src/client/service.rs:454-479 | every run that has come to a client between polls that has not asked, is not banned and finds an id left, can go on until that client and the server are connected to each other |
| `Continuations.FreshIsReady` | antarc-protocol/src/client/service.rs:222-236 | at the start every client is in that position |
| `Requests.OneRequestEver` | antarc-protocol/src/client/service.rs:256-271 | over any run a client's record holds at most one connection request for its server, and between polls there is none to send again |
| `Requests.ConnectsOnce` | antarc-protocol/src/client/service.rs:445-479 | over any run a client's call to connect succeeds if and only if it never called for that address before; then the peer is requesting and one request is scheduled under the next id; a later call is refused and changes nothing, whatever came of the first |

## Left out

- Several servers for one client: the client's `connected` map is keyed by connection id alone, so ids of two servers can collide. What a client keeps by itself (`ClientReceives.ClientStepKeeps`) is proved for any number of servers, what couples the sides for one.
- Overflow of the 32-bit sequences and the 64-bit packet ids: sequences are unbounded numbers; a step of the system is one that leaves every tracker below the 32-bit bound, and the methods that advance a tracker require it. The 16-bit connection ids and the byte-sized fragment counts are exact.
- The state that a panic leaves behind: a panic ends the run. In particular the peer entered just before the ids run out is not modelled.
- The clock: all phases of one poll see the same time, where the driver reads it at each.
- The CRC algorithm: any function from bytes to 32-bit values stands for it.
- Sockets, a receive that fails (`todo!()` in the driver), threads, logging, `Arc` and capacities.
- `Peer` metadata: times, latest packet ids, attempts after acceptance and the round-trip time are written but never read by the code modelled.
- `cancel_packet`, which is a `todo!()`, and filling the ban list, which no code does; the check against it is modelled.
- `retry_reliable_heartbeat` in the drivers: neither calls it. The model's steps allow it, and a fragment retry on the client, all the same.
- Which of the fresh groups `Peer::poll` drops, and the order of broadcasts: both depend on the hash map's order, and the results hold for all of them.
- `connection.rs`, `header.rs` and `payload.rs`, which the crate does not declare as modules, and the dummy, sample, macro and bench code.
- Liveness: a client can always come to be connected (`Continuations.EveryRunCanConnect`), but need not: a connection request is sent once and its retry cannot work, so a lost request is lost for good (`Requests.OneRequestEver`).
