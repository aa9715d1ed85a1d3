// A retry alone makes a group incomplete: the server's driver sends the newest fragment it keeps a
// second time (antarc/src/lib.rs `poll_retry_fragment`), and its client takes the two for a group.
module RetriedFragments {
  import opened Packets
  import opened Fragments
  import opened Reassembly
  import opened Peers
  import opened Scheduler
  import opened Reliability
  import opened Endpoint
  import opened LocalState
  import opened Discipline
  import opened Outbox
  import opened Reassemblers
  import opened AntarcSystem
  import opened SystemRuns
  import opened Deliveries
  import opened Continuations
  import ServerService
  import ClientService
  import SN = ServerNodes
  import CN = ClientNodes
  import CR = ClientReceives
  import ServerDriver
  import Guarantees

  // The time at which the fragments are sent, and sent again: late enough for a retry.
  const LATE: nat := RETRY_THRESHOLD

  // A payload of two fragments.
  predicate TwoChunks(payload: Bytes) {
    CHUNK_SIZE < |payload| <= 2 * CHUNK_SIZE
  }

  lemma TwoChunksAre(payload: Bytes)
    requires TwoChunks(payload)
    ensures Chunks(payload) == [payload[..CHUNK_SIZE], payload[CHUNK_SIZE..]]
  {
    assert Chunks(payload[CHUNK_SIZE..]) == [payload[CHUNK_SIZE..]];
  }

  // ---------------------------------------------------------------- the server's steps

  function SecondItem(c: ConnectedPeers, id: ConnectionId, payload: Bytes, packetId: nat, now: nat): Scheduled
    requires id in c
  {
    Scheduled(packetId, c[id].address, now, NewFragment(id, payload[if |payload| < CHUNK_SIZE then 0 else CHUNK_SIZE..], 1, 2))
  }

  lemma SchedulesTwo(core: Core, id: ConnectionId, payload: Bytes, order: seq<ConnectionId>, now: nat)
    requires TwoChunks(payload) && id in core.connected && IterationOrder(core.connected, order)
    ensures var (core', r) := ScheduleSpec(core, Reliable, Single(id), payload, order, now);
      && r.Ok? && core' == core.(packetIdTracker := core.packetIdTracker + 1, lists := core'.lists)
      && exists first :: core'.lists == core.lists.Append(ReliableFragments, [first, SecondItem(core.connected, id, payload, core.packetIdTracker, now)])
  {
    TwoChunksAre(payload);
    var c, chunks, packetId := core.connected, Chunks(payload), core.packetIdTracker;
    var first, second := PayloadItem(c, id, chunks, 0, packetId, now), SecondItem(c, id, payload, packetId, now);
    assert Row(c, [id], chunks, 0, packetId, now) == [first];
    assert Row(c, [id], chunks, 1, packetId, now) == [second];
    assert Rows(c, [id], chunks, 0, packetId, now) == [];
    assert Rows(c, [id], chunks, 1, packetId, now) == [first];
    assert Rows(c, [id], chunks, 2, packetId, now) == [first, second];
  }

  // Draining sends the second fragment last, and keeps it last.
  lemma DrainsSecond(core: Core, xs: seq<Scheduled>, x: Scheduled, now: nat, ttl: nat) returns (p: Packet<ToSend>)
    requires core.lists.At(ReliableFragments) == xs + [x] && AllCreatable(core.connected, xs + [x])
    ensures var (core', out) := DrainSpec(core, ReliableFragments, now, ttl);
      && |out| == |xs| + 1 && out[|xs|] == p
      && core'.kept.fragments == core.kept.fragments + AllSent(out, now, ttl)
      && core'.kept.fragments[|core'.kept.fragments| - 1] == MarkSent(p, now, ttl)
    ensures p.delivery == ToSend(x.packetId, now, x.address) && p.message == x.message
    ensures Creatable(core.connected, x) && p.sequence >= core.connected[x.message.connectionId].sequenceTracker
  {
    var (core', out) := DrainSpec(core, ReliableFragments, now, ttl);
    assert (xs + [x])[|xs|] == x;
    p := out[|xs|];
    assert core'.kept.At(KeptFragments) == core.kept.At(KeptFragments) + AllSent(out, now, ttl);
  }

  // Expiry takes an older packet, so the second fragment stays the newest.
  lemma ExpiryKeepsNewest(kept: Kept)
    requires |kept.fragments| >= 2
    ensures Expired(kept).fragments != [] && Expired(kept).fragments[|Expired(kept).fragments| - 1] == kept.fragments[|kept.fragments| - 1]
  {
  }

  lemma SomePoll(c: ConnectedPeers, now: nat) returns (polled: ConnectedPeers)
    requires ReassemblersKeyed(c)
    ensures PolledPeers(c, now, polled)
  {
    polled := map id | id in c :: c[id].(connection := c[id].connection.(reassembler := AfterEviction(c[id].connection.reassembler, now)));
  }

  ghost function AfterEviction(r: Reassembler, now: nat): (r': Reassembler)
    requires WellKeyed(r)
    ensures Evicts(r, now, r')
  {
    if exists q :: q in r && Fresh(r[q], now) then
      var q :| q in r && Fresh(r[q], now);
      r - {q}
    else r
  }

  // The retry takes the newest fragment and sends it once more.
  lemma RetriesNewest(s: ServerService.ServerState, p: SentPacket, now: nat, ttl: nat)
    requires Shaped(s.core.kept) && ServerService.KeptAccepts(s.core.kept)
    requires s.core.kept.fragments != [] && s.core.kept.fragments[|s.core.kept.fragments| - 1] == p
    requires p.delivery.time + now > RETRY_THRESHOLD
    ensures Wires(ServerService.RetrySpec(s, KeptFragments, now, ttl).1) == [WireOfSent(p)]
    ensures ServerService.RetrySpec(s, KeptFragments, now, ttl).1 == [Resent(p, now)]
  {
  }

  // ---------------------------------------------------------------- the client's steps

  // The first time, the fragment opens an entry.
  lemma HearsOnce(s: ClientService.ClientState, p: FragmentPacket)
    requires p.message.connectionId in s.core.connected
    requires p.sequence !in ReassemblerOf(s.core.connected, p.message.connectionId)
    ensures var s' := ClientService.DriverReceive(s, p);
      && p.message.connectionId in s'.core.connected
      && p.sequence in ReassemblerOf(s'.core.connected, p.message.connectionId)
      && ReassemblerOf(s'.core.connected, p.message.connectionId)[p.sequence] == [p]
  {
  }

  // The second time, it completes the count of two, and is handed on by itself.
  lemma HearsTwice(s: ClientService.ClientState, p: FragmentPacket, again: FragmentPacket)
    requires p.message.connectionId in s.core.connected && again.message == p.message && again.sequence == p.sequence && p.message.total == 2
    requires p.sequence in ReassemblerOf(s.core.connected, p.message.connectionId)
    requires ReassemblerOf(s.core.connected, p.message.connectionId)[p.sequence] == [p]
    ensures ClientService.DriverReceive(s, again).core.api == s.core.api + [Delivered(p.message.connectionId, p.message.payload)]
  {
    var g: Group := [p, again];
    assert [p] + [again] == g;
    EqualKeysKeepOrder(BySequence, g);
    assert Payloads(g[..1]) == [p.message.payload];
    assert Flatten([p.message.payload]) == p.message.payload + Flatten([]) by { assert [p.message.payload][1..] == []; }
    assert DeliveredPayload(g) == p.message.payload;
  }

  lemma HearingKeepsTrackers(s: ClientService.ClientState, p: FragmentPacket)
    requires p.message.connectionId in s.core.connected
    ensures var s' := ClientService.DriverReceive(s, p);
      && s'.requesting == s.requesting && s'.awaiting == s.awaiting && s'.core.connected.Keys == s.core.connected.Keys
      && forall id :: id in s.core.connected ==>
        && s'.core.connected[id].sequenceTracker == s.core.connected[id].sequenceTracker
        && s'.core.connected[id].address == s.core.connected[id].address
  {
  }

  // A sequence the server has yet to use is in no client's reassembler.
  lemma NotStoredYet(y: System, a: SocketAddr, id: ConnectionId, q: Sequence)
    requires StateOk(y) && a in y.clients && id in y.server.state.core.connected && y.server.state.core.connected[id].address == a
    requires y.server.state.core.connected[id].sequenceTracker <= q
    ensures q !in ReassemblerOf(y.clients[a].state.core.connected, id)
  {
    var r := ReassemblerOf(y.clients[a].state.core.connected, id);
    if q in r {
      ClientWasStored(y, a, id);
      NodesOk(y, a);
      StoredBelow(y.server, a, id, r, y.server.oversized, q);
    }
  }

  lemma StoredBelow(n: SN.ServerNode, a: SocketAddr, id: ConnectionId, r: Reassembler, oversized: bool, q: Sequence)
    requires SN.ServerNodeOk(n) && id in n.state.core.connected && n.state.core.connected[id].address == a
    requires WellKeyed(r) && Stored(n.first, a, oversized, r) && q in r
    ensures q < n.state.core.connected[id].sequenceTracker
  {
    var p := r[q][0];
    assert GroupOk(n.first, a, oversized, r[q]) && p in r[q];
    var v :| v in n.first && Carries(v, a, p);
    assert SN.SentBelow(n.state, v);
    assert SN.Known(n.state, id) && SN.Link(n.state, id).address == a;
  }

  // ---------------------------------------------------------------- the nodes, step by step

  function Second(id: ConnectionId, payload: Bytes): Message {
    NewFragment(id, payload[if |payload| < CHUNK_SIZE then 0 else CHUNK_SIZE..], 1, 2)
  }

  // Two fragments wait to be sent, the second of the payload last.
  ghost predicate TwoWait(n: SN.ServerNode, a: SocketAddr, id: ConnectionId, payload: Bytes) {
    && id in n.state.core.connected && n.state.core.connected[id].address == a
    && ServerDriver.RoomFor(n.state, 2)
    && exists xs, x :: xs != [] && n.state.core.lists.At(ReliableFragments) == xs + [x] && x.address == a && x.message == Second(id, payload)
  }

  // The second fragment was sent and is the newest kept, with at least k kept.
  ghost predicate TwoSent(n: SN.ServerNode, a: SocketAddr, id: ConnectionId, payload: Bytes, w: Wire, k: nat) {
    var kept := n.state.core.kept.fragments;
    && ServerDriver.RoomFor(n.state, 1)
    && w in n.sent && w.address == a && w.message == Second(id, payload)
    && |kept| >= k > 0 && kept[|kept| - 1].delivery.time == LATE && WireOfSent(kept[|kept| - 1]) == w
  }

  // The client's entry holds the second fragment, and nothing else.
  ghost predicate HalfStored(c: CN.ClientNode, id: ConnectionId, w: Wire) {
    var r := ReassemblerOf(c.state.core.connected, id);
    && id in c.state.core.connected
    && w.sequence in r && |r[w.sequence]| == 1 && r[w.sequence][0].message == w.message && r[w.sequence][0].sequence == w.sequence
  }

  lemma ServerSchedules(n: SN.ServerNode, a: SocketAddr, id: ConnectionId, payload: Bytes, order: seq<ConnectionId>, ttl: nat) returns (n': SN.ServerNode)
    requires id in n.state.core.connected && n.state.core.connected[id].address == a
    requires ServerDriver.RoomFor(n.state, 4) && TwoChunks(payload) && IterationOrder(n.state.core.connected, order)
    ensures SN.ServerStep(n, SN.Schedule(Reliable, Single(id), payload, order), n', 0, ttl) && TwoWait(n', a, id, payload)
    ensures n'.state.core.connected == n.state.core.connected && n'.first == n.first
  {
    var core := n.state.core;
    var core' := ScheduleSpec(core, Reliable, Single(id), payload, order, 0).0;
    SchedulesTwo(core, id, payload, order, 0);
    TwoChunksAre(payload);
    n' := n.(state := n.state.(core := core'));
    var x := SecondItem(core.connected, id, payload, core.packetIdTracker, 0);
    var first :| core'.lists == core.lists.Append(ReliableFragments, [first, x]);
    assert core'.lists.At(ReliableFragments) == (core.lists.At(ReliableFragments) + [first]) + [x];
  }

  lemma ServerDrains(n: SN.ServerNode, a: SocketAddr, id: ConnectionId, payload: Bytes, ttl: nat) returns (n': SN.ServerNode, w: Wire)
    requires TwoWait(n, a, id, payload) && AllCreatable(n.state.core.connected, n.state.core.lists.At(ReliableFragments))
    ensures SN.ServerStep(n, SN.Drain(ReliableFragments), n', LATE, ttl) && TwoSent(n', a, id, payload, w, 2)
    ensures w.sequence >= n.state.core.connected[id].sequenceTracker
  {
    var xs, x :| xs != [] && n.state.core.lists.At(ReliableFragments) == xs + [x] && x.address == a && x.message == Second(id, payload);
    var (core', out) := DrainSpec(n.state.core, ReliableFragments, LATE, ttl);
    var p := DrainsSecond(n.state.core, xs, x, LATE, ttl);
    w := WireOf(p);
    n' := SN.Transmit(n, n.state.(core := core'), out);
    LastIsSent(n, n.state.(core := core'), out);
    ServerDriver.DrainRoom(n.state, ReliableFragments, LATE, ttl, 2);
    KeepsLast(n'.state.core.kept.fragments, p, ttl);
  }

  lemma LastIsSent(n: SN.ServerNode, s': ServerService.ServerState, out: seq<Packet<ToSend>>)
    requires out != []
    ensures WireOf(out[|out| - 1]) in SN.Transmit(n, s', out).sent
  {
    assert Wires(out)[|out| - 1] in Wires(out);
  }

  lemma KeepsLast(kept: seq<SentPacket>, p: Packet<ToSend>, ttl: nat)
    requires kept != [] && kept[|kept| - 1] == MarkSent(p, LATE, ttl)
    ensures kept[|kept| - 1].delivery.time == LATE && WireOfSent(kept[|kept| - 1]) == WireOf(p)
  {
  }

  lemma ServerExpires(n: SN.ServerNode, a: SocketAddr, id: ConnectionId, payload: Bytes, w: Wire, ttl: nat) returns (n': SN.ServerNode, polled: ConnectedPeers)
    requires ReassemblersKeyed(n.state.core.connected) && TwoSent(n, a, id, payload, w, 2)
    ensures SN.ServerStep(n, SN.Poll(polled), n', LATE, ttl) && TwoSent(n', a, id, payload, w, 1)
  {
    polled := SomePoll(n.state.core.connected, LATE);
    ExpiryKeepsNewest(n.state.core.kept);
    n' := n.(state := n.state.(core := n.state.core.(connected := polled, kept := Expired(n.state.core.kept), api := [])));
  }

  // The server's retry of a fragment sends exactly this once more.
  ghost predicate RetriesWire(s: ServerService.ServerState, w: Wire, ttl: nat) {
    && Shaped(s.core.kept) && ServerService.KeptAccepts(s.core.kept)
    && Wires(ServerService.RetrySpec(s, KeptFragments, LATE, ttl).1) == [w]
  }

  lemma ServerRetries(n: SN.ServerNode, a: SocketAddr, id: ConnectionId, payload: Bytes, w: Wire, ttl: nat) returns (n': SN.ServerNode)
    requires Shaped(n.state.core.kept) && ServerService.KeptAccepts(n.state.core.kept) && TwoSent(n, a, id, payload, w, 1)
    ensures SN.ServerStep(n, SN.ServerAction.Retry(KeptFragments), n', LATE, ttl) && RetriesWire(n.state, w, ttl)
    ensures ServerDriver.RoomFor(n'.state, 0) && w in n'.sent
  {
    var kept := n.state.core.kept.fragments;
    RetriesNewest(n.state, kept[|kept| - 1], LATE, ttl);
    ServerDriver.RetryRoom(n.state, KeptFragments, LATE, ttl, 0);
    var (s', out) := ServerService.RetrySpec(n.state, KeptFragments, LATE, ttl);
    n' := n.(state := s', sent := n.sent + set v | v in Wires(out));
  }

  lemma ClientHearsFragment(c: CN.ClientNode, serverAddress: SocketAddr, id: ConnectionId, w: Wire, ttl: nat) returns (c': CN.ClientNode)
    requires id in c.state.core.connected && c.phase == CN.Sending && CountedClient(c.state, serverAddress)
    requires w.message.Fragment? && w.message.connectionId == id
    ensures CN.ClientStep(c, CN.Receive(Delivery(w, serverAddress, LATE)), c', LATE, ttl)
    ensures c'.phase == CN.Phase.Received && CountedClient(c'.state, serverAddress)
    ensures c'.state == ClientService.DriverReceive(c.state, Delivery(w, serverAddress, LATE))
  {
    var p := Delivery(w, serverAddress, LATE);
    c' := c.(state := ClientService.DriverReceive(c.state, p), phase := CN.Phase.Received);
    HearingKeepsTrackers(c.state, p);
    SameTrackers(c.state, c'.state, serverAddress);
  }

  lemma ClientFinishes(c: CN.ClientNode, serverAddress: SocketAddr, id: ConnectionId, w: Wire, ttl: nat) returns (c': CN.ClientNode)
    requires c.phase == CN.Phase.Received && HalfStored(c, id, w) && CountedClient(c.state, serverAddress)
    ensures CN.ClientStep(c, CN.Poll, c', LATE, ttl) && CountedClient(c'.state, serverAddress)
    ensures c'.phase == CN.Idle && HalfStored(c', id, w)
  {
    c' := c.(state := c.state.(core := c.state.core.(kept := Expired(c.state.core.kept), api := [])), phase := CN.Idle);
    SameTrackers(c.state, c'.state, serverAddress);
  }

  lemma ClientHearsFirst(c: CN.ClientNode, serverAddress: SocketAddr, id: ConnectionId, payload: Bytes, w: Wire, ttl: nat) returns (c': CN.ClientNode)
    requires id in c.state.core.connected && c.phase == CN.Sending && CountedClient(c.state, serverAddress)
    requires w.message == Second(id, payload) && w.sequence !in ReassemblerOf(c.state.core.connected, id)
    ensures CN.ClientStep(c, CN.Receive(Delivery(w, serverAddress, LATE)), c', LATE, ttl)
    ensures c'.phase == CN.Phase.Received && CountedClient(c'.state, serverAddress) && HalfStored(c', id, w)
  {
    HearsOnce(c.state, Delivery(w, serverAddress, LATE));
    c' := ClientHearsFragment(c, serverAddress, id, w, ttl);
  }

  lemma ClientHearsAgain(c: CN.ClientNode, serverAddress: SocketAddr, id: ConnectionId, payload: Bytes, w: Wire, ttl: nat) returns (c': CN.ClientNode)
    requires HalfStored(c, id, w) && c.phase == CN.Sending && CountedClient(c.state, serverAddress)
    requires w.message == Second(id, payload) && TwoChunks(payload)
    ensures CN.ClientStep(c, CN.Receive(Delivery(w, serverAddress, LATE)), c', LATE, ttl) && CountedClient(c'.state, serverAddress)
    ensures c'.state.core.api == c.state.core.api + [Delivered(id, payload[CHUNK_SIZE..])]
  {
    var first := ReassemblerOf(c.state.core.connected, id)[w.sequence][0];
    assert ReassemblerOf(c.state.core.connected, id)[w.sequence] == [first];
    HearsTwice(c.state, first, Delivery(w, serverAddress, LATE));
    c' := ClientHearsFragment(c, serverAddress, id, w, ttl);
  }

  // ---------------------------------------------------------------- the run

  lemma TraceOn(ys: seq<System>, steps: seq<Step>, step: Step, y': System)
    requires Trace(ys, steps) && Next(Last(ys), step.action, y', step.now)
    ensures Trace(ys + [y'], steps + [step])
  {
    var zs, all := ys + [y'], steps + [step];
    forall i: nat | i < |all| ensures Follow(zs, all, i) {
      if i < |steps| { assert Follow(ys, steps, i); }
    }
  }

  lemma TraceStateOk(ys: seq<System>, steps: seq<Step>)
    requires Trace(ys, steps)
    ensures StateOk(Last(ys))
  {
    TraceIsRun(ys, steps);
    EveryState(ys, |steps|);
  }

  lemma TraceServerFacts(ys: seq<System>, steps: seq<Step>)
    requires Trace(ys, steps)
    ensures var core := Last(ys).server.state.core;
      && AllCreatable(core.connected, core.lists.At(ReliableFragments))
      && Shaped(core.kept) && ServerService.KeptAccepts(core.kept) && ReassemblersKeyed(core.connected)
  {
    TraceIsRun(ys, steps);
    Guarantees.ServerCreatesAll(ys, |steps|, ReliableFragments);
  }

  lemma TraceCounted(ys: seq<System>, steps: seq<Step>, a: SocketAddr)
    requires Trace(ys, steps) && a in Last(ys).clients
    ensures CountedClient(Last(ys).clients[a].state, Last(ys).serverAddress)
  {
    TraceStateOk(ys, steps);
    NodesOk(Last(ys), a);
  }

  // One step more of the server, or of a client, at the end of a run.
  lemma ServerGoesOn(ys: seq<System>, steps: seq<Step>, act: SN.ServerAction, n: SN.ServerNode, now: nat, room: nat) returns (zs: seq<System>)
    requires Trace(ys, steps) && !act.Receive? && SN.ServerStep(Last(ys).server, act, n, now, Last(ys).ttl)
    requires ServerDriver.RoomFor(n.state, room)
    ensures zs == ys + [WithServer(Last(ys), n)] && Trace(zs, steps + [Step(ServerActs(act), now)])
  {
    TraceStateOk(ys, steps);
    RoomIsCounted(n.state, room);
    ServerCanAct(Last(ys), act, n, now);
    zs := ys + [WithServer(Last(ys), n)];
    TraceOn(ys, steps, Step(ServerActs(act), now), WithServer(Last(ys), n));
  }

  lemma RoomIsCounted(s: ServerService.ServerState, k: nat)
    requires ServerDriver.RoomFor(s, k)
    ensures CountedServer(s)
  {
  }

  lemma ClientGoesOn(ys: seq<System>, steps: seq<Step>, a: SocketAddr, action: CN.ClientAction, c: CN.ClientNode, now: nat) returns (zs: seq<System>)
    requires Trace(ys, steps) && a in Last(ys).clients && CN.ClientStep(Last(ys).clients[a], action, c, now, Last(ys).ttl)
    requires !action.Receive? && !action.Connect? && CountedClient(c.state, Last(ys).serverAddress)
    ensures zs == ys + [WithClient(Last(ys), a, c)] && Trace(zs, steps + [Step(ClientActs(a, action), now)])
  {
    TraceStateOk(ys, steps);
    ClientCanAct(Last(ys), a, action, c, now);
    zs := ys + [WithClient(Last(ys), a, c)];
    TraceOn(ys, steps, Step(ClientActs(a, action), now), WithClient(Last(ys), a, c));
  }

  lemma ClientWakesUp(ys: seq<System>, steps: seq<Step>, a: SocketAddr) returns (zs: seq<System>)
    requires Trace(ys, steps) && a in Last(ys).clients && Last(ys).clients[a].phase == CN.Idle
    ensures zs == ys + [WithClient(Last(ys), a, Last(ys).clients[a].(phase := CN.Sending))]
    ensures Trace(zs, steps + [Step(ClientActs(a, CN.Resend), LATE)])
  {
    TraceStateOk(ys, steps);
    var y := CanWake(Last(ys), a, LATE);
    zs := ys + [y];
    TraceOn(ys, steps, Step(ClientActs(a, CN.Resend), LATE), y);
  }

  lemma ClientHearsOn(ys: seq<System>, steps: seq<Step>, a: SocketAddr, w: Wire, c: CN.ClientNode, now: nat) returns (zs: seq<System>)
    requires Trace(ys, steps) && a in Last(ys).clients && w in Last(ys).server.sent && w.address == a
    requires CN.ClientStep(Last(ys).clients[a], CN.Receive(Delivery(w, Last(ys).serverAddress, now)), c, now, Last(ys).ttl)
    requires CountedClient(c.state, Last(ys).serverAddress)
    ensures zs == ys + [WithClient(Last(ys), a, c)] && Trace(zs, steps + [Step(ClientHears(a, w), now)])
  {
    TraceStateOk(ys, steps);
    ClientCanHear(Last(ys), a, w, c, now);
    zs := ys + [WithClient(Last(ys), a, c)];
    TraceOn(ys, steps, Step(ClientHears(a, w), now), WithClient(Last(ys), a, c));
  }

  ghost predicate Paired(y: System, a: SocketAddr, id: ConnectionId) {
    && a in y.clients && id in y.server.state.core.connected && y.server.state.core.connected[id].address == a
    && y.clients[a].phase == CN.Sending
  }

  // The server sends the two fragments of a payload.
  lemma SchedulesOn(ys: seq<System>, steps: seq<Step>, a: SocketAddr, id: ConnectionId, payload: Bytes, order: seq<ConnectionId>) returns (zs: seq<System>)
    requires Trace(ys, steps) && Paired(Last(ys), a, id) && TwoChunks(payload)
    requires ServerDriver.RoomFor(Last(ys).server.state, 4) && IterationOrder(Last(ys).server.state.core.connected, order)
    ensures Trace(zs, steps + [Step(ServerActs(SN.Schedule(Reliable, Single(id), payload, order)), 0)]) && ys <= zs
    ensures Last(zs) == WithServer(Last(ys), Last(zs).server) && TwoWait(Last(zs).server, a, id, payload)
    ensures Last(zs).server.state.core.connected == Last(ys).server.state.core.connected
  {
    var n := ServerSchedules(Last(ys).server, a, id, payload, order, Last(ys).ttl);
    zs := ServerGoesOn(ys, steps, SN.Schedule(Reliable, Single(id), payload, order), n, 0, 2);
  }

  lemma DrainsOn(ys: seq<System>, steps: seq<Step>, a: SocketAddr, id: ConnectionId, payload: Bytes) returns (zs: seq<System>, w: Wire)
    requires Trace(ys, steps) && TwoWait(Last(ys).server, a, id, payload)
    ensures Trace(zs, steps + [Step(ServerActs(SN.Drain(ReliableFragments)), LATE)]) && ys <= zs
    ensures Last(zs) == WithServer(Last(ys), Last(zs).server) && TwoSent(Last(zs).server, a, id, payload, w, 2)
    ensures w.sequence >= Last(ys).server.state.core.connected[id].sequenceTracker
  {
    TraceServerFacts(ys, steps);
    var n;
    n, w := ServerDrains(Last(ys).server, a, id, payload, Last(ys).ttl);
    zs := ServerGoesOn(ys, steps, SN.Drain(ReliableFragments), n, LATE, 1);
  }

  // Its client hears the second of them.
  lemma HearsSecond(ys: seq<System>, steps: seq<Step>, a: SocketAddr, id: ConnectionId, payload: Bytes, w: Wire)
      returns (zs: seq<System>, all: seq<Step>)
    requires Trace(ys, steps) && a in Last(ys).clients && Last(ys).clients[a].phase == CN.Sending && TwoSent(Last(ys).server, a, id, payload, w, 2)
    requires id in Last(ys).clients[a].state.core.connected && w.sequence !in ReassemblerOf(Last(ys).clients[a].state.core.connected, id)
    ensures Trace(zs, all) && ys <= zs
    ensures all == steps + [Step(ClientHears(a, w), LATE), Step(ClientActs(a, CN.Poll), LATE)]
    ensures a in Last(zs).clients && Last(zs) == WithClient(Last(ys), a, Last(zs).clients[a])
    ensures HalfStored(Last(zs).clients[a], id, w) && Last(zs).clients[a].phase == CN.Idle
  {
    var y := Last(ys);
    var first, second := Step(ClientHears(a, w), LATE), Step(ClientActs(a, CN.Poll), LATE);
    TraceCounted(ys, steps, a);
    var c := ClientHearsFirst(y.clients[a], y.serverAddress, id, payload, w, y.ttl);
    var ys' := ClientHearsOn(ys, steps, a, w, c, LATE);
    var c' := ClientFinishes(c, y.serverAddress, id, w, y.ttl);
    zs := ClientGoesOn(ys', steps + [first], a, CN.Poll, c', LATE);
    all := steps + [first, second];
    assert steps + [first] + [second] == all;
    assert Last(zs).clients == y.clients[a := c'];
  }

  // The server's next poll expires an older fragment, and the one after retries the second.
  lemma ExpiresOn(ys: seq<System>, steps: seq<Step>, a: SocketAddr, id: ConnectionId, payload: Bytes, w: Wire)
      returns (zs: seq<System>, polled: ConnectedPeers)
    requires Trace(ys, steps) && TwoSent(Last(ys).server, a, id, payload, w, 2)
    ensures Trace(zs, steps + [Step(ServerActs(SN.Poll(polled)), LATE)]) && ys <= zs
    ensures Last(zs) == WithServer(Last(ys), Last(zs).server) && TwoSent(Last(zs).server, a, id, payload, w, 1)
  {
    TraceServerFacts(ys, steps);
    var n;
    n, polled := ServerExpires(Last(ys).server, a, id, payload, w, Last(ys).ttl);
    zs := ServerGoesOn(ys, steps, SN.Poll(polled), n, LATE, 1);
  }

  lemma RetriesOn(ys: seq<System>, steps: seq<Step>, a: SocketAddr, id: ConnectionId, payload: Bytes, w: Wire) returns (zs: seq<System>)
    requires Trace(ys, steps) && TwoSent(Last(ys).server, a, id, payload, w, 1)
    ensures Trace(zs, steps + [Step(ServerActs(SN.ServerAction.Retry(KeptFragments)), LATE)]) && ys <= zs
    ensures Last(zs) == WithServer(Last(ys), Last(zs).server) && w in Last(zs).server.sent
    ensures RetriesWire(Last(ys).server.state, w, Last(ys).ttl)
  {
    TraceServerFacts(ys, steps);
    var n := ServerRetries(Last(ys).server, a, id, payload, w, Last(ys).ttl);
    zs := ServerGoesOn(ys, steps, SN.ServerAction.Retry(KeptFragments), n, LATE, 0);
  }

  // And the client hands on what it then takes for the whole.
  lemma HandsOnSecond(ys: seq<System>, steps: seq<Step>, a: SocketAddr, id: ConnectionId, payload: Bytes, w: Wire)
      returns (zs: seq<System>, all: seq<Step>)
    requires Trace(ys, steps) && a in Last(ys).clients && Last(ys).clients[a].phase == CN.Idle && HalfStored(Last(ys).clients[a], id, w)
    requires w in Last(ys).server.sent && w.address == a && w.message == Second(id, payload) && TwoChunks(payload)
    ensures Trace(zs, all) && ys <= zs && all == steps + [Step(ClientActs(a, CN.Resend), LATE), Step(ClientHears(a, w), LATE)]
    ensures a in Last(zs).clients
    ensures |zs| == |ys| + 2 && a in zs[|ys|].clients
    ensures Last(zs).clients[a].state.core.api == zs[|ys|].clients[a].state.core.api + [Delivered(id, payload[CHUNK_SIZE..])]
  {
    var y := Last(ys);
    var c := y.clients[a].(phase := CN.Sending);
    var first, second := Step(ClientActs(a, CN.Resend), LATE), Step(ClientHears(a, w), LATE);
    TraceCounted(ys, steps, a);
    SameTrackers(y.clients[a].state, c.state, y.serverAddress);
    var ys' := ClientWakesUp(ys, steps, a);
    var c' := ClientHearsAgain(c, y.serverAddress, id, payload, w, y.ttl);
    zs := ClientHearsOn(ys', steps + [first], a, w, c', LATE);
    all := steps + [first, second];
    assert steps + [first] + [second] == all;
  }

  lemma ClientIsConnected(ys: seq<System>, steps: seq<Step>, a: SocketAddr, id: ConnectionId)
    requires Trace(ys, steps) && Paired(Last(ys), a, id)
    ensures id in Last(ys).clients[a].state.core.connected
    ensures forall q: Sequence :: Last(ys).server.state.core.connected[id].sequenceTracker <= q ==>
      q !in ReassemblerOf(Last(ys).clients[a].state.core.connected, id)
  {
    TraceStateOk(ys, steps);
    assert ClientInv(Last(ys), a);
    forall q: Sequence | Last(ys).server.state.core.connected[id].sequenceTracker <= q
      ensures q !in ReassemblerOf(Last(ys).clients[a].state.core.connected, id)
    {
      NotStoredYet(Last(ys), a, id, q);
    }
  }

  // The steps by which a payload of two fragments is handed on without its first.
  function HalfSteps(a: SocketAddr, id: ConnectionId, payload: Bytes, order: seq<ConnectionId>, w: Wire): seq<Step> {
    [Step(ServerActs(SN.Schedule(Reliable, Single(id), payload, order)), 0), Step(ServerActs(SN.Drain(ReliableFragments)), LATE),
     Step(ClientHears(a, w), LATE), Step(ClientActs(a, CN.Poll), LATE)]
  }

  function RetrySteps(a: SocketAddr, w: Wire, polled: ConnectedPeers): seq<Step> {
    [Step(ServerActs(SN.Poll(polled)), LATE), Step(ServerActs(SN.ServerAction.Retry(KeptFragments)), LATE),
     Step(ClientActs(a, CN.Resend), LATE), Step(ClientHears(a, w), LATE)]
  }

  lemma StoresHalf(ys: seq<System>, steps: seq<Step>, a: SocketAddr, id: ConnectionId, payload: Bytes, order: seq<ConnectionId>)
      returns (zs: seq<System>, all: seq<Step>, w: Wire)
    requires Trace(ys, steps) && Paired(Last(ys), a, id) && TwoChunks(payload)
    requires ServerDriver.RoomFor(Last(ys).server.state, 4) && IterationOrder(Last(ys).server.state.core.connected, order)
    ensures Trace(zs, all) && ys <= zs && all == steps + HalfSteps(a, id, payload, order, w)
    ensures TwoSent(Last(zs).server, a, id, payload, w, 2) && Last(zs).ttl == Last(ys).ttl
    ensures a in Last(zs).clients && HalfStored(Last(zs).clients[a], id, w) && Last(zs).clients[a].phase == CN.Idle
  {
    ClientIsConnected(ys, steps, a, id);
    zs := SchedulesOn(ys, steps, a, id, payload, order);
    all := steps + [Step(ServerActs(SN.Schedule(Reliable, Single(id), payload, order)), 0)];
    zs, w := DrainsOn(zs, all, a, id, payload);
    zs, all := HearsSecond(zs, all + [Step(ServerActs(SN.Drain(ReliableFragments)), LATE)], a, id, payload, w);
    assert all == steps + HalfSteps(a, id, payload, order, w);
  }

  // In every run that has come to a client that the server has connected and that is about to receive, a retry can make a group
  // of two incomplete: the client hears the second fragment as it was first sent, and as the
  // server's own retry sends it again, and hands on that fragment by itself. No fault of the
  // network has a part in this: each of the two transmissions arrives once.
  lemma RetryGivesOutHalf(ys: seq<System>, steps: seq<Step>, a: SocketAddr, id: ConnectionId, payload: Bytes, order: seq<ConnectionId>)
      returns (zs: seq<System>, all: seq<Step>, w: Wire, polled: ConnectedPeers)
    requires Trace(ys, steps) && Paired(Last(ys), a, id) && TwoChunks(payload)
    requires ServerDriver.RoomFor(Last(ys).server.state, 4) && IterationOrder(Last(ys).server.state.core.connected, order)
    ensures Trace(zs, all) && ys <= zs && all == steps + HalfSteps(a, id, payload, order, w) + RetrySteps(a, w, polled)
    ensures w.message == Second(id, payload)
    ensures RetriesWire(zs[|ys| + 4].server.state, w, Last(ys).ttl)
    ensures a in zs[|ys| + 6].clients && a in Last(zs).clients
    ensures Last(zs).clients[a].state.core.api == zs[|ys| + 6].clients[a].state.core.api + [Delivered(id, payload[CHUNK_SIZE..])]
    ensures payload[CHUNK_SIZE..] != payload
  {
    zs, all, w := StoresHalf(ys, steps, a, id, payload, order);
    ghost var half := all;
    zs, all, polled := RetriesSecond(zs, all, a, id, payload, w);
    zs, all := HandsOnSecond(zs, all, a, id, payload, w);
    assert all == half + RetrySteps(a, w, polled);
  }

  lemma RetriesSecond(ys: seq<System>, steps: seq<Step>, a: SocketAddr, id: ConnectionId, payload: Bytes, w: Wire)
      returns (zs: seq<System>, all: seq<Step>, polled: ConnectedPeers)
    requires Trace(ys, steps) && TwoSent(Last(ys).server, a, id, payload, w, 2)
    ensures Trace(zs, all) && ys <= zs && |zs| == |ys| + 2
    ensures all == steps + [Step(ServerActs(SN.Poll(polled)), LATE), Step(ServerActs(SN.ServerAction.Retry(KeptFragments)), LATE)]
    ensures Last(zs).clients == Last(ys).clients && w in Last(zs).server.sent && RetriesWire(zs[|ys|].server.state, w, Last(ys).ttl)
  {
    zs, polled := ExpiresOn(ys, steps, a, id, payload, w);
    var first, second := Step(ServerActs(SN.Poll(polled)), LATE), Step(ServerActs(SN.ServerAction.Retry(KeptFragments)), LATE);
    zs := RetriesOn(zs, steps + [first], a, id, payload, w);
    all := steps + [first] + [second];
    assert all == steps + [first, second];
  }
}
