// What the protocol promises, in every state of every run.
module Guarantees {
  import opened Packets
  import opened Fragments
  import opened Reassembly
  import opened Peers
  import opened Scheduler
  import opened Reliability
  import opened Endpoint
  import opened LocalState
  import opened Discipline
  import opened Outbox
  import opened Origins
  import opened OriginSteps
  import opened Reassemblers
  import opened AntarcSystem
  import opened SystemRuns
  import opened Codec
  import ServerService
  import ClientService
  import SN = ServerNodes
  import SR = ServerReceives
  import CN = ClientNodes
  import ServerSteps

  // ---------------------------------------------------------------- the handshake

  // A connected client is known to the server, at the client's address; a peer the server has
  // connected is a client connected under that id; and a client has at most one id.
  lemma HandshakeAgreement(ys: seq<System>, i: nat, a: SocketAddr)
    requires IsRun(ys) && i < |ys| && a in ys[i].clients
    ensures var server, client := ys[i].server.state, ys[i].clients[a].state.core.connected;
      && (forall id :: id in client ==>
            SN.Known(server, id) && SN.Link(server, id).address == a && client[id].address == ys[i].serverAddress)
      && (forall id :: id in server.core.connected && server.core.connected[id].address == a ==> id in client)
      && (forall id, k :: id in client && k in client ==> id == k)
  {
    EveryState(ys, i);
    assert ClientInv(ys[i], a);
  }

  // Nobody is connected to the server but its clients.
  lemma ConnectedAreClients(ys: seq<System>, i: nat, id: ConnectionId)
    requires IsRun(ys) && i < |ys| && id in ys[i].server.state.core.connected
    ensures var a := ys[i].server.state.core.connected[id].address;
      a in ys[i].clients && id in ys[i].clients[a].state.core.connected
  {
    EveryState(ys, i);
    var a := ys[i].server.state.core.connected[id].address;
    assert SN.Known(ys[i].server.state, id) && SN.Link(ys[i].server.state, id).address == a;
    assert ClientInv(ys[i], a);
  }

  // Over time no client gets a second id, and it never loses the one it has.
  lemma OneIdForEver(ys: seq<System>, i: nat, j: nat, a: SocketAddr, id: ConnectionId)
    requires IsRun(ys) && i <= j < |ys| && a in ys[i].clients && id in ys[i].clients[a].state.core.connected
    ensures a in ys[j].clients && ys[j].clients[a].state.core.connected.Keys == {id}
  {
    LaterStates(ys, i, j);
    assert ClientGrows(ys[i].clients[a], ys[j].clients[a]);
    HandshakeAgreement(ys, j, a);
  }

  // An id belongs to one address for ever: what the server knows it keeps, and it reuses no id.
  lemma IdsAreNotReused(ys: seq<System>, i: nat, j: nat, id: ConnectionId)
    requires IsRun(ys) && i <= j < |ys| && SN.Known(ys[i].server.state, id)
    ensures SN.Known(ys[j].server.state, id)
    ensures SN.Link(ys[j].server.state, id).address == SN.Link(ys[i].server.state, id).address
    ensures id in ys[i].server.state.core.connected ==> id in ys[j].server.state.core.connected
  {
    LaterStates(ys, i, j);
    assert StillKnown(ys[i].server, ys[j].server, id);
  }

  // ---------------------------------------------------------------- the server's peers

  lemma {:induction false} IdsBelow(ids: set<ConnectionId>, n: ConnectionId)
    requires forall id: ConnectionId :: id in ids <==> id < n
    ensures |ids| == n - 1
  {
    if n > 1 {
      var last: ConnectionId := n - 1;
      IdsBelow(ids - {last}, last);
    } else {
      assert ids == {};
    }
  }

  // The ids below the tracker are either awaiting or connected, not both, at distinct addresses;
  // nobody is left requesting; and there are at most 65534 of them.
  lemma ServerPartition(ys: seq<System>, i: nat)
    requires IsRun(ys) && i < |ys|
    ensures var s := ys[i].server.state;
      && s.requesting == map[]
      && s.awaiting.Keys !! s.core.connected.Keys
      && (forall id: ConnectionId :: id in s.awaiting.Keys + s.core.connected.Keys <==> id < s.connectionIdTracker)
      && (forall j, k :: SN.Known(s, j) && SN.Known(s, k) && SN.Link(s, j).address == SN.Link(s, k).address ==> j == k)
      && |s.awaiting| + |s.core.connected| == s.connectionIdTracker - 1 <= 65534
  {
    EveryState(ys, i);
    PartitionCounts(ys[i].server.state);
  }

  lemma PartitionCounts(s: ServerService.ServerState)
    requires SN.Partition(s)
    ensures s.awaiting.Keys !! s.core.connected.Keys
    ensures forall id: ConnectionId :: id in s.awaiting.Keys + s.core.connected.Keys <==> id < s.connectionIdTracker
    ensures |s.awaiting| + |s.core.connected| == s.connectionIdTracker - 1
  {
    var ids := s.awaiting.Keys + s.core.connected.Keys;
    forall id: ConnectionId ensures id in ids <==> id < s.connectionIdTracker {
      assert id in ids <==> SN.Known(s, id);
    }
    IdsBelow(ids, s.connectionIdTracker);
  }

  // What a connection request comes to, then: the branches for a peer that is requesting already
  // (`attempts`) and for one that is not found are never taken. The server panics exactly when
  // it has given out the 65534 ids before the last one.
  lemma RequestsComeTo(ys: seq<System>, i: nat, p: Packet<Received>, now: nat)
    requires IsRun(ys) && i < |ys| && p.message.ConnectionRequest?
    ensures var s, a := ys[i].server.state, p.delivery.address;
      var (s', r) := ServerService.ReceiveRequest(s, p, now);
      if ServerService.InAnotherState(s, a) then s' == s && r == Err(PeerInAnotherState(a))
      else if a in s.banList then s' == s && r == Err(Banned(a))
      else if s.connectionIdTracker == MAX_CONNECTION_ID then s' == s && r == Panic
      else
        && r == Ok(true)
        && s' == s.(
             awaiting := s.awaiting[s.connectionIdTracker := Peer(1, p.sequence, 0, a, Awaiting(0))],
             connectionIdTracker := s.connectionIdTracker + 1,
             core := s.core.(lists := s.core.lists.Append(Handshakes,
               [Scheduled(s.core.packetIdTracker, a, now, ConnectionAccepted(s.connectionIdTracker))])))
  {
    EveryState(ys, i);
    var s := ys[i].server.state;
    if !ServerService.InAnotherState(s, p.delivery.address) && p.delivery.address !in s.banList && s.connectionIdTracker != MAX_CONNECTION_ID {
      var id := s.connectionIdTracker;
      var s1 := s.(requesting := s.requesting[id := NewPeer(p.delivery.address, p.sequence)], connectionIdTracker := id + 1);
      assert ServerService.EnterRequesting(s, p.delivery.address, p.sequence) == Some((s1, id));
      assert s1.requesting - {id} == map[];
    }
  }

  // ---------------------------------------------------------------- acks

  // Whatever is in flight or in a tracker as an ack is a sequence the other side has used, and so
  // is below that side's next sequence.
  lemma NoPhantomAcksToClient(ys: seq<System>, i: nat, a: SocketAddr, w: Wire)
    requires IsRun(ys) && i < |ys| && a in ys[i].clients && w in ys[i].server.sent && w.address == a
    ensures Used(ys[i].clients[a].first, w.ack)
    ensures forall l :: CN.IsLink(ys[i].clients[a].state, ys[i].serverAddress, l) ==> w.ack < l.sequenceTracker
  {
    EveryState(ys, i);
    assert ClientInv(ys[i], a);
    ClientUsedBelow(ys[i], a, w.ack);
  }

  lemma NoPhantomAcksToServer(ys: seq<System>, i: nat, a: SocketAddr, w: Wire)
    requires IsRun(ys) && i < |ys| && a in ys[i].clients && w in ys[i].clients[a].sent
    ensures AckOf(ys[i].server.first, a, w.ack)
    ensures forall id :: SN.Known(ys[i].server.state, id) && SN.Link(ys[i].server.state, id).address == a ==>
      w.ack < SN.Link(ys[i].server.state, id).sequenceTracker
  {
    EveryState(ys, i);
    assert ClientInv(ys[i], a);
    ServerUsedBelow(ys[i], a, w.ack);
  }

  lemma NoPhantomAcksOnServer(ys: seq<System>, i: nat, id: ConnectionId)
    requires IsRun(ys) && i < |ys| && SN.Known(ys[i].server.state, id)
    ensures var l := SN.Link(ys[i].server.state, id);
      && l.address in ys[i].clients
      && l.localAck < l.sequenceTracker && AckOf(ys[i].server.first, l.address, l.localAck)
      && Used(ys[i].clients[l.address].first, l.remoteAck)
  {
    EveryState(ys, i);
    var l := SN.Link(ys[i].server.state, id);
    assert ClientInv(ys[i], l.address);
    ServerUsedBelow(ys[i], l.address, l.localAck);
  }

  lemma NoPhantomAcksOnClient(ys: seq<System>, i: nat, a: SocketAddr, l: Peer<()>)
    requires IsRun(ys) && i < |ys| && a in ys[i].clients && CN.IsLink(ys[i].clients[a].state, ys[i].serverAddress, l)
    ensures l.localAck < l.sequenceTracker && (l.localAck == 0 || Used(ys[i].clients[a].first, l.localAck))
    ensures AckOf(ys[i].server.first, a, l.remoteAck)
  {
    EveryState(ys, i);
    assert ClientInv(ys[i], a);
    if l.localAck != 0 { ClientUsedBelow(ys[i], a, l.localAck); }
  }

  lemma ClientUsedBelow(y: System, a: SocketAddr, q: nat)
    requires Inv(y) && a in y.clients && Used(y.clients[a].first, q)
    ensures forall l :: CN.IsLink(y.clients[a].state, y.serverAddress, l) ==> q < l.sequenceTracker
  {
    assert ClientInv(y, a);
    var w :| w in y.clients[a].first && w.sequence == q;
    assert CN.SentBelow(y.clients[a].state, w);
    ReachedIsServer(y, a, w);
  }

  lemma ReachedIsServer(y: System, a: SocketAddr, w: Wire)
    requires Inv(y) && a in y.clients && w in y.clients[a].first
    ensures w.address == y.serverAddress
  {
  }

  lemma ServerUsedBelow(y: System, a: SocketAddr, q: nat)
    requires Inv(y) && AckOf(y.server.first, a, q)
    ensures forall id :: SN.Known(y.server.state, id) && SN.Link(y.server.state, id).address == a ==>
      q < SN.Link(y.server.state, id).sequenceTracker
  {
    if q != 0 {
      var w :| w in y.server.first && w.address == a && w.sequence == q;
      assert SN.SentBelow(y.server.state, w);
    }
  }

  // ---------------------------------------------------------------- what the driver relies on

  // Creating and marking never fails on the server: each scheduled connection accepted packet is
  // for a peer that still awaits, all else for a connected one.
  lemma ServerCreatesAll(ys: seq<System>, i: nat, l: ListId)
    requires IsRun(ys) && i < |ys|
    ensures var s := ys[i].server.state;
      && ServerService.AllAcceptable(s.awaiting, s.core.lists.handshakes)
      && ServerService.DistinctIds(s.core.lists.handshakes)
      && (l != Handshakes ==> AllCreatable(s.core.connected, s.core.lists.At(l)))
      && HoldsAll(l, s.core.lists.At(l))
      && Shaped(s.core.kept) && ServerService.KeptAccepts(s.core.kept)
      && ReassemblersKeyed(s.core.connected)
  {
    EveryState(ys, i);
    var s := ys[i].server.state;
    ListsFacts(s.core, l);
    forall k | 0 <= k < |s.core.lists.handshakes| ensures ServerService.Acceptable(s.awaiting, s.core.lists.handshakes[k]) {
      assert s.core.lists.handshakes[k] in s.core.lists.handshakes;
      assert AcceptFresh(ys[i].server, s.core.lists.handshakes[k]);
    }
    assert forall k :: 0 <= k < |s.core.kept.handshakes| ==> s.core.kept.handshakes[k] in s.core.kept.handshakes;
  }

  // Nor on a client: its requests go to peers that are requesting, everything else to connected
  // ones; no peer is promoted by sending; and the retry of a request, which would panic, never
  // has one to send.
  lemma ClientCreatesAll(ys: seq<System>, i: nat, a: SocketAddr, l: ListId, now: nat)
    requires IsRun(ys) && i < |ys| && a in ys[i].clients
    ensures var c := ys[i].clients[a]; var s := c.state;
      && ClientService.AllRequestable(s.requesting, s.core.lists.handshakes)
      && ClientService.DistinctAddresses(s.core.lists.handshakes)
      && s.requesting.Keys == ClientService.Addresses(s.core.lists.handshakes)
      && (l != Handshakes ==> AllCreatable(s.core.connected, s.core.lists.At(l)) && ClientService.NoneAwaiting(s.awaiting, s.core.lists.At(l)))
      && HoldsAll(l, s.core.lists.At(l))
      && Shaped(s.core.kept)
      && (c.phase == CN.Idle ==> ClientService.ResendSpec(s, now, ys[i].ttl) == Ok((s, [])))
  {
    EveryState(ys, i);
    assert ClientInv(ys[i], a);
    var c := ys[i].clients[a];
    ListsFacts(c.state.core, l);
    CN.CreatingNeverFails(c.state, l);
    RequestsCover(c.state);
    IdleResendsNothing(c, ys[i].serverAddress, now, ys[i].ttl);
  }

  lemma IdleResendsNothing(c: CN.ClientNode, serverAddress: SocketAddr, now: nat, ttl: nat)
    requires OneServer(c, serverAddress) && Shaped(c.state.core.kept)
    ensures c.phase == CN.Idle ==> ClientService.ResendSpec(c.state, now, ttl) == Ok((c.state, []))
  {
  }

  lemma RequestsCover(s: ClientService.ClientState)
    requires CN.RequestsMatch(s)
    ensures s.requesting.Keys == ClientService.Addresses(s.core.lists.handshakes)
  {
  }

  // An address is in at most one of a client's three maps.
  lemma ClientPartition(ys: seq<System>, i: nat, a: SocketAddr, b: SocketAddr)
    requires IsRun(ys) && i < |ys| && a in ys[i].clients
    ensures var s := ys[i].clients[a].state;
      && !(b in s.requesting && b in s.awaiting)
      && (b in s.requesting || b in s.awaiting ==> forall id :: id in s.core.connected ==> s.core.connected[id].address != b)
  {
    EveryState(ys, i);
    assert ClientInv(ys[i], a);
    var s := ys[i].clients[a].state;
    forall id | id in s.core.connected && s.core.connected[id].address == b ensures b !in s.requesting && b !in s.awaiting {
      assert CN.ConnectedAt(s, id, b);
    }
  }

  // ---------------------------------------------------------------- sequences

  // What a node sent for the first time to one peer, in order: packets of one operation are
  // fragments of one group, in index order, and share their sequence; across operations the
  // sequences rise strictly, whatever was broadcast, interleaved or retried in between.
  ghost predicate SequencesRise(first: seq<Wire>) {
    forall i, j :: 0 <= i < j < |first| && first[i].address == first[j].address ==>
      if first[i].packetId == first[j].packetId
      then first[i].sequence == first[j].sequence && first[i].message.Fragment? && first[j].message.Fragment?
        && first[i].message.total == first[j].message.total
        && first[i].message.index < first[j].message.index < first[j].message.total
      else first[i].sequence < first[j].sequence
  }

  lemma SequenceDiscipline(ys: seq<System>, i: nat, a: SocketAddr)
    requires IsRun(ys) && i < |ys| && a in ys[i].clients
    ensures !ys[i].server.oversized ==> SequencesRise(ys[i].server.first)
    ensures !ys[i].clients[a].oversized ==> SequencesRise(ys[i].clients[a].first)
    ensures forall w :: w in ys[i].server.sent <==> w in ys[i].server.first
    ensures forall w :: w in ys[i].clients[a].sent <==> w in ys[i].clients[a].first
  {
    EveryState(ys, i);
    assert ClientInv(ys[i], a);
    if !ys[i].server.oversized { DisciplineMeans(ys[i].server.first); }
    if !ys[i].clients[a].oversized { DisciplineMeans(ys[i].clients[a].first); }
  }

  lemma DisciplineMeans(first: seq<Wire>)
    requires Disciplined(first)
    ensures SequencesRise(first)
  {
  }

  // The record of first transmissions only ever grows at its end.
  lemma RecordGrows(ys: seq<System>, i: nat, j: nat, a: SocketAddr)
    requires IsRun(ys) && i <= j < |ys| && a in ys[i].clients
    ensures ys[i].server.first <= ys[j].server.first
    ensures a in ys[j].clients && ys[i].clients[a].first <= ys[j].clients[a].first
  {
    LaterStates(ys, i, j);
    assert ClientGrows(ys[i].clients[a], ys[j].clients[a]);
  }

  // ---------------------------------------------------------------- packet ids

  // A packet that was not scheduled before this step.
  ghost predicate NewIn(core: Core, core': Core, x: Scheduled) {
    exists l :: x in core'.lists.At(l) && x !in core.lists.At(l)
  }

  lemma StepStampsFresh(core: Core, core': Core, first: seq<Wire>, first': seq<Wire>, x: Scheduled)
    requires Moves(core, core', first, first') && NewIn(core, core', x)
    ensures x.packetId == core.packetIdTracker && core'.packetIdTracker == core.packetIdTracker + 1
  {
    var l :| x in core'.lists.At(l) && x !in core.lists.At(l);
    assert Stamped(core, core', x);
  }

  // Whether the operation a step of the server stands for succeeds: its caller is told so, or a
  // peer is accepted.
  ghost predicate ServerSucceeds(s: ServerService.ServerState, a: SN.ServerAction, now: nat) {
    match a
    case Schedule(reliability, sendTo, payload, order) =>
      IterationOrder(s.core.connected, order) && ScheduleSpec(s.core, reliability, sendTo, payload, order, now).1.Ok?
    case SendHeartbeat(reliability, sendTo, order) =>
      IterationOrder(s.core.connected, order) && HeartbeatSpec(s.core, reliability, sendTo, order, now).1.Ok?
    case Receive(p) => ServerService.ReceiveSpec(s, p, now).1 == Ok(true)
    case _ => false
  }

  lemma ServerCounts(n: SN.ServerNode, a: SN.ServerAction, n': SN.ServerNode, now: nat, ttl: nat)
    requires SN.ServerNodeOk(n) && SN.ServerStep(n, a, n', now, ttl)
    ensures n'.state.core.packetIdTracker == n.state.core.packetIdTracker + if ServerSucceeds(n.state, a, now) then 1 else 0
  {
    match a {
      case Receive(p) => ServerReceiveCounts(n.state, p, now);
      case Retry(_) => SN.RetryKeepsServer(n, a, n', now, ttl);
      case _ =>
    }
  }

  lemma ServerReceiveCounts(s: ServerService.ServerState, p: Packet<Received>, now: nat)
    requires !ServerService.ReceiveSpec(s, p, now).1.Panic?
    ensures ServerService.DriverReceive(s, p, now).core.packetIdTracker
      == s.core.packetIdTracker + if ServerService.ReceiveSpec(s, p, now).1 == Ok(true) then 1 else 0
  {
  }

  // Each step of the server whose operation succeeds raises the id tracker by exactly one, and
  // stamps all it schedules with the value before; every other step leaves the tracker alone and
  // schedules nothing.
  lemma ServerCountsSuccesses(ys: seq<System>, i: nat, a: Action, now: nat)
    requires IsRun(ys) && i + 1 < |ys| && Next(ys[i], a, ys[i + 1], now) && (a.ServerActs? || a.ServerHears?)
    ensures var core, core' := ys[i].server.state.core, ys[i + 1].server.state.core;
      var success := ServerSucceeds(ys[i].server.state, ServerActionOf(a, now), now);
      && core'.packetIdTracker == core.packetIdTracker + (if success then 1 else 0)
      && forall x :: NewIn(core, core', x) ==> success && x.packetId == core.packetIdTracker
  {
    EveryState(ys, i);
    ServerPart(ys[i], a, ys[i + 1], now);
    ServerCountsFor(ys[i].server, ServerActionOf(a, now), ys[i + 1].server, now, ys[i].ttl);
  }

  lemma ServerCountsFor(n: SN.ServerNode, a: SN.ServerAction, n': SN.ServerNode, now: nat, ttl: nat)
    requires SN.ServerNodeOk(n) && SN.ServerStep(n, a, n', now, ttl)
    ensures var core, core' := n.state.core, n'.state.core; var success := ServerSucceeds(n.state, a, now);
      && core'.packetIdTracker == core.packetIdTracker + (if success then 1 else 0)
      && forall x :: NewIn(core, core', x) ==> success && x.packetId == core.packetIdTracker
  {
    ServerCounts(n, a, n', now, ttl);
    var payload := ServerStepMoves(n, a, n', now, ttl);
    forall x | NewIn(n.state.core, n'.state.core, x)
      ensures n'.state.core.packetIdTracker == n.state.core.packetIdTracker + 1 && x.packetId == n.state.core.packetIdTracker
    {
      StepStampsFresh(n.state.core, n'.state.core, n.first, n'.first, x);
    }
  }

  ghost predicate ClientSucceeds(s: ClientService.ClientState, a: CN.ClientAction, now: nat) {
    match a
    case Connect(address) => ClientService.ConnectSpec(s, address, now).1.Ok?
    case Schedule(reliability, sendTo, payload, order) =>
      IterationOrder(s.core.connected, order) && ScheduleSpec(s.core, reliability, sendTo, payload, order, now).1.Ok?
    case SendHeartbeat(reliability, sendTo, order) =>
      IterationOrder(s.core.connected, order) && HeartbeatSpec(s.core, reliability, sendTo, order, now).1.Ok?
    case _ => false
  }

  lemma ClientCounts(n: CN.ClientNode, a: CN.ClientAction, n': CN.ClientNode, now: nat, ttl: nat)
    requires CN.ClientNodeOk(n) && CN.ClientStep(n, a, n', now, ttl)
    ensures n'.state.core.packetIdTracker == n.state.core.packetIdTracker + if ClientSucceeds(n.state, a, now) then 1 else 0
  {
    match a {
      case Receive(p) => ClientReceiveCounts(n.state, p);
      case Retry(k) => CN.RetryOnCore(n.state, k, now, ttl);
      case _ =>
    }
  }

  lemma ClientReceiveCounts(s: ClientService.ClientState, p: Packet<Received>)
    ensures ClientService.DriverReceive(s, p).core.packetIdTracker == s.core.packetIdTracker
  {
  }

  // The same for each client.
  lemma ClientCountsSuccesses(ys: seq<System>, i: nat, a: Action, now: nat)
    requires IsRun(ys) && i + 1 < |ys| && Next(ys[i], a, ys[i + 1], now) && (a.ClientActs? || a.ClientHears?)
    ensures var c := ClientOf(a); c in ys[i].clients && c in ys[i + 1].clients
    ensures var c := ClientOf(a);
      var core, core' := ys[i].clients[c].state.core, ys[i + 1].clients[c].state.core;
      var success := ClientSucceeds(ys[i].clients[c].state, ClientActionOf(ys[i], a, now), now);
      && core'.packetIdTracker == core.packetIdTracker + (if success then 1 else 0)
      && forall x :: NewIn(core, core', x) ==> success && x.packetId == core.packetIdTracker
  {
    var c := ClientOf(a);
    EveryState(ys, i);
    ClientPart(ys[i], a, ys[i + 1], now);
    assert ClientInv(ys[i], c);
    ClientCountsFor(ys[i].clients[c], ClientActionOf(ys[i], a, now), ys[i + 1].clients[c], now, ys[i].ttl);
  }

  lemma ClientCountsFor(n: CN.ClientNode, a: CN.ClientAction, n': CN.ClientNode, now: nat, ttl: nat)
    requires CN.ClientNodeOk(n) && CN.ClientStep(n, a, n', now, ttl)
    ensures var core, core' := n.state.core, n'.state.core; var success := ClientSucceeds(n.state, a, now);
      && core'.packetIdTracker == core.packetIdTracker + (if success then 1 else 0)
      && forall x :: NewIn(core, core', x) ==> success && x.packetId == core.packetIdTracker
  {
    ClientCounts(n, a, n', now, ttl);
    var payload := ClientStepMoves(n, a, n', now, ttl);
    forall x | NewIn(n.state.core, n'.state.core, x)
      ensures n'.state.core.packetIdTracker == n.state.core.packetIdTracker + 1 && x.packetId == n.state.core.packetIdTracker
    {
      StepStampsFresh(n.state.core, n'.state.core, n.first, n'.first, x);
    }
  }

  lemma ServerMovesAt(ys: seq<System>, i: nat) returns (payload: Bytes)
    requires IsRun(ys) && i + 1 < |ys|
    ensures ServerMoves(ys[i].server, ys[i + 1].server, payload)
  {
    EveryState(ys, i);
    assert StepAt(ys, i);
    var a, now :| Next(ys[i], a, ys[i + 1], now);
    if a.ServerActs? || a.ServerHears? {
      ServerPart(ys[i], a, ys[i + 1], now);
      payload := ServerStepMoves(ys[i].server, ServerActionOf(a, now), ys[i + 1].server, now, ys[i].ttl);
    } else {
      ClientPart(ys[i], a, ys[i + 1], now);
      payload := [];
    }
  }

  // Whatever the server schedules at a later step carries a larger id.
  lemma ServerIdsRise(ys: seq<System>, i: nat, j: nat, x: Scheduled, z: Scheduled)
    requires IsRun(ys) && i < j && j + 1 < |ys|
    requires NewIn(ys[i].server.state.core, ys[i + 1].server.state.core, x)
    requires NewIn(ys[j].server.state.core, ys[j + 1].server.state.core, z)
    ensures x.packetId < z.packetId
  {
    var p := ServerMovesAt(ys, i);
    var q := ServerMovesAt(ys, j);
    StepStampsFresh(ys[i].server.state.core, ys[i + 1].server.state.core, ys[i].server.first, ys[i + 1].server.first, x);
    StepStampsFresh(ys[j].server.state.core, ys[j + 1].server.state.core, ys[j].server.first, ys[j + 1].server.first, z);
    LaterStates(ys, i + 1, j);
  }

  lemma ClientMovesAt(ys: seq<System>, i: nat, c: SocketAddr) returns (payload: Bytes)
    requires IsRun(ys) && i + 1 < |ys| && c in ys[i].clients
    ensures c in ys[i + 1].clients && ClientMoves(ys[i].clients[c], ys[i + 1].clients[c], payload)
  {
    EveryState(ys, i);
    assert StepAt(ys, i) && ClientInv(ys[i], c);
    payload := ClientMovesIn(ys[i], ys[i + 1], c);
  }

  lemma ClientMovesIn(y: System, y': System, c: SocketAddr) returns (payload: Bytes)
    requires Steps(y, y') && c in y.clients && CN.ClientNodeOk(y.clients[c])
    ensures c in y'.clients && ClientMoves(y.clients[c], y'.clients[c], payload)
  {
    var a, now :| Next(y, a, y', now);
    payload := [];
    if a.ServerActs? || a.ServerHears? {
      ServerPart(y, a, y', now);
    } else {
      ClientPart(y, a, y', now);
      if ClientOf(a) == c {
        payload := ClientStepMoves(y.clients[c], ClientActionOf(y, a, now), y'.clients[c], now, y.ttl);
      }
    }
  }

  // And so does whatever a client does.
  lemma ClientIdsRise(ys: seq<System>, i: nat, j: nat, c: SocketAddr, x: Scheduled, z: Scheduled)
    requires IsRun(ys) && i < j && j + 1 < |ys| && c in ys[i].clients && c in ys[i + 1].clients && c in ys[j].clients && c in ys[j + 1].clients
    requires NewIn(ys[i].clients[c].state.core, ys[i + 1].clients[c].state.core, x)
    requires NewIn(ys[j].clients[c].state.core, ys[j + 1].clients[c].state.core, z)
    ensures x.packetId < z.packetId
  {
    var p := ClientMovesAt(ys, i, c);
    var q := ClientMovesAt(ys, j, c);
    StepStampsFresh(ys[i].clients[c].state.core, ys[i + 1].clients[c].state.core, ys[i].clients[c].first, ys[i + 1].clients[c].first, x);
    StepStampsFresh(ys[j].clients[c].state.core, ys[j + 1].clients[c].state.core, ys[j].clients[c].first, ys[j + 1].clients[c].first, z);
    LaterStates(ys, i + 1, j);
    assert ClientGrows(ys[i + 1].clients[c], ys[j].clients[c]);
  }

  // ---------------------------------------------------------------- datagrams

  // What is in flight can be encoded, and its receiver, which filters by role, decodes exactly the
  // packet the network is said to deliver.
  lemma ClientsDecodeAll(ys: seq<System>, i: nat, w: Wire, crc: Checksum, now: nat)
    requires IsRun(ys) && i < |ys| && w in ys[i].server.sent
    ensures var p := Packet(ToSend(w.packetId, now, w.address), w.sequence, w.ack, w.message);
      && Encodable(p)
      && DecodeFor(ForClient, crc, RawPacket(ys[i].serverAddress, WireBytes(crc, p)), now) == Ok(Delivery(w, ys[i].serverAddress, now))
  {
    EveryState(ys, i);
    var y, p := ys[i], Packet(ToSend(w.packetId, now, w.address), w.sequence, w.ack, w.message);
    assert SN.SentBelow(y.server.state, w);
    assert w.address in y.clients;
    NoPhantomAcksToClient(ys, i, w.address, w);
    UsedIsCounted(y, w.address, w.ack);
    RoleRoundTrip(ForClient, crc, p, y.serverAddress, now);
  }

  lemma UsedIsCounted(y: System, a: SocketAddr, q: nat)
    requires Inv(y) && Counted(y) && a in y.clients && Used(y.clients[a].first, q)
    ensures q < U32_BOUND
  {
    ClientUsedBelow(y, a, q);
    assert ClientInv(y, a);
    var w :| w in y.clients[a].first && w.sequence == q;
    assert CN.SentBelow(y.clients[a].state, w);
    ReachedIsServer(y, a, w);
    var s := y.clients[a].state;
    if y.serverAddress in s.awaiting {
      assert CN.IsLink(s, y.serverAddress, s.awaiting[y.serverAddress].Link());
    } else {
      var id :| CN.ConnectedAt(s, id, y.serverAddress);
      assert CN.IsLink(s, y.serverAddress, s.core.connected[id].Link());
    }
  }

  lemma ServerDecodesAll(ys: seq<System>, i: nat, a: SocketAddr, w: Wire, crc: Checksum, now: nat)
    requires IsRun(ys) && i < |ys| && a in ys[i].clients && w in ys[i].clients[a].sent
    ensures var p := Packet(ToSend(w.packetId, now, w.address), w.sequence, w.ack, w.message);
      && Encodable(p)
      && DecodeFor(ForServer, crc, RawPacket(a, WireBytes(crc, p)), now) == Ok(Delivery(w, a, now))
  {
    EveryState(ys, i);
    ClientWireFits(ys[i], a, w);
    RoleRoundTrip(ForServer, crc, Packet(ToSend(w.packetId, now, w.address), w.sequence, w.ack, w.message), a, now);
  }

  lemma ClientWireFits(y: System, a: SocketAddr, w: Wire)
    requires Inv(y) && Counted(y) && a in y.clients && w in y.clients[a].sent
    ensures w.sequence < U32_BOUND && w.ack < U32_BOUND && !w.message.ConnectionAccepted?
  {
    assert ClientInv(y, a);
    ServerSteps.SenderFacts(y.server, a, y.clients[a], y.serverAddress, w);
    UsedIsCounted(y, a, w.sequence);
    AckIsCounted(y, a, w.ack);
  }

  lemma AckIsCounted(y: System, a: SocketAddr, q: nat)
    requires Inv(y) && Counted(y) && AckOf(y.server.first, a, q)
    ensures q < U32_BOUND
  {
    if q != 0 {
      var v :| v in y.server.first && v.address == a && v.sequence == q;
      assert SN.SentBelow(y.server.state, v);
    }
  }

  // No datagram is longer than 1500 bytes, and a fragment that is not the last one is exactly as
  // long as that.
  ghost predicate Bounded(w: Wire, oversized: bool, crc: Checksum) {
    Encodable(Packet((), w.sequence, w.ack, w.message)) ==>
      && |WireBytes(crc, Packet((), w.sequence, w.ack, w.message))| <= MAX_FRAGMENT_SIZE
      && (!oversized && w.message.Fragment? && w.message.index + 1 < w.message.total ==>
            |WireBytes(crc, Packet((), w.sequence, w.ack, w.message))| == MAX_FRAGMENT_SIZE)
  }

  lemma DatagramBound(ys: seq<System>, i: nat, a: SocketAddr, w: Wire, crc: Checksum)
    requires IsRun(ys) && i < |ys| && a in ys[i].clients
    ensures w in ys[i].server.sent ==> Bounded(w, ys[i].server.oversized, crc)
    ensures w in ys[i].clients[a].sent ==> Bounded(w, ys[i].clients[a].oversized, crc)
  {
    EveryState(ys, i);
    assert ClientInv(ys[i], a) && ClientOrigins(ys[i].clients[a]);
    if w in ys[i].server.sent {
      OriginBounds(ys[i].server.state.core.lists, ys[i].server.first, ys[i].server.oversized, w, crc);
    }
    if w in ys[i].clients[a].sent {
      OriginBounds(ys[i].clients[a].state.core.lists, ys[i].clients[a].first, ys[i].clients[a].oversized, w, crc);
    }
  }

  lemma OriginBounds(lists: Lists, first: seq<Wire>, oversized: bool, w: Wire, crc: Checksum)
    requires OriginsOk(lists, first, oversized) && w in first
    ensures Bounded(w, oversized, crc)
  {
    assert HasOrigin(lists, first, oversized, w.packetId);
    var payload :| OriginIs(lists, first, w.packetId, payload) && Sized(payload, oversized);
    PartSize(payload, w.message);
    if Encodable(Packet((), w.sequence, w.ack, w.message)) {
      WireLength(crc, Packet((), w.sequence, w.ack, w.message));
    }
  }
}
