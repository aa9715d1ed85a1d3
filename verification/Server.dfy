// The server: server/service.rs, the server's part of Protocol (server.rs), and the loops of its
// driver (antarc/src/server.rs, antarc/src/lib.rs).
module ServerService {
  import opened Packets
  import opened Fragments
  import opened Reassembly
  import opened Peers
  import opened Scheduler
  import opened Reliability
  import opened Endpoint
  import opened Codec

  datatype ServerState = ServerState(
    core: Core,
    connectionIdTracker: ConnectionId,
    requesting: map<ConnectionId, Peer<Requesting>>,
    awaiting: map<ConnectionId, Peer<Awaiting>>,
    banList: seq<SocketAddr>)

  const FRESH_SERVER := ServerState(FRESH_CORE, 1, map[], map[], [])

  // ---------------------------------------------------------------- what each operation does

  // connection_request_another_state
  predicate InAnotherState(s: ServerState, address: SocketAddr) {
    || (exists id :: id in s.awaiting && s.awaiting[id].address == address)
    || (exists id :: id in s.core.connected && s.core.connected[id].address == address)
  }

  ghost predicate UniqueAddresses(requesting: map<ConnectionId, Peer<Requesting>>) {
    forall i, j :: i in requesting && j in requesting && requesting[i].address == requesting[j].address ==> i == j
  }

  // `requesting_connection.iter_mut().find(..)`
  ghost function FindRequesting(requesting: map<ConnectionId, Peer<Requesting>>, address: SocketAddr): (r: Option<ConnectionId>)
    ensures r.Some? ==> r.value in requesting && requesting[r.value].address == address
    ensures r.None? ==> forall id :: id in requesting ==> requesting[id].address != address
  {
    if exists id :: id in requesting && requesting[id].address == address then
      var id :| id in requesting && requesting[id].address == address;
      Some(id)
    else None
  }

  function Accept(s: ServerState, id: ConnectionId, packetId: nat, now: nat): ServerState {
    if id in s.requesting then
      var peer := s.requesting[id];
      s.(requesting := s.requesting - {id},
         awaiting := s.awaiting[id := AwaitConnectionAck(peer)],
         core := s.core.(lists := s.core.lists.Append(Handshakes, [Scheduled(packetId, peer.address, now, ConnectionAccepted(id))])))
    else s.(core := s.core.(api := s.core.api + [Fail(NotFound(id))]))
  }

  // The id of the requesting peer with this address, or of a new one. The successor of the last
  // 16-bit id does not exist.
  ghost function EnterRequesting(s: ServerState, address: SocketAddr, sequence: Sequence): Option<(ServerState, ConnectionId)> {
    match FindRequesting(s.requesting, address)
    case Some(id) =>
      var peer := s.requesting[id];
      Some((s.(requesting := s.requesting[id := peer.(connection := Requesting(peer.connection.attempts + 1))]), id))
    case None =>
      var id := s.connectionIdTracker;
      if id == MAX_CONNECTION_ID then None
      else Some((s.(requesting := s.requesting[id := NewPeer(address, sequence)], connectionIdTracker := id + 1), id))
  }

  ghost function ReceiveRequest(s: ServerState, p: Packet<Received>, now: nat): (ServerState, Outcome<bool>) {
    var address := p.delivery.address;
    if InAnotherState(s, address) then (s, Err(PeerInAnotherState(address)))
    else if address in s.banList then (s, Err(Banned(address)))
    else
      match EnterRequesting(s, address, p.sequence)
      case None => (s, Panic)
      case Some((s', id)) => (Accept(s', id, s.core.packetIdTracker, now), Ok(true))
  }

  // The peer a packet names hears it; one that was awaiting becomes connected.
  function Hear(s: ServerState, id: ConnectionId, p: Packet<Received>): Option<ServerState> {
    if id in s.core.connected then
      Some(s.(core := s.core.(connected := s.core.connected[id := s.core.connected[id].Hear(p)])))
    else if id in s.awaiting then
      Some(s.(awaiting := s.awaiting - {id},
              core := s.core.(connected := s.core.connected[id := Connect(s.awaiting[id].Hear(p), id)])))
    else None
  }

  ghost function ReceiveSpec(s: ServerState, p: Packet<Received>, now: nat): (ServerState, Outcome<bool>) {
    match p.message
    case ConnectionRequest => ReceiveRequest(s, p, now)
    case ConnectionAccepted(_) => (s, Err(InvalidPacketType(p.message.Type())))
    case DataTransfer(id, payload) =>
      (match Hear(s, id, p)
       case None => (s, Err(NoPeersConnected))
       case Some(s') => (s'.(core := s'.core.(api := s'.core.api + [Delivered(id, payload)])), Ok(false)))
    case Fragment(id, _, _, _) =>
      (match Hear(s, id, p)
       case None => (s, Err(NoPeersConnected))
       case Some(s') => (s'.(core := TakeFragment(s'.core, p)), Ok(false)))
    case Heartbeat(id) =>
      (match Hear(s, id, p)
       case None => (s, Ok(false))
       case Some(s') => (s', Ok(false)))
  }

  // Protocol::on_received: decode for the server's role, dispatch, count a new packet id.
  ghost function OnReceivedSpec(s: ServerState, crc: Checksum, raw: RawPacket, now: nat): (ServerState, Outcome<()>) {
    match DecodeFor(ForServer, crc, raw, now)
    case Panic => (s, Panic)
    case Err(e) => (s, Err(e))
    case Ok(p) => CountNewId(ReceiveSpec(s, p, now))
  }

  // Accepting a peer used up a packet id.
  function CountNewId(received: (ServerState, Outcome<bool>)): (ServerState, Outcome<()>) {
    var (s, r) := received;
    match r
    case Ok(update) => (if update then s.(core := s.core.(packetIdTracker := s.core.packetIdTracker + 1)) else s, Ok(()))
    case Err(e) => (s, Err(e))
    case Panic => (s, Panic)
  }

  // The driver's receive: Protocol::on_received, then an error becomes an event.
  ghost function DriverReceive(s: ServerState, p: Packet<Received>, now: nat): ServerState {
    var (s', r) := ReceiveSpec(s, p, now);
    match r
    case Ok(update) => if update then s'.(core := s'.core.(packetIdTracker := s'.core.packetIdTracker + 1)) else s'
    case Err(e) => s'.(core := s'.core.(api := s'.core.api + [Fail(e)]))
    case Panic => s'
  }

  predicate Acceptable(awaiting: map<ConnectionId, Peer<Awaiting>>, x: Scheduled) {
    x.message.ConnectionAccepted? && x.message.connectionId in awaiting
  }

  predicate AllAcceptable(awaiting: map<ConnectionId, Peer<Awaiting>>, xs: seq<Scheduled>) {
    forall i :: 0 <= i < |xs| ==> Acceptable(awaiting, xs[i])
  }

  function CreateAccepted(awaiting: map<ConnectionId, Peer<Awaiting>>, x: Scheduled, now: nat): Packet<ToSend>
    requires Acceptable(awaiting, x)
  {
    var peer := awaiting[x.message.connectionId];
    x.IntoPacket(peer.sequenceTracker, peer.remoteAck, now)
  }

  function SentAccepted(s: ServerState, p: Packet<ToSend>, now: nat, ttl: nat): ServerState
    requires p.message.ConnectionAccepted?
  {
    var id := p.message.connectionId;
    var s' := if id in s.awaiting then s.(awaiting := s.awaiting[id := s.awaiting[id].Bump()]) else s;
    s'.(core := s'.core.(kept := s'.core.kept.Append(KeptHandshakes, [MarkSent(p, now, ttl)])))
  }

  predicate DistinctIds(xs: seq<Scheduled>) {
    forall i, j :: 0 <= i < j < |xs| && xs[i].message.ConnectionAccepted? && xs[j].message.ConnectionAccepted? ==>
      xs[i].message.connectionId != xs[j].message.connectionId
  }

  predicate Accepts(xs: seq<Scheduled>, id: ConnectionId) {
    exists i :: 0 <= i < |xs| && xs[i].message == ConnectionAccepted(id)
  }

  function AcceptedPackets(awaiting: map<ConnectionId, Peer<Awaiting>>, xs: seq<Scheduled>, now: nat): (out: seq<Packet<ToSend>>)
    requires AllAcceptable(awaiting, xs)
    ensures |out| == |xs|
  {
    seq(|xs|, i requires 0 <= i < |xs| => CreateAccepted(awaiting, xs[i], now))
  }

  function AfterAccepting(s: ServerState, xs: seq<Scheduled>, now: nat, ttl: nat): ServerState
    requires AllAcceptable(s.awaiting, xs)
  {
    s.(awaiting := map id | id in s.awaiting :: if Accepts(xs, id) then s.awaiting[id].Bump() else s.awaiting[id],
       core := s.core.(kept := s.core.kept.Append(KeptHandshakes, AllSent(AcceptedPackets(s.awaiting, xs, now), now, ttl))))
  }

  // The `poll_connection_accepted` loop.
  function DrainAcceptedSpec(s: ServerState, now: nat, ttl: nat): (ServerState, seq<Packet<ToSend>>)
    requires AllAcceptable(s.awaiting, s.core.lists.handshakes)
  {
    var xs := s.core.lists.handshakes;
    (AfterAccepting(s.(core := s.core.(lists := s.core.lists.Set(Handshakes, []))), xs, now, ttl), AcceptedPackets(s.awaiting, xs, now))
  }

  // A `poll_retry_*` step of the driver.
  function RetrySpec(s: ServerState, k: KeptId, now: nat, ttl: nat): (ServerState, seq<Packet<ToSend>>)
    requires Shaped(s.core.kept) && KeptAccepts(s.core.kept)
  {
    var ps := s.core.kept.At(k);
    assert ps != [] ==> KeptFor(ps[|ps| - 1].message) == k;
    var (kept, r) := Retried(s.core.kept, k, now);
    var s' := s.(core := s.core.(kept := kept));
    match r
    case None => (s', [])
    case Some(p) =>
      (if k.KeptHandshakes? then SentAccepted(s', p, now, ttl) else s'.(core := SentSpec(s'.core, p, true, now, ttl)), [p])
  }

  predicate KeptAccepts(kept: Kept) {
    forall i :: 0 <= i < |kept.handshakes| ==> kept.handshakes[i].message.ConnectionAccepted?
  }

  lemma AcceptOneMore(s: ServerState, xs: seq<Scheduled>, n: nat, now: nat, ttl: nat)
    requires n < |xs| && AllAcceptable(s.awaiting, xs) && DistinctIds(xs)
    ensures AllAcceptable(s.awaiting, xs[..n]) && AllAcceptable(s.awaiting, xs[..n + 1])
    ensures var s' := AfterAccepting(s, xs[..n], now, ttl);
      && s'.awaiting[xs[n].message.connectionId] == s.awaiting[xs[n].message.connectionId]
      && Acceptable(s'.awaiting, xs[n])
      && var p := CreateAccepted(s'.awaiting, xs[n], now);
      && AcceptedPackets(s.awaiting, xs[..n + 1], now) == AcceptedPackets(s.awaiting, xs[..n], now) + [p]
      && SentAccepted(s', p, now, ttl) == AfterAccepting(s, xs[..n + 1], now, ttl)
  {
    var s' := AfterAccepting(s, xs[..n], now, ttl);
    var id := xs[n].message.connectionId;
    assert !Accepts(xs[..n], id);
    var p := CreateAccepted(s'.awaiting, xs[n], now);
    var before, after := AcceptedPackets(s.awaiting, xs[..n], now), AcceptedPackets(s.awaiting, xs[..n + 1], now);
    assert after == before + [p];
    AcceptsOneMore(xs, n);
    assert SentAccepted(s', p, now, ttl).awaiting == AfterAccepting(s, xs[..n + 1], now, ttl).awaiting;
    assert AllSent(after, now, ttl) == AllSent(before, now, ttl) + [MarkSent(p, now, ttl)];
    var kept := s.core.kept.At(KeptHandshakes);
    assert kept + AllSent(after, now, ttl) == kept + AllSent(before, now, ttl) + [MarkSent(p, now, ttl)];
  }

  lemma NothingAccepted(s: ServerState, now: nat, ttl: nat)
    ensures AfterAccepting(s, [], now, ttl) == s
  {
  }

  lemma AcceptsOneMore(xs: seq<Scheduled>, n: nat)
    requires n < |xs|
    ensures forall id :: Accepts(xs[..n + 1], id) <==> Accepts(xs[..n], id) || xs[n].message == ConnectionAccepted(id)
  {
  }

  // ---------------------------------------------------------------- the server, in place

  class Server {
    var connectionIdTracker: ConnectionId
    var requestingConnection: map<ConnectionId, Peer<Requesting>>
    var awaitingConnectionAck: map<ConnectionId, Peer<Awaiting>>
    var banList: seq<SocketAddr>
    const protocol: Protocol

    function View(): ServerState
      reads this, protocol, protocol.scheduler, protocol.reliabilityHandler
    {
      ServerState(protocol.View(), connectionIdTracker, requestingConnection, awaitingConnectionAck, banList)
    }

    constructor ()
      ensures View() == FRESH_SERVER
    {
      connectionIdTracker := 1;
      requestingConnection, awaitingConnectionAck, banList := map[], map[], [];
      protocol := new Protocol();
    }

    method UnexpectedConnection(address: SocketAddr) returns (r: Outcome<()>)
      ensures r == if InAnotherState(View(), address) then Err(PeerInAnotherState(address))
                   else if address in banList then Err(Banned(address)) else Ok(())
    {
      if (exists id :: id in awaitingConnectionAck.Keys && awaitingConnectionAck[id].address == address)
        || (exists id :: id in protocol.connected.Keys && protocol.connected[id].address == address) {
        return Err(PeerInAnotherState(address));
      } else if address in banList {
        return Err(Banned(address));
      }
      return Ok(());
    }

    method AcceptConnection(connectionId: ConnectionId, packetId: nat, now: nat)
      modifies this, protocol, protocol.scheduler
      ensures View() == Accept(old(View()), connectionId, packetId, now)
    {
      if connectionId in requestingConnection {
        var peer := requestingConnection[connectionId];
        requestingConnection := requestingConnection - {connectionId};
        protocol.scheduler.PushHandshake(Scheduled(packetId, peer.address, now, ConnectionAccepted(connectionId)));
        awaitingConnectionAck := awaitingConnectionAck[connectionId := AwaitConnectionAck(peer)];
      } else {
        protocol.Push(Fail(NotFound(connectionId)));
      }
    }

    method OnConnectionRequest(p: Packet<Received>, now: nat) returns (r: Outcome<bool>)
      requires p.message.ConnectionRequest? && UniqueAddresses(requestingConnection)
      modifies this, protocol, protocol.scheduler
      ensures (View(), r) == ReceiveRequest(old(View()), p, now)
    {
      var address := p.delivery.address;
      var expected := UnexpectedConnection(address);
      if expected.Err? { return Err(expected.error); }
      var connectionId := EnterRequestingPeer(address, p.sequence);
      if connectionId.None? { return Panic; }
      AcceptConnection(connectionId.value, protocol.packetIdTracker, now);
      r := Ok(true);
    }

    method EnterRequestingPeer(address: SocketAddr, sequence: Sequence) returns (r: Option<ConnectionId>)
      requires UniqueAddresses(requestingConnection)
      modifies this`requestingConnection, this`connectionIdTracker
      ensures match EnterRequesting(old(View()), address, sequence)
        case None => r.None? && View() == old(View())
        case Some((s, id)) => r == Some(id) && View() == s
    {
      if exists id :: id in requestingConnection.Keys && requestingConnection[id].address == address {
        var connectionId :| connectionId in requestingConnection && requestingConnection[connectionId].address == address;
        var peer := requestingConnection[connectionId];
        requestingConnection := requestingConnection[connectionId := peer.(connection := Requesting(peer.connection.attempts + 1))];
        return Some(connectionId);
      } else {
        var connectionId := connectionIdTracker;
        if connectionId == MAX_CONNECTION_ID { return None; }
        requestingConnection := requestingConnection[connectionId := NewPeer(address, sequence)];
        connectionIdTracker := connectionId + 1;
        return Some(connectionId);
      }
    }

    // The match on the two peer maps that data transfers, fragments and heartbeats begin with.
    method HearPeer(p: Packet<Received>, connectionId: ConnectionId) returns (known: bool)
      modifies this`awaitingConnectionAck, protocol`connected
      ensures known == Hear(old(View()), connectionId, p).Some?
      ensures View() == if known then Hear(old(View()), connectionId, p).value else old(View())
    {
      if connectionId in protocol.connected {
        protocol.connected := protocol.connected[connectionId := protocol.connected[connectionId].Hear(p)];
        return true;
      } else if connectionId in awaitingConnectionAck {
        var peer := awaitingConnectionAck[connectionId];
        awaitingConnectionAck := awaitingConnectionAck - {connectionId};
        peer := peer.(remoteAck := p.sequence, localAck := p.ack);
        protocol.connected := protocol.connected[connectionId := Connect(peer, connectionId)];
        return true;
      }
      return false;
    }

    // Server::on_received after decoding.
    method OnDecoded(p: Packet<Received>, now: nat) returns (r: Outcome<bool>)
      requires UniqueAddresses(requestingConnection) && !p.message.ConnectionAccepted?
      modifies this, protocol, protocol.scheduler
      ensures (View(), r) == ReceiveSpec(old(View()), p, now)
    {
      match p.message {
        case ConnectionRequest =>
          r := OnConnectionRequest(p, now);
        case DataTransfer(connectionId, payload) =>
          var known := HearPeer(p, connectionId);
          if !known { return Err(NoPeersConnected); }
          protocol.Push(Delivered(connectionId, payload));
          r := Ok(false);
        case Fragment(connectionId, index, total, payload) =>
          var known := HearPeer(p, connectionId);
          if !known { return Err(NoPeersConnected); }
          protocol.TakeIn(p);
          r := Ok(false);
        case Heartbeat(connectionId) =>
          var known := HearPeer(p, connectionId);
          r := Ok(false);
      }
    }

    // Protocol<Server>::on_received: decode for the server's role, dispatch, count a new packet id.
    method OnReceived(crc: Checksum, raw: RawPacket, now: nat) returns (r: Outcome<()>)
      requires UniqueAddresses(requestingConnection)
      modifies this, protocol, protocol.scheduler
      ensures (View(), r) == OnReceivedSpec(old(View()), crc, raw, now)
    {
      var decoded := InnerDecode(crc, raw, now);
      if decoded.Panic? { return Panic; }
      if decoded.Err? { return Err(decoded.error); }
      var filtered := Filter(ForServer, decoded.value);
      if filtered.Err? { return Err(filtered.error); }
      r := OnFiltered(filtered.value, now);
    }

    method OnFiltered(p: Packet<Received>, now: nat) returns (r: Outcome<()>)
      requires UniqueAddresses(requestingConnection) && !p.message.ConnectionAccepted?
      modifies this, protocol, protocol.scheduler
      ensures (View(), r) == CountNewId(ReceiveSpec(old(View()), p, now))
    {
      var update := OnDecoded(p, now);
      match update {
        case Ok(u) =>
          if u { protocol.packetIdTracker := protocol.packetIdTracker + 1; }
          r := Ok(());
        case Err(e) => r := Err(e);
        case Panic => r := Panic;
      }
    }

    method SentConnectionAccepted(p: Packet<ToSend>, now: nat, ttl: nat)
      requires p.message.ConnectionAccepted?
      requires p.message.connectionId in awaitingConnectionAck ==>
        awaitingConnectionAck[p.message.connectionId].sequenceTracker + 1 < U32_BOUND
      modifies this, protocol.reliabilityHandler
      ensures View() == SentAccepted(old(View()), p, now, ttl)
    {
      var sent := MarkSent(p, now, ttl);
      var connectionId := sent.message.connectionId;
      if connectionId in awaitingConnectionAck {
        awaitingConnectionAck := awaitingConnectionAck[connectionId := awaitingConnectionAck[connectionId].Bump()];
      }
      protocol.reliabilityHandler.Push(sent);
    }

    // poll_connection_accepted: take the whole list, then create, send and mark each as sent.
    method PollConnectionAccepted(now: nat, ttl: nat) returns (sent: seq<Packet<ToSend>>)
      requires AllAcceptable(awaitingConnectionAck, protocol.scheduler.service) && DistinctIds(protocol.scheduler.service)
      requires forall id :: id in awaitingConnectionAck ==> awaitingConnectionAck[id].sequenceTracker + 1 < U32_BOUND
      modifies this, protocol, protocol.scheduler, protocol.reliabilityHandler
      ensures (View(), sent) == DrainAcceptedSpec(old(View()), now, ttl)
    {
      var scheduled := protocol.scheduler.Drain(Handshakes);
      ghost var before := View();
      sent := [];
      NothingAccepted(before, now, ttl);
      assert scheduled[..0] == [];
      var i := 0;
      while i < |scheduled|
        invariant 0 <= i <= |scheduled|
        invariant AllAcceptable(before.awaiting, scheduled[..i])
        invariant View() == AfterAccepting(before, scheduled[..i], now, ttl)
        invariant sent == AcceptedPackets(before.awaiting, scheduled[..i], now)
      {
        var packet := AcceptNext(before, scheduled, i, now, ttl);
        sent := sent + [packet];
        i := i + 1;
      }
      assert scheduled[..i] == scheduled;
    }

    method AcceptNext(ghost before: ServerState, scheduled: seq<Scheduled>, i: nat, now: nat, ttl: nat) returns (packet: Packet<ToSend>)
      requires i < |scheduled| && AllAcceptable(before.awaiting, scheduled) && DistinctIds(scheduled)
      requires forall id :: id in before.awaiting ==> before.awaiting[id].sequenceTracker + 1 < U32_BOUND
      requires AllAcceptable(before.awaiting, scheduled[..i])
      requires View() == AfterAccepting(before, scheduled[..i], now, ttl)
      modifies this, protocol.reliabilityHandler
      ensures AllAcceptable(before.awaiting, scheduled[..i + 1])
      ensures View() == AfterAccepting(before, scheduled[..i + 1], now, ttl)
      ensures AcceptedPackets(before.awaiting, scheduled[..i + 1], now)
        == AcceptedPackets(before.awaiting, scheduled[..i], now) + [packet]
    {
      AcceptOneMore(before, scheduled, i, now, ttl);
      packet := CreateConnectionAccepted(scheduled[i], now);
      SentConnectionAccepted(packet, now, ttl);
    }

    method CreateConnectionAccepted(scheduled: Scheduled, now: nat) returns (packet: Packet<ToSend>)
      requires Acceptable(awaitingConnectionAck, scheduled)
      ensures packet == CreateAccepted(awaitingConnectionAck, scheduled, now)
    {
      var peer := awaitingConnectionAck[scheduled.message.connectionId];
      packet := scheduled.IntoPacket(peer.sequenceTracker, peer.remoteAck, now);
    }

    // poll_retry_connection_accepted, poll_retry_data_transfer and poll_retry_fragment.
    method PollRetry(k: KeptId, now: nat, ttl: nat) returns (sent: seq<Packet<ToSend>>)
      requires Shaped(protocol.reliabilityHandler.View()) && KeptAccepts(protocol.reliabilityHandler.View())
      requires forall id :: id in awaitingConnectionAck ==> awaitingConnectionAck[id].sequenceTracker + 1 < U32_BOUND
      requires forall id :: id in protocol.connected ==> protocol.connected[id].sequenceTracker + 1 < U32_BOUND
      modifies this, protocol, protocol.reliabilityHandler
      ensures (View(), sent) == RetrySpec(old(View()), k, now, ttl)
    {
      ghost var ps := protocol.reliabilityHandler.View().At(k);
      assert ps != [] ==> KeptFor(ps[|ps| - 1].message) == k;
      var packet := protocol.reliabilityHandler.Retry(k, now);
      if packet.None? { return []; }
      if k.KeptHandshakes? {
        SentConnectionAccepted(packet.value, now, ttl);
      } else {
        protocol.SentPacket(packet.value, true, now, ttl);
      }
      return [packet.value];
    }

    // Protocol<Server>::poll, which hands the events out.
    method Poll(now: nat) returns (events: seq<ProtocolEvent>)
      requires ReassemblersKeyed(protocol.connected)
      modifies protocol, protocol.reliabilityHandler
      ensures View() == old(View()).(core := old(View()).core.(
        connected := protocol.connected, kept := Expired(old(View()).core.kept), api := []))
      ensures PolledPeers(old(protocol.connected), now, protocol.connected)
      ensures events == old(protocol.api)
    {
      protocol.reliabilityHandler.Poll(now);
      protocol.connected := PollPeers(protocol.connected, now);
      events := protocol.api;
      protocol.api := [];
    }
  }
}
