// The client: client/service.rs, the client's part of Protocol (client.rs), and the loops of its
// driver (antarc/src/client.rs, antarc/src/lib.rs).
module ClientService {
  import opened Packets
  import opened Fragments
  import opened Reassembly
  import opened Peers
  import opened Scheduler
  import opened Reliability
  import opened Endpoint
  import opened Codec

  datatype ClientState = ClientState(
    core: Core,
    requesting: map<SocketAddr, Peer<Requesting>>,
    awaiting: map<SocketAddr, Peer<Awaiting>>)

  const FRESH_CLIENT := ClientState(FRESH_CORE, map[], map[])

  // ---------------------------------------------------------------- what each operation does

  predicate KnownPeer(s: ClientState, address: SocketAddr) {
    || address in s.requesting
    || address in s.awaiting
    || exists id :: id in s.core.connected && s.core.connected[id].address == address
  }

  function ConnectSpec(s: ClientState, address: SocketAddr, now: nat): (ClientState, Outcome<()>) {
    if KnownPeer(s, address) then (s, Err(AlreadyConnectingToPeer(address)))
    else
      (s.(requesting := s.requesting[address := NewPeer(address, 0)],
          core := s.core.(lists := s.core.lists.Append(Handshakes, [Scheduled(s.core.packetIdTracker, address, now, ConnectionRequest)]),
                          packetIdTracker := s.core.packetIdTracker + 1)),
       Ok(()))
  }

  // Client::sent_data_transfer, sent_fragment and sent_heartbeat: a peer that is still awaiting
  // becomes connected, then the server's bookkeeping.
  function ClientSent(s: ClientState, p: Packet<ToSend>, reliable: bool, now: nat, ttl: nat): ClientState
    requires p.message.ForConnected()
  {
    var address, id := p.delivery.address, p.message.connectionId;
    var s' := if address in s.awaiting
              then s.(awaiting := s.awaiting - {address},
                      core := s.core.(connected := s.core.connected[id := Connect(s.awaiting[address], id)]))
              else s;
    s'.(core := SentSpec(s'.core, p, reliable, now, ttl))
  }

  // A scheduled request that can be created and sent: its peer is still requesting.
  predicate Requestable(requesting: map<SocketAddr, Peer<Requesting>>, x: Scheduled) {
    x.message.ConnectionRequest? && x.address in requesting
  }

  predicate AllRequestable(requesting: map<SocketAddr, Peer<Requesting>>, xs: seq<Scheduled>) {
    forall i :: 0 <= i < |xs| ==> Requestable(requesting, xs[i])
  }

  predicate DistinctAddresses(xs: seq<Scheduled>) {
    forall i, j :: 0 <= i < j < |xs| ==> xs[i].address != xs[j].address
  }

  function CreateRequest(requesting: map<SocketAddr, Peer<Requesting>>, x: Scheduled, now: nat): Packet<ToSend>
    requires Requestable(requesting, x)
  {
    x.IntoPacket(requesting[x.address].sequenceTracker, requesting[x.address].remoteAck, now)
  }

  function SentRequest(s: ClientState, p: Packet<ToSend>, now: nat, ttl: nat): ClientState
    requires p.message.ConnectionRequest? && p.delivery.address in s.requesting
  {
    var address := p.delivery.address;
    s.(requesting := s.requesting - {address},
       awaiting := s.awaiting[address := AwaitConnectionAck(s.requesting[address].Bump())],
       core := s.core.(kept := s.core.kept.Append(KeptHandshakes, [MarkSent(p, now, ttl)])))
  }

  function Addresses(xs: seq<Scheduled>): set<SocketAddr> {
    set i | 0 <= i < |xs| :: xs[i].address
  }

  function RequestPackets(requesting: map<SocketAddr, Peer<Requesting>>, xs: seq<Scheduled>, now: nat): (out: seq<Packet<ToSend>>)
    requires AllRequestable(requesting, xs)
    ensures |out| == |xs|
  {
    seq(|xs|, i requires 0 <= i < |xs| => CreateRequest(requesting, xs[i], now))
  }

  // The awaiting peers after these requests were sent.
  function NowAwaiting(requesting: map<SocketAddr, Peer<Requesting>>, awaiting: map<SocketAddr, Peer<Awaiting>>, sent: set<SocketAddr>): map<SocketAddr, Peer<Awaiting>> {
    awaiting + map a | a in sent && a in requesting :: AwaitConnectionAck(requesting[a].Bump())
  }

  function AfterRequesting(s: ClientState, xs: seq<Scheduled>, now: nat, ttl: nat): ClientState
    requires AllRequestable(s.requesting, xs)
  {
    s.(requesting := s.requesting - Addresses(xs),
       awaiting := NowAwaiting(s.requesting, s.awaiting, Addresses(xs)),
       core := s.core.(kept := s.core.kept.Append(KeptHandshakes, AllSent(RequestPackets(s.requesting, xs, now), now, ttl))))
  }

  // The `poll_connection_request` loop.
  function DrainRequestsSpec(s: ClientState, now: nat, ttl: nat): (ClientState, seq<Packet<ToSend>>)
    requires AllRequestable(s.requesting, s.core.lists.handshakes)
  {
    var xs := s.core.lists.handshakes;
    (AfterRequesting(s.(core := s.core.(lists := s.core.lists.Set(Handshakes, []))), xs, now, ttl),
     RequestPackets(s.requesting, xs, now))
  }

  // The other `poll_*` loops, on lists whose peers are not awaiting.
  function DrainListSpec(s: ClientState, l: ListId, now: nat, ttl: nat): (ClientState, seq<Packet<ToSend>>)
    requires AllCreatable(s.core.connected, s.core.lists.At(l))
  {
    var (core, out) := DrainSpec(s.core, l, now, ttl);
    (s.(core := core), out)
  }

  // poll_retry_data_transfer, and the like for the other reliable packets.
  function RetrySpec(s: ClientState, k: KeptId, now: nat, ttl: nat): (ClientState, seq<Packet<ToSend>>)
    requires Shaped(s.core.kept) && !k.KeptHandshakes?
  {
    var ps := s.core.kept.At(k);
    assert ps != [] ==> KeptFor(ps[|ps| - 1].message) == k;
    var (kept, r) := Retried(s.core.kept, k, now);
    var s' := s.(core := s.core.(kept := kept));
    match r
    case None => (s', [])
    case Some(p) => (ClientSent(s', p, true, now, ttl), [p])
  }

  // poll_retry_connection_request: marking the request as sent unwraps the requesting peer.
  function ResendSpec(s: ClientState, now: nat, ttl: nat): Outcome<(ClientState, seq<Packet<ToSend>>)>
    requires Shaped(s.core.kept)
  {
    var (kept, r) := Retried(s.core.kept, KeptHandshakes, now);
    var s' := s.(core := s.core.(kept := kept));
    match r
    case None => Ok((s', []))
    case Some(p) =>
      if p.delivery.address !in s.requesting || !p.message.ConnectionRequest? then Panic
      else Ok((SentRequest(s', p, now, ttl), [p]))
  }

  // A connected peer, or the awaiting one at the packet's address, hears the packet.
  function Hear(s: ClientState, id: ConnectionId, p: Packet<Received>): Option<ClientState> {
    var address := p.delivery.address;
    if id in s.core.connected then
      Some(s.(core := s.core.(connected := s.core.connected[id := s.core.connected[id].Hear(p)])))
    else if address in s.awaiting then
      Some(s.(awaiting := s.awaiting - {address},
              core := s.core.(connected := s.core.connected[id := Connect(s.awaiting[address].Hear(p), id)])))
    else None
  }

  function ReceiveSpec(s: ClientState, p: Packet<Received>): (ClientState, Outcome<()>) {
    var address := p.delivery.address;
    match p.message
    case ConnectionRequest => (s, Err(InvalidPacketType(p.message.Type())))
    case ConnectionAccepted(id) =>
      if address in s.requesting || id in s.core.connected then (s, Err(PeerInAnotherState(address)))
      else
        (match Hear(s, id, p)
         case None => (s, Ok(()))
         case Some(s') => (s', Ok(())))
    case DataTransfer(id, payload) =>
      (match Hear(s, id, p)
       case None => (s, Ok(()))
       case Some(s') =>
         // Only the packet that connects the peer is handed on.
         if id in s.core.connected then (s', Ok(()))
         else (s'.(core := s'.core.(api := s'.core.api + [Delivered(id, payload)])), Ok(())))
    case Fragment(id, _, _, _) =>
      if id !in s.core.connected then (s, Err(NoPeersConnected))
      else
        var s' := Hear(s, id, p).value;
        (s'.(core := TakeFragment(s'.core, p)), Ok(()))
    case Heartbeat(id) =>
      (match Hear(s, id, p)
       case None => (s, Ok(()))
       case Some(s') => (s', Ok(())))
  }

  // Protocol::on_received: decode for the client's role, dispatch.
  function OnReceivedSpec(s: ClientState, crc: Checksum, raw: RawPacket, now: nat): (ClientState, Outcome<()>) {
    match DecodeFor(ForClient, crc, raw, now)
    case Panic => (s, Panic)
    case Err(e) => (s, Err(e))
    case Ok(p) => ReceiveSpec(s, p)
  }

  // The driver's receive: an error becomes an event.
  function DriverReceive(s: ClientState, p: Packet<Received>): ClientState {
    var (s', r) := ReceiveSpec(s, p);
    match r
    case Err(e) => s'.(core := s'.core.(api := s'.core.api + [Fail(e)]))
    case _ => s'
  }

  lemma RequestOneMore(s: ClientState, xs: seq<Scheduled>, n: nat, now: nat, ttl: nat)
    requires n < |xs| && AllRequestable(s.requesting, xs) && DistinctAddresses(xs)
    ensures AllRequestable(s.requesting, xs[..n]) && AllRequestable(s.requesting, xs[..n + 1])
    ensures var s' := AfterRequesting(s, xs[..n], now, ttl);
      && Requestable(s'.requesting, xs[n])
      && s'.requesting[xs[n].address] == s.requesting[xs[n].address]
      && var p := CreateRequest(s'.requesting, xs[n], now);
      && RequestPackets(s.requesting, xs[..n + 1], now) == RequestPackets(s.requesting, xs[..n], now) + [p]
      && SentRequest(s', p, now, ttl) == AfterRequesting(s, xs[..n + 1], now, ttl)
  {
    AddressesOneMore(xs, n);
    assert xs[n].address !in Addresses(xs[..n]);
    PeersOneMore(s.requesting, s.awaiting, Addresses(xs[..n]), xs[n].address);
    var p := CreateRequest(s.requesting, xs[n], now);
    var before, after := RequestPackets(s.requesting, xs[..n], now), RequestPackets(s.requesting, xs[..n + 1], now);
    assert after == before + [p];
    assert AllSent(after, now, ttl) == AllSent(before, now, ttl) + [MarkSent(p, now, ttl)];
    var kept := s.core.kept.At(KeptHandshakes);
    assert kept + AllSent(after, now, ttl) == kept + AllSent(before, now, ttl) + [MarkSent(p, now, ttl)];
  }

  lemma PeersOneMore(requesting: map<SocketAddr, Peer<Requesting>>, awaiting: map<SocketAddr, Peer<Awaiting>>, sent: set<SocketAddr>, a: SocketAddr)
    requires a in requesting && a !in sent
    ensures requesting - sent - {a} == requesting - (sent + {a})
    ensures NowAwaiting(requesting, awaiting, sent)[a := AwaitConnectionAck(requesting[a].Bump())]
      == NowAwaiting(requesting, awaiting, sent + {a})
  {
  }

  lemma AddressesOneMore(xs: seq<Scheduled>, n: nat)
    requires n < |xs|
    ensures Addresses(xs[..n + 1]) == Addresses(xs[..n]) + {xs[n].address}
  {
  }

  lemma NothingRequested(s: ClientState, now: nat, ttl: nat)
    ensures AfterRequesting(s, [], now, ttl) == s
  {
  }

  // ---------------------------------------------------------------- the client, in place

  class Client {
    var requestingConnection: map<SocketAddr, Peer<Requesting>>
    var awaitingConnectionAck: map<SocketAddr, Peer<Awaiting>>
    const protocol: Protocol

    function View(): ClientState
      reads this, protocol, protocol.scheduler, protocol.reliabilityHandler
    {
      ClientState(protocol.View(), requestingConnection, awaitingConnectionAck)
    }

    constructor ()
      ensures View() == FRESH_CLIENT
    {
      requestingConnection, awaitingConnectionAck := map[], map[];
      protocol := new Protocol();
    }

    method ConnectTo(remoteAddress: SocketAddr, now: nat) returns (r: Outcome<()>)
      modifies this, protocol, protocol.scheduler
      ensures (View(), r) == ConnectSpec(old(View()), remoteAddress, now)
    {
      if remoteAddress in requestingConnection || remoteAddress in awaitingConnectionAck
        || exists id :: id in protocol.connected.Keys && protocol.connected[id].address == remoteAddress {
        return Err(AlreadyConnectingToPeer(remoteAddress));
      }
      protocol.scheduler.PushHandshake(Scheduled(protocol.packetIdTracker, remoteAddress, now, ConnectionRequest));
      requestingConnection := requestingConnection[remoteAddress := NewPeer(remoteAddress, 0)];
      protocol.packetIdTracker := protocol.packetIdTracker + 1;
      r := Ok(());
    }

    method CreateConnectionRequest(scheduled: Scheduled, now: nat) returns (p: Packet<ToSend>)
      requires Requestable(requestingConnection, scheduled)
      ensures p == CreateRequest(requestingConnection, scheduled, now)
    {
      var peer := requestingConnection[scheduled.address];
      p := scheduled.IntoPacket(peer.sequenceTracker, peer.remoteAck, now);
    }

    method SentConnectionRequest(p: Packet<ToSend>, now: nat, ttl: nat)
      requires p.message.ConnectionRequest? && p.delivery.address in requestingConnection
      requires requestingConnection[p.delivery.address].sequenceTracker + 1 < U32_BOUND
      modifies this, protocol.reliabilityHandler
      ensures View() == SentRequest(old(View()), p, now, ttl)
    {
      var sent := MarkSent(p, now, ttl);
      var address := sent.delivery.address;
      var peer := requestingConnection[address];
      requestingConnection := requestingConnection - {address};
      peer := peer.(sequenceTracker := peer.sequenceTracker + 1);
      protocol.reliabilityHandler.Push(sent);
      awaitingConnectionAck := awaitingConnectionAck[address := AwaitConnectionAck(peer)];
    }

    // poll_connection_request: take the whole list, then create, send and mark each as sent.
    method PollConnectionRequest(now: nat, ttl: nat) returns (sent: seq<Packet<ToSend>>)
      requires AllRequestable(requestingConnection, protocol.scheduler.service)
      requires DistinctAddresses(protocol.scheduler.service)
      requires forall a :: a in requestingConnection ==> requestingConnection[a].sequenceTracker + 1 < U32_BOUND
      modifies this, protocol, protocol.scheduler, protocol.reliabilityHandler
      ensures (View(), sent) == DrainRequestsSpec(old(View()), now, ttl)
    {
      var scheduled := protocol.scheduler.Drain(Handshakes);
      ghost var before := View();
      sent := [];
      NothingRequested(before, now, ttl);
      assert scheduled[..0] == [];
      var i := 0;
      while i < |scheduled|
        invariant 0 <= i <= |scheduled|
        invariant AllRequestable(before.requesting, scheduled[..i])
        invariant View() == AfterRequesting(before, scheduled[..i], now, ttl)
        invariant sent == RequestPackets(before.requesting, scheduled[..i], now)
      {
        var packet := RequestNext(before, scheduled, i, now, ttl);
        sent := sent + [packet];
        i := i + 1;
      }
      assert scheduled[..i] == scheduled;
    }

    method RequestNext(ghost before: ClientState, scheduled: seq<Scheduled>, i: nat, now: nat, ttl: nat) returns (packet: Packet<ToSend>)
      requires i < |scheduled| && AllRequestable(before.requesting, scheduled) && DistinctAddresses(scheduled)
      requires forall a :: a in before.requesting ==> before.requesting[a].sequenceTracker + 1 < U32_BOUND
      requires AllRequestable(before.requesting, scheduled[..i])
      requires View() == AfterRequesting(before, scheduled[..i], now, ttl)
      modifies this, protocol.reliabilityHandler
      ensures AllRequestable(before.requesting, scheduled[..i + 1])
      ensures View() == AfterRequesting(before, scheduled[..i + 1], now, ttl)
      ensures RequestPackets(before.requesting, scheduled[..i + 1], now)
        == RequestPackets(before.requesting, scheduled[..i], now) + [packet]
    {
      RequestOneMore(before, scheduled, i, now, ttl);
      packet := CreateConnectionRequest(scheduled[i], now);
      SentConnectionRequest(packet, now, ttl);
    }

    // sent_data_transfer, sent_fragment and sent_heartbeat.
    method SentPacket(p: Packet<ToSend>, reliable: bool, now: nat, ttl: nat)
      requires p.message.ForConnected()
      requires var s := ClientSent(View(), p, false, now, ttl);
        p.message.connectionId in s.core.connected ==>
          s.core.connected[p.message.connectionId].sequenceTracker < U32_BOUND
      modifies this`awaitingConnectionAck, protocol`connected, protocol.reliabilityHandler
      ensures View() == ClientSent(old(View()), p, reliable, now, ttl)
    {
      var address, connectionId := p.delivery.address, p.message.connectionId;
      if address in awaitingConnectionAck {
        var peer := awaitingConnectionAck[address];
        awaitingConnectionAck := awaitingConnectionAck - {address};
        protocol.connected := protocol.connected[connectionId := Connect(peer, connectionId)];
      }
      protocol.SentPacket(p, reliable, now, ttl);
    }

    // The `poll_*` loops. For peers that are not awaiting, marking as sent promotes nobody.
    method PollScheduled(l: ListId, now: nat, ttl: nat) returns (sent: seq<Packet<ToSend>>)
      requires !l.Handshakes?
      requires var xs := protocol.scheduler.View().At(l);
        && AllCreatable(protocol.connected, xs) && HoldsAll(l, xs) && Room(protocol.connected, xs)
        && NoneAwaiting(awaitingConnectionAck, xs)
      modifies this, protocol, protocol.scheduler, protocol.reliabilityHandler
      ensures (View(), sent) == DrainListSpec(old(View()), l, now, ttl)
    {
      var scheduled := protocol.scheduler.Drain(l);
      ghost var before := View();
      sent := [];
      NothingSent(before.core, l, now, ttl);
      assert scheduled[..0] == [];
      var i := 0;
      while i < |scheduled|
        invariant 0 <= i <= |scheduled|
        invariant AllCreatable(before.core.connected, scheduled[..i])
        invariant View() == before.(core := AfterSending(before.core, l, scheduled[..i], now, ttl))
        invariant sent == Drained(before.core.connected, scheduled[..i], now)
      {
        var packet := SendNext(before, l, scheduled, i, now, ttl);
        sent := sent + [packet];
        i := i + 1;
      }
      assert scheduled[..i] == scheduled;
    }

    method SendNext(ghost before: ClientState, l: ListId, scheduled: seq<Scheduled>, i: nat, now: nat, ttl: nat) returns (packet: Packet<ToSend>)
      requires !l.Handshakes? && i < |scheduled|
      requires AllCreatable(before.core.connected, scheduled) && HoldsAll(l, scheduled) && Room(before.core.connected, scheduled)
      requires AllCreatable(before.core.connected, scheduled[..i]) && NoneAwaiting(before.awaiting, scheduled)
      requires View() == before.(core := AfterSending(before.core, l, scheduled[..i], now, ttl))
      modifies this, protocol, protocol.reliabilityHandler
      ensures AllCreatable(before.core.connected, scheduled[..i + 1])
      ensures View() == before.(core := AfterSending(before.core, l, scheduled[..i + 1], now, ttl))
      ensures Drained(before.core.connected, scheduled[..i + 1], now) == Drained(before.core.connected, scheduled[..i], now) + [packet]
    {
      SendOneMore(before.core, l, scheduled, i, now, ttl);
      RoomForOneMore(before.core.connected, scheduled, i);
      packet := protocol.CreatePacket(scheduled[i], now);
      SentPacket(packet, l.IsReliable(), now, ttl);
    }

    method PollRetry(k: KeptId, now: nat, ttl: nat) returns (sent: seq<Packet<ToSend>>)
      requires Shaped(protocol.reliabilityHandler.View()) && !k.KeptHandshakes?
      requires forall id :: id in protocol.connected ==> protocol.connected[id].sequenceTracker + 1 < U32_BOUND
      requires forall a :: a in awaitingConnectionAck ==> awaitingConnectionAck[a].sequenceTracker + 1 < U32_BOUND
      modifies this, protocol, protocol.reliabilityHandler
      ensures (View(), sent) == RetrySpec(old(View()), k, now, ttl)
    {
      ghost var ps := protocol.reliabilityHandler.View().At(k);
      assert ps != [] ==> KeptFor(ps[|ps| - 1].message) == k;
      var packet := protocol.reliabilityHandler.Retry(k, now);
      if packet.None? { return []; }
      SentPacket(packet.value, true, now, ttl);
      return [packet.value];
    }

    // False stands for the failed `unwrap`.
    method PollRetryConnectionRequest(now: nat, ttl: nat) returns (ok: bool, sent: seq<Packet<ToSend>>)
      requires Shaped(protocol.reliabilityHandler.View())
      requires forall i :: 0 <= i < |protocol.reliabilityHandler.service| ==> protocol.reliabilityHandler.service[i].message.ConnectionRequest?
      requires forall a :: a in requestingConnection ==> requestingConnection[a].sequenceTracker + 1 < U32_BOUND
      modifies this, protocol, protocol.reliabilityHandler
      ensures ok == !ResendSpec(old(View()), now, ttl).Panic?
      ensures ok ==> Ok((View(), sent)) == ResendSpec(old(View()), now, ttl)
    {
      var packet := protocol.reliabilityHandler.Retry(KeptHandshakes, now);
      if packet.None? { return true, []; }
      if packet.value.delivery.address !in requestingConnection { return false, []; }
      SentConnectionRequest(packet.value, now, ttl);
      return true, [packet.value];
    }

    // The match on the connected peers by id, then on the awaiting ones by address.
    method HearPeer(p: Packet<Received>, connectionId: ConnectionId) returns (known: bool)
      modifies this`awaitingConnectionAck, protocol`connected
      ensures known == Hear(old(View()), connectionId, p).Some?
      ensures View() == if known then Hear(old(View()), connectionId, p).value else old(View())
    {
      var address := p.delivery.address;
      if connectionId in protocol.connected {
        protocol.connected := protocol.connected[connectionId := protocol.connected[connectionId].Hear(p)];
        return true;
      } else if address in awaitingConnectionAck {
        var peer := awaitingConnectionAck[address];
        awaitingConnectionAck := awaitingConnectionAck - {address};
        peer := peer.(remoteAck := p.sequence, localAck := p.ack);
        protocol.connected := protocol.connected[connectionId := Connect(peer, connectionId)];
        return true;
      }
      return false;
    }

    // Client::on_received after decoding.
    method OnDecoded(p: Packet<Received>, now: nat) returns (r: Outcome<()>)
      requires !p.message.ConnectionRequest?
      modifies this, protocol
      ensures (View(), r) == ReceiveSpec(old(View()), p)
    {
      var address := p.delivery.address;
      match p.message {
        case ConnectionAccepted(connectionId) =>
          if address in requestingConnection || connectionId in protocol.connected {
            return Err(PeerInAnotherState(address));
          }
          var known := HearPeer(p, connectionId);
        case DataTransfer(connectionId, payload) =>
          var wasConnected := connectionId in protocol.connected;
          var known := HearPeer(p, connectionId);
          if known && !wasConnected { protocol.Push(Delivered(connectionId, payload)); }
        case Fragment(connectionId, index, total, payload) =>
          if connectionId !in protocol.connected { return Err(NoPeersConnected); }
          var known := HearPeer(p, connectionId);
          protocol.TakeIn(p);
        case Heartbeat(connectionId) =>
          var known := HearPeer(p, connectionId);
      }
      r := Ok(());
    }

    method OnReceived(crc: Checksum, raw: RawPacket, now: nat) returns (r: Outcome<()>)
      modifies this, protocol
      ensures (View(), r) == OnReceivedSpec(old(View()), crc, raw, now)
    {
      var decoded := InnerDecode(crc, raw, now);
      if decoded.Panic? { return Panic; }
      if decoded.Err? { return Err(decoded.error); }
      var filtered := Filter(ForClient, decoded.value);
      if filtered.Err? { return Err(filtered.error); }
      r := OnDecoded(filtered.value, now);
    }

    // Protocol<Client>::poll, which hands the events out; it leaves the reassemblers alone.
    method Poll(now: nat) returns (events: seq<ProtocolEvent>)
      modifies protocol, protocol.reliabilityHandler
      ensures View() == old(View()).(core := old(View()).core.(kept := Expired(old(View()).core.kept), api := []))
      ensures events == old(protocol.api)
    {
      protocol.reliabilityHandler.Poll(now);
      events := protocol.api;
      protocol.api := [];
    }
  }

  predicate NoneAwaiting(awaiting: map<SocketAddr, Peer<Awaiting>>, xs: seq<Scheduled>) {
    forall i :: 0 <= i < |xs| ==> xs[i].address !in awaiting
  }
}
