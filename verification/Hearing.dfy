// What receiving a packet does to the peers, exactly: `on_received` of server/service.rs and
// client/service.rs, field by field, for any state and any packet, and for every packet in flight
// in every run.
module Hearing {
  import opened Packets
  import opened Peers
  import opened Endpoint
  import opened Discipline
  import opened AntarcSystem
  import opened SystemRuns
  import ServerService
  import ClientService
  import SN = ServerNodes
  import CN = ClientNodes

  // A peer that was connected has taken in the packet's sequence and ack, and nothing else but
  // what a fragment does to its reassembler.
  predicate TookAcks(peer: Peer<Connected>, peer': Peer<Connected>, p: Packet<Received>) {
    && peer'.remoteAck == p.sequence && peer'.localAck == p.ack
    && peer'.sequenceTracker == peer.sequenceTracker && peer'.address == peer.address
    && peer'.connection.connectionId == peer.connection.connectionId
    && (p.message.Fragment? || peer'.connection.reassembler == peer.connection.reassembler)
  }

  // A peer that was awaiting is connected, with the packet's sequence and ack.
  predicate NowConnected(peer: Peer<Awaiting>, peer': Peer<Connected>, id: ConnectionId, p: Packet<Received>) {
    && peer'.remoteAck == p.sequence && peer'.localAck == p.ack
    && peer'.sequenceTracker == peer.sequenceTracker && peer'.address == peer.address
    && peer'.connection.connectionId == id
    && (p.message.Fragment? || peer'.connection.reassembler == map[])
  }

  ghost predicate OthersSame(c: ConnectedPeers, c': ConnectedPeers, id: ConnectionId) {
    && c'.Keys == c.Keys + {id}
    && forall k :: k in c && k != id ==> c'[k] == c[k]
  }

  // ---------------------------------------------------------------- a client

  // Who a packet reaches: the connected peer it names; or else the peer that awaits at its
  // address, unless it is a fragment, or an acceptance while that address is requesting too.
  predicate ReachesConnected(s: ClientService.ClientState, p: Packet<Received>) {
    && (p.message.DataTransfer? || p.message.Fragment? || p.message.Heartbeat?)
    && p.message.connectionId in s.core.connected
  }

  predicate ReachesAwaiting(s: ClientService.ClientState, p: Packet<Received>) {
    && !p.message.ConnectionRequest?
    && p.message.connectionId !in s.core.connected && p.delivery.address in s.awaiting
    && (p.message.DataTransfer? || p.message.Heartbeat? || (p.message.ConnectionAccepted? && p.delivery.address !in s.requesting))
  }

  ghost predicate ClientTook(s: ClientService.ClientState, s': ClientService.ClientState, p: Packet<Received>) {
    && s'.requesting == s.requesting
    && s'.core == s.core.(connected := s'.core.connected, api := s'.core.api)
    && (if ReachesConnected(s, p) then
          var id := p.message.connectionId;
          && s'.awaiting == s.awaiting && OthersSame(s.core.connected, s'.core.connected, id)
          && TookAcks(s.core.connected[id], s'.core.connected[id], p)
        else if ReachesAwaiting(s, p) then
          var id, a := p.message.connectionId, p.delivery.address;
          && s'.awaiting == s.awaiting - {a} && OthersSame(s.core.connected, s'.core.connected, id)
          && NowConnected(s.awaiting[a], s'.core.connected[id], id, p)
        else s'.awaiting == s.awaiting && s'.core.connected == s.core.connected)
    && ClientTells(s, s'.core.api, p)
  }

  // The events: an error, or the payload of the data transfer that connects; a fragment may
  // complete a group.
  ghost predicate ClientTells(s: ClientService.ClientState, api': seq<ProtocolEvent>, p: Packet<Received>) {
    var api, a := s.core.api, p.delivery.address;
    match p.message
    case ConnectionRequest => api' == api + [Fail(InvalidPacketType(PacketType(1)))]
    case ConnectionAccepted(id) =>
      api' == api + if a in s.requesting || id in s.core.connected then [Fail(PeerInAnotherState(a))] else []
    case DataTransfer(id, payload) =>
      api' == api + if id !in s.core.connected && a in s.awaiting then [Delivered(id, payload)] else []
    case Heartbeat(_) => api' == api
    case Fragment(id, _, _, _) =>
      if id in s.core.connected then api <= api' && |api'| <= |api| + 1 else api' == api + [Fail(NoPeersConnected)]
  }

  // Any client, any packet.
  lemma ClientTakesExactly(s: ClientService.ClientState, p: Packet<Received>)
    ensures ClientTook(s, ClientService.DriverReceive(s, p), p)
  {
    if ReachesConnected(s, p) {
      ClientHearsConnected(s, p);
    } else if ReachesAwaiting(s, p) {
      ClientHearsAwaiting(s, p);
    }
  }

  lemma ClientHearsConnected(s: ClientService.ClientState, p: Packet<Received>)
    requires ReachesConnected(s, p)
    ensures ClientTook(s, ClientService.DriverReceive(s, p), p)
  {
  }

  lemma ClientHearsAwaiting(s: ClientService.ClientState, p: Packet<Received>)
    requires ReachesAwaiting(s, p)
    ensures ClientTook(s, ClientService.DriverReceive(s, p), p)
  {
  }

  // ---------------------------------------------------------------- the server

  predicate ForPeer(p: Packet<Received>) {
    p.message.DataTransfer? || p.message.Fragment? || p.message.Heartbeat?
  }

  // On a server every kind of packet for a peer connects one that awaits under the id it names.
  ghost predicate ServerTook(s: ServerService.ServerState, s': ServerService.ServerState, p: Packet<Received>)
    requires ForPeer(p)
  {
    var id := p.message.connectionId;
    && s' == s.(awaiting := s'.awaiting, core := s'.core)
    && s'.core == s.core.(connected := s'.core.connected, api := s'.core.api)
    && (if id in s.core.connected then
          && s'.awaiting == s.awaiting && OthersSame(s.core.connected, s'.core.connected, id)
          && TookAcks(s.core.connected[id], s'.core.connected[id], p)
        else if id in s.awaiting then
          && s'.awaiting == s.awaiting - {id} && OthersSame(s.core.connected, s'.core.connected, id)
          && NowConnected(s.awaiting[id], s'.core.connected[id], id, p)
        else s'.awaiting == s.awaiting && s'.core.connected == s.core.connected)
    && ServerTells(s, s'.core.api, p)
  }

  ghost predicate ServerTells(s: ServerService.ServerState, api': seq<ProtocolEvent>, p: Packet<Received>)
    requires ForPeer(p)
  {
    var api, id := s.core.api, p.message.connectionId;
    if p.message.Heartbeat? then api' == api
    else if id !in s.core.connected && id !in s.awaiting then api' == api + [Fail(NoPeersConnected)]
    else if p.message.DataTransfer? then api' == api + [Delivered(id, p.message.payload)]
    else api <= api' && |api'| <= |api| + 1
  }

  lemma ServerTakesExactly(s: ServerService.ServerState, p: Packet<Received>, now: nat)
    requires ForPeer(p)
    ensures ServerTook(s, ServerService.DriverReceive(s, p, now), p)
  {
    if p.message.connectionId in s.core.connected {
      ServerHearsConnected(s, p, now);
    } else if p.message.connectionId in s.awaiting {
      ServerHearsAwaiting(s, p, now);
    }
  }

  lemma ServerHearsConnected(s: ServerService.ServerState, p: Packet<Received>, now: nat)
    requires ForPeer(p) && p.message.connectionId in s.core.connected
    ensures ServerTook(s, ServerService.DriverReceive(s, p, now), p)
  {
  }

  lemma ServerHearsAwaiting(s: ServerService.ServerState, p: Packet<Received>, now: nat)
    requires ForPeer(p) && p.message.connectionId !in s.core.connected && p.message.connectionId in s.awaiting
    ensures ServerTook(s, ServerService.DriverReceive(s, p, now), p)
  {
  }

  // A request changes no peer there is: it lets one more await under the next id, or none.
  ghost predicate OneMoreAwaits(s: ServerService.ServerState, s': ServerService.ServerState, p: Packet<Received>) {
    var id, a := s.connectionIdTracker, p.delivery.address;
    && s'.core.connected == s.core.connected && s'.requesting == map[]
    && (if (exists k :: SN.Known(s, k) && SN.Link(s, k).address == a) || a in s.banList
        then s'.awaiting == s.awaiting && s'.connectionIdTracker == id
        else s'.awaiting == s.awaiting[id := Peer(1, p.sequence, 0, a, Awaiting(0))] && s'.connectionIdTracker as int == id as int + 1)
  }

  lemma ServerAdmitsExactly(s: ServerService.ServerState, p: Packet<Received>, now: nat)
    requires SN.Partition(s) && p.message.ConnectionRequest? && !ServerService.ReceiveSpec(s, p, now).1.Panic?
    ensures OneMoreAwaits(s, ServerService.DriverReceive(s, p, now), p)
  {
    var id, a := s.connectionIdTracker, p.delivery.address;
    AnotherStateIsKnown(s, a);
    if !ServerService.InAnotherState(s, a) && a !in s.banList {
      var s1 := s.(requesting := s.requesting[id := NewPeer(a, p.sequence)], connectionIdTracker := id + 1);
      assert ServerService.EnterRequesting(s, a, p.sequence) == Some((s1, id));
      assert s1.requesting - {id} == map[];
    }
  }

  lemma AnotherStateIsKnown(s: ServerService.ServerState, a: SocketAddr)
    requires SN.Partition(s)
    ensures ServerService.InAnotherState(s, a) <==> exists k :: SN.Known(s, k) && SN.Link(s, k).address == a
  {
    if k :| k in s.awaiting && s.awaiting[k].address == a {
      assert SN.Known(s, k) && SN.Link(s, k).address == a;
    }
    if k :| k in s.core.connected && s.core.connected[k].address == a {
      assert SN.Known(s, k) && SN.Link(s, k).address == a;
    }
  }

  // ---------------------------------------------------------------- in every run

  // Every packet in flight that a client hears, in every state of every run.
  lemma ClientHearsExactly(ys: seq<System>, i: nat, a: SocketAddr, w: Wire, now: nat)
    requires IsRun(ys) && i + 1 < |ys| && Next(ys[i], ClientHears(a, w), ys[i + 1], now)
    ensures a in ys[i].clients && a in ys[i + 1].clients
    ensures ClientTook(ys[i].clients[a].state, ys[i + 1].clients[a].state, Delivery(w, ys[i].serverAddress, now))
  {
    ClientPart(ys[i], ClientHears(a, w), ys[i + 1], now);
    ClientTakesExactly(ys[i].clients[a].state, Delivery(w, ys[i].serverAddress, now));
  }

  // Every packet in flight that the server hears.
  lemma ServerHearsExactly(ys: seq<System>, i: nat, from: SocketAddr, w: Wire, now: nat)
    requires IsRun(ys) && i + 1 < |ys| && Next(ys[i], ServerHears(from, w), ys[i + 1], now)
    ensures from in ys[i].clients
    ensures var s, s', p := ys[i].server.state, ys[i + 1].server.state, Delivery(w, from, now);
      if w.message.ConnectionRequest? then OneMoreAwaits(s, s', p)
      else ForPeer(p) && ServerTook(s, s', p)
  {
    EveryState(ys, i);
    ServerPart(ys[i], ServerHears(from, w), ys[i + 1], now);
    var s, p := ys[i].server.state, Delivery(w, from, now);
    if w.message.ConnectionRequest? {
      ServerAdmitsExactly(s, p, now);
    } else {
      SentForPeer(ys[i], from, w);
      ServerTakesExactly(s, p, now);
    }
  }

  lemma SentForPeer(y: System, from: SocketAddr, w: Wire)
    requires Inv(y) && from in y.clients && w in y.clients[from].sent
    ensures w.message.ConnectionRequest? || w.message.ForConnected()
  {
    assert ClientInv(y, from);
    assert CN.SentBelow(y.clients[from].state, w);
  }
}
