// One server, any number of clients, and a network that drops, duplicates, delays and reorders
// what was sent but makes nothing up. A step is one action of one driver.
module AntarcSystem {
  import opened Packets
  import opened Peers
  import opened Scheduler
  import opened Endpoint
  import opened Reliability
  import opened LocalState
  import opened Discipline
  import opened ServerService
  import opened ClientService
  import SN = ServerNodes
  import CN = ClientNodes

  datatype System = System(server: SN.ServerNode, clients: map<SocketAddr, CN.ClientNode>, serverAddress: SocketAddr, ttl: nat)

  datatype Action =
    | ServerActs(act: SN.ServerAction)
    | ClientActs(client: SocketAddr, action: CN.ClientAction)
    | ServerHears(from: SocketAddr, wire: Wire)
    | ClientHears(to: SocketAddr, wire: Wire)

  // A transmission as its receiver sees it.
  function Delivery(w: Wire, from: SocketAddr, now: nat): Packet<Received> {
    Packet(Received(now, from), w.sequence, w.ack, w.message)
  }

  // No 32-bit sequence has overflowed: the source panics there.
  ghost predicate Counted(y: System) {
    && (forall id :: SN.Known(y.server.state, id) ==> SN.Link(y.server.state, id).sequenceTracker < U32_BOUND)
    && (forall a, l :: a in y.clients && CN.IsLink(y.clients[a].state, y.serverAddress, l) ==> l.sequenceTracker < U32_BOUND)
  }

  ghost predicate Next(y: System, a: Action, y': System, now: nat) {
    && Counted(y')
    && match a
      case ServerActs(act) =>
        && !act.Receive?
        && y' == y.(server := y'.server)
        && SN.ServerStep(y.server, act, y'.server, now, y.ttl)
      case ServerHears(from, w) =>
        && from in y.clients && w in y.clients[from].sent && w.address == y.serverAddress
        && y' == y.(server := y'.server)
        && SN.ServerStep(y.server, SN.Receive(Delivery(w, from, now)), y'.server, now, y.ttl)
      case ClientActs(c, action) =>
        && c in y.clients && !action.Receive? && (action.Connect? ==> action.address == y.serverAddress)
        && c in y'.clients && y' == y.(clients := y.clients[c := y'.clients[c]])
        && CN.ClientStep(y.clients[c], action, y'.clients[c], now, y.ttl)
      case ClientHears(to, w) =>
        && to in y.clients && w in y.server.sent && w.address == to
        && to in y'.clients && y' == y.(clients := y.clients[to := y'.clients[to]])
        && CN.ClientStep(y.clients[to], CN.Receive(Delivery(w, y.serverAddress, now)), y'.clients[to], now, y.ttl)
  }

  ghost predicate Init(y: System) {
    && y.server == SN.FRESH_SERVER_NODE
    && forall a :: a in y.clients ==> y.clients[a] == CN.FRESH_CLIENT_NODE
  }

  ghost predicate IsRun(ys: seq<System>) {
    && ys != []
    && Init(ys[0])
    && forall i: nat :: i < |ys| - 1 ==> StepAt(ys, i)
  }

  ghost predicate StepAt(ys: seq<System>, i: nat)
    requires i < |ys| - 1
  {
    Steps(ys[i], ys[i + 1])
  }

  ghost predicate Steps(y: System, y': System) {
    exists a, now :: Next(y, a, y', now)
  }

  // ---------------------------------------------------------------- what couples the nodes

  // A sequence that is in use in these transmissions.
  ghost predicate Used(first: seq<Wire>, q: nat) {
    exists w :: w in first && w.sequence == q
  }

  // A sequence in use towards this address, or the ack of one that has heard nothing.
  ghost predicate AckOf(first: seq<Wire>, a: SocketAddr, q: nat) {
    q == 0 || exists w :: w in first && w.address == a && w.sequence == q
  }

  ghost predicate Announced(first: seq<Wire>, id: ConnectionId) {
    exists w :: w in first && Names(w.message, id)
  }

  // What a client is connected as, the server knows it as, and told it.
  ghost predicate ClientAgrees(s: SN.ServerNode, a: SocketAddr, c: CN.ClientNode) {
    forall id :: id in c.state.core.connected ==>
      SN.Known(s.state, id) && SN.Link(s.state, id).address == a && Announced(s.first, id)
  }

  // What the server has connected at a client's address, that client is connected as.
  ghost predicate ServerAgrees(s: SN.ServerNode, a: SocketAddr, c: CN.ClientNode) {
    forall id :: id in s.state.core.connected && s.state.core.connected[id].address == a ==> id in c.state.core.connected
  }

  // Every ack, in flight or in a tracker, is of a sequence the other side has used.
  ghost predicate AcksReal(s: SN.ServerNode, a: SocketAddr, c: CN.ClientNode, serverAddress: SocketAddr) {
    && (forall w :: w in s.first && w.address == a ==> Used(c.first, w.ack))
    && (forall w :: w in c.first ==> AckOf(s.first, a, w.ack))
    && (forall id :: SN.Known(s.state, id) && SN.Link(s.state, id).address == a ==>
          Used(c.first, SN.Link(s.state, id).remoteAck) && AckOf(s.first, a, SN.Link(s.state, id).localAck))
    && (forall l :: CN.IsLink(c.state, serverAddress, l) ==>
          AckOf(s.first, a, l.remoteAck) && (l.localAck == 0 || Used(c.first, l.localAck)))
  }

  ghost predicate LinkOk(s: SN.ServerNode, a: SocketAddr, c: CN.ClientNode, serverAddress: SocketAddr) {
    ClientAgrees(s, a, c) && ServerAgrees(s, a, c) && AcksReal(s, a, c, serverAddress)
  }

  // A connection accepted packet that is still scheduled is for a peer that still awaits it, and
  // nothing else was ever sent under its id.
  ghost predicate AcceptsFresh(s: SN.ServerNode) {
    forall x :: x in s.state.core.lists.handshakes ==> AcceptFresh(s, x)
  }

  ghost predicate AcceptFresh(s: SN.ServerNode, x: Scheduled) {
    && x.message.ConnectionAccepted?
    && x.message.connectionId in s.state.awaiting
    && !Announced(s.first, x.message.connectionId)
  }

  // The client knows this server only, asks it once, and has no request to repeat between polls.
  ghost predicate OneServer(c: CN.ClientNode, serverAddress: SocketAddr) {
    && (forall a :: a in c.state.requesting ==> a == serverAddress)
    && (forall a :: a in c.state.awaiting ==> a == serverAddress)
    && (forall id :: id in c.state.core.connected ==> c.state.core.connected[id].address == serverAddress)
    && |c.state.core.kept.handshakes| <= 1
    && (c.phase == CN.Idle ==> c.state.core.kept.handshakes == [])
  }

  ghost predicate Inv(y: System) {
    && SN.ServerNodeOk(y.server)
    && AcceptsFresh(y.server)
    && (forall id :: SN.Known(y.server.state, id) ==> SN.Link(y.server.state, id).address in y.clients)
    && (forall a :: a in y.clients ==> ClientInv(y, a))
  }

  ghost predicate ClientInv(y: System, a: SocketAddr)
    requires a in y.clients
  {
    && CN.ClientNodeOk(y.clients[a])
    && OneServer(y.clients[a], y.serverAddress)
    && LinkOk(y.server, a, y.clients[a], y.serverAddress)
  }
}
