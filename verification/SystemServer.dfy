// The server's steps keep what couples the nodes.
module ServerSteps {
  import opened Packets
  import opened Peers
  import opened Scheduler
  import opened Endpoint
  import opened Reliability
  import opened LocalState
  import opened Discipline
  import opened Outbox
  import opened AntarcSystem
  import SN = ServerNodes
  import SR = ServerReceives
  import CN = ClientNodes

  lemma FirstGrows(first: seq<Wire>, ws: seq<Wire>)
    ensures forall q :: Used(first, q) ==> Used(first + ws, q)
    ensures forall a, q :: AckOf(first, a, q) ==> AckOf(first + ws, a, q)
    ensures forall id :: Announced(first, id) ==> Announced(first + ws, id)
  {
  }

  // Sending anything that a drained list or a retry can be.
  lemma EmitsKeepLink(s: SN.ServerNode, s': SN.ServerNode, ws: seq<Wire>, a: SocketAddr, c: CN.ClientNode, serverAddress: SocketAddr)
    requires LinkOk(s, a, c, serverAddress) && SN.Emits(s.state, s'.state, ws) && s'.first == s.first + ws
    ensures LinkOk(s', a, c, serverAddress)
  {
    FirstGrows(s.first, ws);
    forall w | w in s'.first && w.address == a ensures Used(c.first, w.ack) {
      if w !in s.first { assert SN.Emitted(s.state, s'.state, w); }
    }
    forall id | id in s'.state.core.connected ensures SN.Known(s.state, id) && s'.state.core.connected[id].address == s.state.core.connected[id].address {
      assert SN.Known(s.state, id);
      assert SN.Link(s'.state, id).address == SN.Link(s.state, id).address;
    }
    forall id | SN.Known(s'.state, id) ensures SN.Known(s.state, id) {}
  }

  lemma EmitsKeepFresh(s: SN.ServerNode, s': SN.ServerNode, ws: seq<Wire>)
    requires AcceptsFresh(s) && SN.Steady(s.state, s'.state) && s'.first == s.first + ws
    requires forall x :: x in s'.state.core.lists.handshakes ==> x in s.state.core.lists.handshakes
    requires forall x, w :: x in s'.state.core.lists.handshakes && w in ws && x.message.ConnectionAccepted? ==> !Names(w.message, x.message.connectionId)
    ensures AcceptsFresh(s')
  {
  }

  // Every server step but a receive that matters is a steady one.
  lemma ActEmits(n: SN.ServerNode, a: SN.ServerAction, n': SN.ServerNode, now: nat, ttl: nat) returns (ws: seq<Wire>)
    requires SN.ServerNodeOk(n) && AcceptsFresh(n) && SN.ServerStep(n, a, n', now, ttl) && !a.Receive?
    ensures SN.ServerNodeOk(n') && AcceptsFresh(n')
    ensures n'.first == n.first + ws && SN.Emits(n.state, n'.state, ws)
  {
    ws := [];
    assert n.first + [] == n.first;
    match a {
      case Schedule(_, _, _, _) => SN.ScheduleKeepsServer(n, a, n', now, ttl);
      case SendHeartbeat(_, _, _) => SN.HeartbeatKeepsServer(n, a, n', now, ttl);
      case Drain(l) =>
        SN.DrainKeepsServer(n, a, n', now, ttl);
        ws :| n'.first == n.first + ws && SN.Emits(n.state, n'.state, ws) && SN.AllForConnected(n.state, ws);
        SN.KeptHandshakesStay(n.state.core, l, now, ttl);
        DrainNamesConnected(n, ws);
      case DrainAccepted =>
        SN.AcceptedKeepsServer(n, a, n', now, ttl);
        ws :| n'.first == n.first + ws && SN.Emits(n.state, n'.state, ws);
      case Retry(_) => SN.RetryKeepsServer(n, a, n', now, ttl);
      case Poll(_) => SN.PollKeepsServer(n, a, n', now, ttl);
    }
    EmitsKeepFresh(n, n', ws);
  }

  // What is drained goes to connected peers, not to those whose acceptance is still scheduled.
  lemma DrainNamesConnected(n: SN.ServerNode, ws: seq<Wire>)
    requires AcceptsFresh(n) && SN.ServerOk(n.state) && SN.AllForConnected(n.state, ws)
    ensures forall x, w :: x in n.state.core.lists.handshakes && w in ws && x.message.ConnectionAccepted? ==> !Names(w.message, x.message.connectionId)
  {
  }

  lemma EmitsKeepKnown(y: System, y': System, ws: seq<Wire>)
    requires y' == y.(server := y'.server) && SN.Emits(y.server.state, y'.server.state, ws)
    requires forall id :: SN.Known(y.server.state, id) ==> SN.Link(y.server.state, id).address in y.clients
    ensures forall id :: SN.Known(y'.server.state, id) ==> SN.Link(y'.server.state, id).address in y'.clients
  {
  }

  lemma ServerActsKeeps(y: System, act: SN.ServerAction, y': System, now: nat)
    requires Inv(y) && Next(y, ServerActs(act), y', now)
    ensures Inv(y')
  {
    var ws := ActEmits(y.server, act, y'.server, now, y.ttl);
    EmitsKeepKnown(y, y', ws);
    forall a | a in y'.clients ensures ClientInv(y', a) {
      assert ClientInv(y, a);
      EmitsKeepLink(y.server, y'.server, ws, a, y.clients[a], y.serverAddress);
    }
  }

  // ---------------------------------------------------------------- receiving

  // A client's request becomes a peer that awaits, at that client's address.
  lemma AdmitKeepsLink(s: SN.ServerNode, s': SN.ServerNode, p: Packet<Received>, now: nat, a: SocketAddr, c: CN.ClientNode, serverAddress: SocketAddr)
    requires LinkOk(s, a, c, serverAddress) && SN.ServerOk(s.state) && SR.Admits(s.state, s'.state, p, now) && s'.first == s.first
    requires p.delivery.address == a ==> Used(c.first, p.sequence)
    ensures LinkOk(s', a, c, serverAddress)
  {
    SR.AdmitPartition(s.state, s'.state, p, now);
    forall id | SN.Known(s'.state, id) && SN.Link(s'.state, id).address == a
      ensures Used(c.first, SN.Link(s'.state, id).remoteAck) && AckOf(s.first, a, SN.Link(s'.state, id).localAck)
    {
      if id != s.state.connectionIdTracker { assert SN.Known(s.state, id); }
    }
    forall id | id in c.state.core.connected ensures SN.Known(s'.state, id) && SN.Link(s'.state, id).address == a {
      assert SN.Known(s.state, id);
    }
  }

  lemma AdmitKeepsFresh(s: SN.ServerNode, s': SN.ServerNode, p: Packet<Received>, now: nat)
    requires AcceptsFresh(s) && SN.ServerNodeOk(s) && SR.Admits(s.state, s'.state, p, now) && s'.first == s.first
    ensures AcceptsFresh(s')
  {
    var id := s.state.connectionIdTracker;
    assert !Announced(s.first, id) by {
      forall w | w in s.first ensures !Names(w.message, id) { assert SN.SentBelow(s.state, w); }
    }
    forall x | x in s'.state.core.lists.handshakes ensures AcceptFresh(s', x) {
      if x in s.state.core.lists.handshakes { assert AcceptFresh(s, x); }
    }
  }

  // A connected client's packet: the peer it names is that client's own.
  lemma HearKeepsLink(s: SN.ServerNode, s': SN.ServerNode, p: Packet<Received>, a: SocketAddr, c: CN.ClientNode, serverAddress: SocketAddr)
    requires LinkOk(s, a, c, serverAddress) && SN.ServerOk(s.state) && SR.Hears(s.state, s'.state, p) && s'.first == s.first
    requires SN.Link(s.state, p.message.connectionId).address == a ==>
      p.message.connectionId in c.state.core.connected && Used(c.first, p.sequence) && AckOf(s.first, a, p.ack)
    ensures LinkOk(s', a, c, serverAddress)
  {
    SR.HearsPartition(s.state, s'.state, p);
    var id := p.message.connectionId;
    forall k | k in s'.state.core.connected && s'.state.core.connected[k].address == a ensures k in c.state.core.connected {
      assert SN.Known(s.state, k);
      assert SN.Link(s'.state, k).address == s'.state.core.connected[k].address;
      if k != id { assert s.state.core.connected[k].address == SN.Link(s.state, k).address; }
    }
    forall k | SN.Known(s'.state, k) && SN.Link(s'.state, k).address == a
      ensures Used(c.first, SN.Link(s'.state, k).remoteAck) && AckOf(s.first, a, SN.Link(s'.state, k).localAck)
    {
      assert SN.Known(s.state, k);
    }
    forall k | k in c.state.core.connected ensures SN.Known(s'.state, k) && SN.Link(s'.state, k).address == a {
      assert SN.Known(s.state, k);
    }
  }

  lemma HearKeepsFresh(s: SN.ServerNode, s': SN.ServerNode, p: Packet<Received>)
    requires AcceptsFresh(s) && SR.Hears(s.state, s'.state, p) && s'.first == s.first
    requires Announced(s.first, p.message.connectionId)
    ensures AcceptsFresh(s')
  {
  }

  // What a client that sent a packet is connected as, and has told.
  lemma SenderFacts(s: SN.ServerNode, a: SocketAddr, c: CN.ClientNode, serverAddress: SocketAddr, w: Wire)
    requires CN.AllSentBelow(c.state, c.first) && CN.SentIsFirst(c.sent, c.first) && LinkOk(s, a, c, serverAddress) && w in c.sent
    ensures Used(c.first, w.sequence) && AckOf(s.first, a, w.ack)
    ensures w.message.ConnectionRequest? || (w.message.ForConnected() && w.message.connectionId in c.state.core.connected)
    ensures w.message.ForConnected() ==>
      && SN.Known(s.state, w.message.connectionId)
      && SN.Link(s.state, w.message.connectionId).address == a
      && Announced(s.first, w.message.connectionId)
  {
    assert CN.SentBelow(c.state, w);
  }

  lemma AdmitKeepsKnown(y: System, y': System, p: Packet<Received>, now: nat)
    requires SN.ServerOk(y.server.state) && y'.clients == y.clients && p.delivery.address in y.clients
    requires SR.Admits(y.server.state, y'.server.state, p, now)
    requires forall id :: SN.Known(y.server.state, id) ==> SN.Link(y.server.state, id).address in y.clients
    ensures forall id :: SN.Known(y'.server.state, id) ==> SN.Link(y'.server.state, id).address in y'.clients
  {
    SR.AdmitPartition(y.server.state, y'.server.state, p, now);
    forall id | SN.Known(y'.server.state, id) ensures SN.Link(y'.server.state, id).address in y'.clients {
      if id != y.server.state.connectionIdTracker { assert SN.Known(y.server.state, id); }
    }
  }

  lemma AdmitKeepsInv(y: System, from: SocketAddr, w: Wire, y': System, now: nat)
    requires Inv(y) && from in y.clients && Used(y.clients[from].first, w.sequence) && y' == y.(server := y'.server)
    requires SN.ServerNodeOk(y'.server) && y'.server.first == y.server.first
    requires SR.Admits(y.server.state, y'.server.state, Delivery(w, from, now), now)
    ensures Inv(y')
  {
    var s, s', p := y.server, y'.server, Delivery(w, from, now);
    AdmitKeepsKnown(y, y', p, now);
    AdmitKeepsFresh(s, s', p, now);
    forall a | a in y'.clients ensures ClientInv(y', a) {
      assert ClientInv(y, a);
      AdmitKeepsLink(s, s', p, now, a, y.clients[a], y.serverAddress);
    }
  }

  lemma HearKeepsInv(y: System, from: SocketAddr, w: Wire, y': System, now: nat)
    requires Inv(y) && from in y.clients && w in y.clients[from].sent && y' == y.(server := y'.server)
    requires SN.ServerNodeOk(y'.server) && y'.server.first == y.server.first
    requires SR.Hears(y.server.state, y'.server.state, Delivery(w, from, now))
    ensures Inv(y')
  {
    var s, s', p := y.server, y'.server, Delivery(w, from, now);
    assert ClientInv(y, from);
    SenderFacts(s, from, y.clients[from], y.serverAddress, w);
    SR.HearsPartition(s.state, s'.state, p);
    HearKeepsFresh(s, s', p);
    forall a | a in y'.clients ensures ClientInv(y', a) {
      assert ClientInv(y, a);
      HearKeepsLink(s, s', p, a, y.clients[a], y.serverAddress);
    }
  }

  lemma NothingHeardKeepsInv(y: System, y': System)
    requires Inv(y) && y' == y.(server := y'.server)
    requires SN.ServerNodeOk(y'.server) && y'.server.first == y.server.first
    requires SN.Steady(y.server.state, y'.server.state) && y'.server.state.core.lists == y.server.state.core.lists
    ensures Inv(y')
  {
    var s, s' := y.server, y'.server;
    assert s.first + [] == s.first;
    EmitsKeepFresh(s, s', []);
    EmitsKeepKnown(y, y', []);
    forall a | a in y'.clients ensures ClientInv(y', a) {
      assert ClientInv(y, a);
      EmitsKeepLink(s, s', [], a, y.clients[a], y.serverAddress);
    }
  }

  lemma ServerHearsKeeps(y: System, from: SocketAddr, w: Wire, y': System, now: nat)
    requires Inv(y) && Next(y, ServerHears(from, w), y', now)
    ensures Inv(y')
  {
    var s, s', p := y.server, y'.server, Delivery(w, from, now);
    SR.ReceiveKeepsServer(s, SN.Receive(p), s', now, y.ttl);
    if SR.Hears(s.state, s'.state, p) {
      HearKeepsInv(y, from, w, y', now);
    } else if p.message.ConnectionRequest? && SR.Admits(s.state, s'.state, p, now) {
      assert ClientInv(y, from);
      SenderFacts(s, from, y.clients[from], y.serverAddress, w);
      AdmitKeepsInv(y, from, w, y', now);
    } else {
      NothingHeardKeepsInv(y, y');
    }
  }
}
