// The clients' steps keep what couples the nodes.
module ClientSteps {
  import opened Packets
  import opened Peers
  import opened Scheduler
  import opened Endpoint
  import opened Reliability
  import opened LocalState
  import opened Discipline
  import opened Outbox
  import opened ClientService
  import opened AntarcSystem
  import SN = ServerNodes
  import CN = ClientNodes
  import CR = ClientReceives
  import ServerSteps

  // A client that knows one server only: what a step must show of the kept requests and the phase.
  ghost predicate KeepsOneRequest(c: CN.ClientNode) {
    && |c.state.core.kept.handshakes| <= 1
    && (c.phase == CN.Idle ==> c.state.core.kept.handshakes == [])
  }

  // Every tracker pair of the later state is one of the earlier state.
  ghost predicate SameAcks(c: CN.ClientNode, c': CN.ClientNode, serverAddress: SocketAddr) {
    forall l' :: CN.IsLink(c'.state, serverAddress, l') ==>
      exists l :: CN.IsLink(c.state, serverAddress, l) && l.remoteAck == l'.remoteAck && l.localAck == l'.localAck
  }

  // What was sent acks what one of the client's peers had heard.
  ghost predicate AcksLinks(c: CN.ClientNode, ws: seq<Wire>, serverAddress: SocketAddr) {
    forall w :: w in ws ==> exists l :: CN.IsLink(c.state, serverAddress, l) && l.remoteAck == w.ack
  }

  // Peers that have heard nothing new, and transmissions that ack what was heard.
  lemma SendingKeepsLink(s: SN.ServerNode, a: SocketAddr, c: CN.ClientNode, c': CN.ClientNode, ws: seq<Wire>, serverAddress: SocketAddr)
    requires LinkOk(s, a, c, serverAddress) && c'.first == c.first + ws
    requires c'.state.core.connected.Keys == c.state.core.connected.Keys
    requires SameAcks(c, c', serverAddress) && AcksLinks(c, ws, serverAddress)
    ensures LinkOk(s, a, c', serverAddress)
  {
    ServerSteps.FirstGrows(c.first, ws);
    forall w | w in c'.first ensures AckOf(s.first, a, w.ack) {
      if w !in c.first {
        var l :| CN.IsLink(c.state, serverAddress, l) && l.remoteAck == w.ack;
      }
    }
    forall l' | CN.IsLink(c'.state, serverAddress, l')
      ensures AckOf(s.first, a, l'.remoteAck) && (l'.localAck == 0 || Used(c'.first, l'.localAck))
    {
      var l :| CN.IsLink(c.state, serverAddress, l) && l.remoteAck == l'.remoteAck && l.localAck == l'.localAck;
    }
  }

  lemma SteadySameAcks(c: CN.ClientNode, c': CN.ClientNode, serverAddress: SocketAddr)
    requires CN.ClientOk(c.state) && CN.Steady(c.state, c'.state)
    ensures SameAcks(c, c', serverAddress)
  {
  }

  lemma EmitsAckLinks(c: CN.ClientNode, c': CN.ClientNode, ws: seq<Wire>, serverAddress: SocketAddr)
    requires OneServer(c, serverAddress) && CN.Emits(c.state, c'.state, ws)
    ensures AcksLinks(c, ws, serverAddress)
  {
  }

  // A step that lets every peer be.
  lemma EmitsKeepClient(s: SN.ServerNode, a: SocketAddr, c: CN.ClientNode, c': CN.ClientNode, ws: seq<Wire>, serverAddress: SocketAddr)
    requires CN.ClientOk(c.state) && OneServer(c, serverAddress) && LinkOk(s, a, c, serverAddress)
    requires CN.Emits(c.state, c'.state, ws) && c'.first == c.first + ws && KeepsOneRequest(c')
    ensures OneServer(c', serverAddress) && LinkOk(s, a, c', serverAddress)
  {
    SteadySameAcks(c, c', serverAddress);
    EmitsAckLinks(c, c', ws, serverAddress);
    SendingKeepsLink(s, a, c, c', ws, serverAddress);
    forall id | id in c'.state.core.connected ensures c'.state.core.connected[id].address == serverAddress {
      assert c'.state.core.connected[id].Link().address == c.state.core.connected[id].Link().address;
    }
  }

  lemma SteadyStepKeeps(s: SN.ServerNode, a: SocketAddr, c: CN.ClientNode, action: CN.ClientAction, c': CN.ClientNode, serverAddress: SocketAddr, now: nat, ttl: nat)
    requires CN.ClientNodeOk(c) && OneServer(c, serverAddress) && LinkOk(s, a, c, serverAddress)
    requires CN.ClientStep(c, action, c', now, ttl) && !action.Connect? && !action.DrainRequests? && !action.Receive?
    ensures OneServer(c', serverAddress) && LinkOk(s, a, c', serverAddress)
  {
    var ws: seq<Wire> := [];
    assert c.first + [] == c.first;
    match action {
      case Schedule(_, _, _, _) => CN.ScheduleKeepsClient(c, action, c', now, ttl);
      case SendHeartbeat(_, _, _) => CN.ScheduleKeepsClient(c, action, c', now, ttl);
      case Resend => CN.ResendKeepsClient(c, action, c', now, ttl);
      case Retry(_) => CN.RetryKeepsClient(c, action, c', now, ttl);
      case Drain(_) =>
        CN.DrainKeepsClient(c, action, c', now, ttl);
        ws :| c'.first == c.first + ws && CN.Emits(c.state, c'.state, ws);
      case Poll => CN.PollKeepsClient(c, action, c', now, ttl);
    }
    EmitsKeepClient(s, a, c, c', ws, serverAddress);
  }

  // ---------------------------------------------------------------- asking for a connection

  lemma ConnectStepKeeps(s: SN.ServerNode, a: SocketAddr, c: CN.ClientNode, c': CN.ClientNode, serverAddress: SocketAddr, now: nat, ttl: nat)
    requires CN.ClientNodeOk(c) && OneServer(c, serverAddress) && LinkOk(s, a, c, serverAddress)
    requires CN.ClientStep(c, CN.Connect(serverAddress), c', now, ttl)
    ensures OneServer(c', serverAddress) && LinkOk(s, a, c', serverAddress)
  {
    CR.ConnectKeepsClient(c, CN.Connect(serverAddress), c', now, ttl);
    if c'.state != c.state {
      assert c.first + [] == c.first;
      forall l' | CN.IsLink(c'.state, serverAddress, l')
        ensures AckOf(s.first, a, l'.remoteAck) && (l'.localAck == 0 || Used(c'.first, l'.localAck))
      {
        assert l' == c'.state.requesting[serverAddress].Link();
      }
    }
  }

  lemma RequestsSameAcks(c: CN.ClientNode, c': CN.ClientNode, ws: seq<Wire>, serverAddress: SocketAddr)
    requires CN.ClientOk(c.state) && CR.SendsRequests(c.state, c'.state, ws) && OneServer(c, serverAddress)
    ensures SameAcks(c, c', serverAddress) && AcksLinks(c, ws, serverAddress)
  {
    var s, s' := c.state, c'.state;
    forall l' | CN.IsLink(s', serverAddress, l')
      ensures exists l :: CN.IsLink(s, serverAddress, l) && l.remoteAck == l'.remoteAck && l.localAck == l'.localAck
    {
      if id :| CN.ConnectedAt(s', id, serverAddress) && l' == s'.core.connected[id].Link() {
        assert CN.ConnectedAt(s, id, serverAddress);
        assert CN.IsLink(s, serverAddress, l');
      } else if serverAddress in s.requesting {
        assert CN.IsLink(s, serverAddress, s.requesting[serverAddress].Link());
      } else {
        assert CN.IsLink(s, serverAddress, l');
      }
    }
    forall w | w in ws ensures exists l :: CN.IsLink(s, serverAddress, l) && l.remoteAck == w.ack {
      assert CR.RequestWire(s, w);
      assert CN.IsLink(s, serverAddress, s.requesting[w.address].Link());
    }
  }

  // A client that has asked once has no second request to send.
  lemma OneRequestAtMost(c: CN.ClientNode, serverAddress: SocketAddr)
    requires CN.ClientOk(c.state) && OneServer(c, serverAddress)
    ensures |c.state.core.kept.handshakes| + |c.state.core.lists.handshakes| <= 1
  {
    var xs, ps := c.state.core.lists.handshakes, c.state.core.kept.handshakes;
    assert forall x :: x in xs ==> x.address == serverAddress;
    assert forall i :: 0 <= i < |xs| ==> xs[i] in xs;
    assert forall p :: p in ps ==> CN.Reached(c.state, p.delivery.address) && p.delivery.address == serverAddress;
    assert ps != [] ==> ps[0] in ps;
    assert xs != [] ==> xs[0] in xs && !CN.Reached(c.state, serverAddress);
    assert xs != [] ==> xs[0].address == xs[|xs| - 1].address;
  }

  lemma RequestsStepKeeps(s: SN.ServerNode, a: SocketAddr, c: CN.ClientNode, c': CN.ClientNode, serverAddress: SocketAddr, now: nat, ttl: nat)
    requires CN.ClientNodeOk(c) && OneServer(c, serverAddress) && LinkOk(s, a, c, serverAddress)
    requires CN.ClientStep(c, CN.DrainRequests, c', now, ttl)
    ensures OneServer(c', serverAddress) && LinkOk(s, a, c', serverAddress)
  {
    CR.RequestsKeepClient(c, CN.DrainRequests, c', now, ttl);
    var ws :| c'.first == c.first + ws && CR.SendsRequests(c.state, c'.state, ws);
    OneRequestAtMost(c, serverAddress);
    RequestsSameAcks(c, c', ws, serverAddress);
    SendingKeepsLink(s, a, c, c', ws, serverAddress);
  }

  // ---------------------------------------------------------------- receiving

  lemma ClientHearsKeeps(s: SN.ServerNode, a: SocketAddr, c: CN.ClientNode, c': CN.ClientNode, w: Wire, serverAddress: SocketAddr, now: nat, ttl: nat)
    requires CN.ClientNodeOk(c) && OneServer(c, serverAddress) && LinkOk(s, a, c, serverAddress)
    requires SN.ServerNodeOk(s) && w in s.sent && w.address == a
    requires CN.ClientStep(c, CN.Receive(Delivery(w, serverAddress, now)), c', now, ttl)
    ensures OneServer(c', serverAddress) && LinkOk(s, a, c', serverAddress)
  {
    var p := Delivery(w, serverAddress, now);
    CR.ReceiveKeepsClient(c, CN.Receive(p), c', now, ttl);
    if c'.state == c.state.(core := c.state.core.(api := c'.state.core.api)) {
      NothingHeardKeeps(s, a, c, c', serverAddress);
    } else {
      assert SN.SentBelow(s.state, w);
      HeardKeepsOneServer(c, c', p, serverAddress);
      HeardKeepsAgreement(s, a, c, c', w, p);
      HeardKeepsAcks(s, a, c, c', w, p, serverAddress);
    }
  }

  lemma NothingHeardKeeps(s: SN.ServerNode, a: SocketAddr, c: CN.ClientNode, c': CN.ClientNode, serverAddress: SocketAddr)
    requires CN.ClientNodeOk(c) && OneServer(c, serverAddress) && LinkOk(s, a, c, serverAddress)
    requires c'.state == c.state.(core := c.state.core.(api := c'.state.core.api)) && c'.first == c.first && c'.phase != CN.Idle
    ensures OneServer(c', serverAddress) && LinkOk(s, a, c', serverAddress)
  {
    assert c.first + [] == c.first;
    CN.CoreStepSteady(c.state, c'.state.core);
    EmitsKeepClient(s, a, c, c', [], serverAddress);
  }

  lemma HeardKeepsOneServer(c: CN.ClientNode, c': CN.ClientNode, p: Packet<Received>, serverAddress: SocketAddr)
    requires CN.ClientNodeOk(c) && CN.ClientNodeOk(c') && CR.Hears(c.state, c'.state, p) && OneServer(c, serverAddress)
    requires c'.state.core.kept == c.state.core.kept && c'.phase != CN.Idle && p.delivery.address == serverAddress
    ensures OneServer(c', serverAddress)
  {
    CR.HearsFacts(c.state, c'.state, p);
    forall id | id in c'.state.core.connected ensures c'.state.core.connected[id].address == serverAddress {
      assert CN.ConnectedAt(c'.state, id, c'.state.core.connected[id].address);
    }
  }

  lemma HeardKeepsAgreement(s: SN.ServerNode, a: SocketAddr, c: CN.ClientNode, c': CN.ClientNode, w: Wire, p: Packet<Received>)
    requires ClientAgrees(s, a, c) && ServerAgrees(s, a, c) && CR.Hears(c.state, c'.state, p)
    requires SN.SentBelow(s.state, w) && w in s.first && w.address == a && p.message == w.message
    ensures ClientAgrees(s, a, c') && ServerAgrees(s, a, c')
  {
    assert Names(w.message, p.message.connectionId);
  }

  lemma HeardKeepsAcks(s: SN.ServerNode, a: SocketAddr, c: CN.ClientNode, c': CN.ClientNode, w: Wire, p: Packet<Received>, serverAddress: SocketAddr)
    requires CN.ClientNodeOk(c) && CN.ClientNodeOk(c') && CR.Hears(c.state, c'.state, p) && c'.first == c.first
    requires AcksReal(s, a, c, serverAddress) && w in s.first && w.address == a && p.sequence == w.sequence && p.ack == w.ack
    ensures AcksReal(s, a, c', serverAddress)
  {
    var i := p.message.connectionId;
    CR.HearsFacts(c.state, c'.state, p);
    forall l | CN.IsLink(c'.state, serverAddress, l)
      ensures AckOf(s.first, a, l.remoteAck) && (l.localAck == 0 || Used(c'.first, l.localAck))
    {
      if id :| CN.ConnectedAt(c'.state, id, serverAddress) && l == c'.state.core.connected[id].Link() {
        if id != i {
          assert CN.ConnectedAt(c.state, id, serverAddress);
          assert CN.IsLink(c.state, serverAddress, c.state.core.connected[id].Link());
        }
      } else {
        assert CN.IsLink(c.state, serverAddress, l);
      }
    }
  }

  // ---------------------------------------------------------------- all steps of the clients

  lemma OneClientKeeps(y: System, a: SocketAddr, y': System)
    requires Inv(y) && a in y.clients && a in y'.clients && y' == y.(clients := y.clients[a := y'.clients[a]])
    requires ClientInv(y', a)
    ensures Inv(y')
  {
  }

  lemma ClientActsKeeps(y: System, a: SocketAddr, action: CN.ClientAction, y': System, now: nat)
    requires Inv(y) && Next(y, ClientActs(a, action), y', now)
    ensures Inv(y')
  {
    var c, c' := y.clients[a], y'.clients[a];
    assert ClientInv(y, a);
    CR.ClientStepKeeps(c, action, c', now, y.ttl);
    match action {
      case Connect(_) => ConnectStepKeeps(y.server, a, c, c', y.serverAddress, now, y.ttl);
      case DrainRequests => RequestsStepKeeps(y.server, a, c, c', y.serverAddress, now, y.ttl);
      case _ => SteadyStepKeeps(y.server, a, c, action, c', y.serverAddress, now, y.ttl);
    }
    OneClientKeeps(y, a, y');
  }

  lemma ClientReceivesKeeps(y: System, a: SocketAddr, w: Wire, y': System, now: nat)
    requires Inv(y) && Next(y, ClientHears(a, w), y', now)
    ensures Inv(y')
  {
    var c, c' := y.clients[a], y'.clients[a];
    assert ClientInv(y, a);
    CR.ClientStepKeeps(c, CN.Receive(Delivery(w, y.serverAddress, now)), c', now, y.ttl);
    ClientHearsKeeps(y.server, a, c, c', w, y.serverAddress, now, y.ttl);
    OneClientKeeps(y, a, y');
  }
}
