// How a run can go on: a client that wants to connect can, in any run that has come to let it.
module Continuations {
  import opened Packets
  import opened Peers
  import opened Scheduler
  import opened Reliability
  import opened Endpoint
  import opened LocalState
  import opened Discipline
  import opened AntarcSystem
  import opened SystemRuns
  import ServerService
  import ClientService
  import SN = ServerNodes
  import SR = ServerReceives
  import CN = ClientNodes
  import CR = ClientReceives
  import ServerSteps
  import Guarantees

  // ---------------------------------------------------------------- one step more

  function Last(ys: seq<System>): System
    requires ys != []
  {
    ys[|ys| - 1]
  }

  lemma RunOn(ys: seq<System>, y': System) returns (zs: seq<System>)
    requires IsRun(ys) && Steps(Last(ys), y')
    ensures zs == ys + [y'] && IsRun(zs) && Last(zs) == y'
  {
    zs := ys + [y'];
    forall i: nat | i < |zs| - 1 ensures StepAt(zs, i) {
      if i < |ys| - 1 { assert StepAt(ys, i); }
    }
  }

  ghost predicate CountedServer(s: ServerService.ServerState) {
    forall id :: SN.Known(s, id) ==> SN.Link(s, id).sequenceTracker < U32_BOUND
  }

  ghost predicate CountedClient(s: ClientService.ClientState, serverAddress: SocketAddr) {
    forall l :: CN.IsLink(s, serverAddress, l) ==> l.sequenceTracker < U32_BOUND
  }

  function WithServer(y: System, n: SN.ServerNode): System {
    y.(server := n)
  }

  function WithClient(y: System, a: SocketAddr, n: CN.ClientNode): System {
    y.(clients := y.clients[a := n])
  }

  lemma ServerCanAct(y: System, act: SN.ServerAction, n: SN.ServerNode, now: nat)
    requires StateOk(y) && SN.ServerStep(y.server, act, n, now, y.ttl) && !act.Receive? && CountedServer(n.state)
    ensures Next(y, ServerActs(act), WithServer(y, n), now) && StateOk(WithServer(y, n))
  {
    assert Counted(WithServer(y, n));
    NextStateOk(y, ServerActs(act), WithServer(y, n), now);
  }

  lemma ServerCanHear(y: System, from: SocketAddr, w: Wire, n: SN.ServerNode, now: nat)
    requires StateOk(y) && from in y.clients && w in y.clients[from].sent && w.address == y.serverAddress
    requires SN.ServerStep(y.server, SN.Receive(Delivery(w, from, now)), n, now, y.ttl) && CountedServer(n.state)
    ensures Next(y, ServerHears(from, w), WithServer(y, n), now) && StateOk(WithServer(y, n))
  {
    assert Counted(WithServer(y, n));
    NextStateOk(y, ServerHears(from, w), WithServer(y, n), now);
  }

  lemma ClientCounted(y: System, a: SocketAddr, n: CN.ClientNode)
    requires Counted(y) && CountedClient(n.state, y.serverAddress)
    ensures Counted(WithClient(y, a, n))
  {
  }

  lemma ClientCanAct(y: System, a: SocketAddr, action: CN.ClientAction, n: CN.ClientNode, now: nat)
    requires StateOk(y) && a in y.clients && CN.ClientStep(y.clients[a], action, n, now, y.ttl)
    requires !action.Receive? && (action.Connect? ==> action.address == y.serverAddress)
    requires CountedClient(n.state, y.serverAddress)
    ensures Next(y, ClientActs(a, action), WithClient(y, a, n), now) && StateOk(WithClient(y, a, n))
  {
    ClientCounted(y, a, n);
    NextStateOk(y, ClientActs(a, action), WithClient(y, a, n), now);
  }

  lemma ClientCanHear(y: System, a: SocketAddr, w: Wire, n: CN.ClientNode, now: nat)
    requires StateOk(y) && a in y.clients && w in y.server.sent && w.address == a
    requires CN.ClientStep(y.clients[a], CN.Receive(Delivery(w, y.serverAddress, now)), n, now, y.ttl)
    requires CountedClient(n.state, y.serverAddress)
    ensures Next(y, ClientHears(a, w), WithClient(y, a, n), now) && StateOk(WithClient(y, a, n))
  {
    ClientCounted(y, a, n);
    NextStateOk(y, ClientHears(a, w), WithClient(y, a, n), now);
  }

  lemma NodesOk(y: System, a: SocketAddr)
    requires StateOk(y) && a in y.clients
    ensures SN.ServerNodeOk(y.server) && CN.ClientNodeOk(y.clients[a]) && OneServer(y.clients[a], y.serverAddress)
    ensures CountedServer(y.server.state) && CountedClient(y.clients[a].state, y.serverAddress)
  {
    assert ClientInv(y, a);
  }

  // Trackers that stay the same stay counted.
  lemma SameTrackers(s: ClientService.ClientState, s': ClientService.ClientState, serverAddress: SocketAddr)
    requires CountedClient(s, serverAddress) && s'.requesting == s.requesting && s'.awaiting == s.awaiting
    requires s'.core.connected.Keys == s.core.connected.Keys
    requires forall id :: id in s.core.connected ==>
      && s'.core.connected[id].sequenceTracker == s.core.connected[id].sequenceTracker
      && s'.core.connected[id].address == s.core.connected[id].address
    ensures CountedClient(s', serverAddress)
  {
    forall l' | CN.IsLink(s', serverAddress, l') ensures l'.sequenceTracker < U32_BOUND {
      if id :| CN.ConnectedAt(s', id, serverAddress) && l' == s'.core.connected[id].Link() {
        assert CN.ConnectedAt(s, id, serverAddress);
        assert CN.IsLink(s, serverAddress, s.core.connected[id].Link());
      } else {
        assert CN.IsLink(s, serverAddress, l');
      }
    }
  }

  // A client between polls starts its next poll: it has no request to send again.
  lemma CanWake(y: System, a: SocketAddr, now: nat) returns (y': System)
    requires StateOk(y) && a in y.clients && y.clients[a].phase == CN.Idle
    ensures Next(y, ClientActs(a, CN.Resend), y', now) && StateOk(y')
    ensures y' == WithClient(y, a, y.clients[a].(phase := CN.Sending))
  {
    var c := y.clients[a];
    NodesOk(y, a);
    WakesQuietly(c, y.serverAddress, now, y.ttl);
    y' := WithClient(y, a, c.(phase := CN.Sending));
    ClientCanAct(y, a, CN.Resend, c.(phase := CN.Sending), now);
  }

  lemma WakesQuietly(c: CN.ClientNode, serverAddress: SocketAddr, now: nat, ttl: nat)
    requires CN.ClientOk(c.state) && OneServer(c, serverAddress) && c.phase == CN.Idle
    ensures CN.ClientStep(c, CN.Resend, c.(phase := CN.Sending), now, ttl)
  {
    ListsFacts(c.state.core, Handshakes);
    Guarantees.IdleResendsNothing(c, serverAddress, now, ttl);
    assert c.sent + (set w | w in Wires([])) == c.sent;
  }

  // ---------------------------------------------------------------- the stages of a handshake

  // The server can take one more peer, who is not banned.
  ghost predicate ServerReady(y: System, a: SocketAddr) {
    var s := y.server.state;
    && s.connectionIdTracker != MAX_CONNECTION_ID
    && a !in s.banList
    && forall id :: id in s.awaiting ==> s.awaiting[id].sequenceTracker + 1 < U32_BOUND
  }

  ghost predicate Ready(y: System, a: SocketAddr) {
    && a in y.clients && y.clients[a].phase == CN.Idle
    && !ClientService.KnownPeer(y.clients[a].state, y.serverAddress)
    && ServerReady(y, a)
  }

  ghost predicate Asking(y: System, a: SocketAddr, phase: CN.Phase) {
    && a in y.clients && y.clients[a].phase == phase
    && y.serverAddress in y.clients[a].state.requesting
    && y.clients[a].state.requesting[y.serverAddress].sequenceTracker == 1
    && ServerReady(y, a) && !ServerService.InAnotherState(y.server.state, a)
  }

  ghost predicate Waiting(y: System, a: SocketAddr) {
    && a in y.clients && y.clients[a].phase == CN.Sending
    && y.clients[a].state.requesting == map[]
    && y.serverAddress in y.clients[a].state.awaiting
    && y.clients[a].state.awaiting[y.serverAddress].sequenceTracker == 2
  }

  ghost predicate Asked(y: System, a: SocketAddr, w: Wire) {
    && Waiting(y, a) && w in y.clients[a].sent && w.address == y.serverAddress && w.message == ConnectionRequest
    && ServerReady(y, a) && !ServerService.InAnotherState(y.server.state, a)
  }

  ghost predicate Admitted(y: System, a: SocketAddr, id: ConnectionId) {
    && Waiting(y, a)
    && (forall k :: k in y.server.state.awaiting ==> y.server.state.awaiting[k].sequenceTracker + 1 < U32_BOUND)
    && exists x :: x in y.server.state.core.lists.handshakes && x.address == a && x.message == ConnectionAccepted(id)
  }

  ghost predicate Told(y: System, a: SocketAddr, w: Wire) {
    Waiting(y, a) && w in y.server.sent && w.address == a && w.message.ConnectionAccepted?
  }

  // A client that never asked is nobody to the server.
  lemma Stranger(y: System, a: SocketAddr)
    requires StateOk(y) && a in y.clients && !ClientService.KnownPeer(y.clients[a].state, y.serverAddress)
    ensures !ServerService.InAnotherState(y.server.state, a)
  {
    var s, c := y.server.state, y.clients[a];
    assert ClientInv(y, a);
    assert forall w :: w in c.first ==> CN.SentBelow(c.state, w);
    assert c.first == [] by {
      if c.first != [] {
        var w := c.first[0];
        assert w in c.first;
        Guarantees.ReachedIsServer(y, a, w);
      }
    }
    forall id ensures !(SN.Known(s, id) && SN.Link(s, id).address == a) {
      assert SN.Known(s, id) && SN.Link(s, id).address == a ==> Used(c.first, SN.Link(s, id).remoteAck);
    }
    NobodyThere(s, a);
  }

  lemma NobodyThere(s: ServerService.ServerState, a: SocketAddr)
    requires SN.Partition(s) && forall id :: !(SN.Known(s, id) && SN.Link(s, id).address == a)
    ensures !ServerService.InAnotherState(s, a)
  {
    forall id | id in s.awaiting ensures s.awaiting[id].address != a { assert SN.Known(s, id); }
    forall id | id in s.core.connected ensures s.core.connected[id].address != a { assert SN.Known(s, id); }
  }

  lemma CanAsk(y: System, a: SocketAddr, now: nat) returns (y': System)
    requires StateOk(y) && Ready(y, a)
    ensures Steps(y, y') && StateOk(y') && Asking(y', a, CN.Idle)
  {
    var c, action := y.clients[a], CN.Connect(y.serverAddress);
    var c' := c.(state := ClientService.ConnectSpec(c.state, y.serverAddress, now).0);
    NodesOk(y, a);
    Stranger(y, a);
    CR.ConnectKeepsClient(c, action, c', now, y.ttl);
    forall l | CN.IsLink(c'.state, y.serverAddress, l) ensures l.sequenceTracker < U32_BOUND {
      CN.LinkUnique(c'.state, y.serverAddress, l, c'.state.requesting[y.serverAddress].Link());
    }
    y' := WithClient(y, a, c');
    ClientCanAct(y, a, action, c', now);
  }

  lemma CanSendRequest(y: System, a: SocketAddr, now: nat) returns (y': System, w: Wire)
    requires StateOk(y) && Asking(y, a, CN.Sending)
    ensures Steps(y, y') && StateOk(y') && Asked(y', a, w)
  {
    var c := y.clients[a];
    NodesOk(y, a);
    CN.CreatingNeverFails(c.state, Handshakes);
    var (s', out) := ClientService.DrainRequestsSpec(c.state, now, y.ttl);
    var c' := CN.Transmit(c, s', out);
    w := RequestIsSent(c, y.serverAddress, now, y.ttl);
    CR.RequestsOutcome(c.state, now, y.ttl);
    CR.RequestsKeepClient(c, CN.DrainRequests, c', now, y.ttl);
    forall l | CN.IsLink(c'.state, y.serverAddress, l) ensures l.sequenceTracker < U32_BOUND {
      CN.LinkUnique(c'.state, y.serverAddress, l, c'.state.awaiting[y.serverAddress].Link());
    }
    y' := WithClient(y, a, c');
    ClientCanAct(y, a, CN.DrainRequests, c', now);
  }

  lemma RequestIsSent(c: CN.ClientNode, serverAddress: SocketAddr, now: nat, ttl: nat) returns (w: Wire)
    requires CN.ClientOk(c.state) && serverAddress in c.state.requesting
    requires ClientService.AllRequestable(c.state.requesting, c.state.core.lists.handshakes)
    ensures w in Wires(ClientService.DrainRequestsSpec(c.state, now, ttl).1) && w.address == serverAddress && w.message == ConnectionRequest
  {
    var xs, out := c.state.core.lists.handshakes, ClientService.DrainRequestsSpec(c.state, now, ttl).1;
    assert serverAddress in ClientService.Addresses(xs);
    var i :| 0 <= i < |xs| && xs[i].address == serverAddress;
    w := Wires(out)[i];
  }

  lemma CanAdmit(y: System, a: SocketAddr, w: Wire, now: nat) returns (y': System, id: ConnectionId)
    requires StateOk(y) && Asked(y, a, w)
    ensures Steps(y, y') && StateOk(y') && Admitted(y', a, id)
  {
    var p, n := Delivery(w, a, now), y.server;
    NodesOk(y, a);
    id := n.state.connectionIdTracker;
    var s' := ServerService.DriverReceive(n.state, p, now);
    AdmitsStranger(n.state, p, now);
    AdmittedIsCounted(n.state, s', p, now);
    y' := WithServer(y, n.(state := s'));
    ServerCanHear(y, a, w, n.(state := s'), now);
  }

  lemma AdmittedIsCounted(s: ServerService.ServerState, s': ServerService.ServerState, p: Packet<Received>, now: nat)
    requires SN.Partition(s) && SR.Admits(s, s', p, now) && CountedServer(s)
    requires forall k :: k in s.awaiting ==> s.awaiting[k].sequenceTracker + 1 < U32_BOUND
    ensures CountedServer(s')
    ensures forall k :: k in s'.awaiting ==> s'.awaiting[k].sequenceTracker + 1 < U32_BOUND
    ensures exists x :: x in s'.core.lists.handshakes && x.address == p.delivery.address && x.message == ConnectionAccepted(s.connectionIdTracker)
  {
    var id := s.connectionIdTracker;
    SR.AdmitPartition(s, s', p, now);
    forall k | SN.Known(s', k) ensures SN.Link(s', k).sequenceTracker < U32_BOUND {
      assert k != id ==> SN.Known(s, k);
    }
    assert Scheduled(s.core.packetIdTracker, p.delivery.address, now, ConnectionAccepted(id)) in s'.core.lists.handshakes;
    forall k | k in s'.awaiting ensures s'.awaiting[k].sequenceTracker + 1 < U32_BOUND {
      assert k == id ==> s'.awaiting[id].Link().sequenceTracker == 1;
    }
  }

  lemma AdmitsStranger(s: ServerService.ServerState, p: Packet<Received>, now: nat)
    requires SN.ServerOk(s) && p.message.ConnectionRequest? && s.connectionIdTracker != MAX_CONNECTION_ID
    requires !ServerService.InAnotherState(s, p.delivery.address) && p.delivery.address !in s.banList
    ensures !ServerService.ReceiveSpec(s, p, now).1.Panic?
    ensures SR.Admits(s, ServerService.DriverReceive(s, p, now), p, now)
  {
    var id := s.connectionIdTracker;
    var s1 := s.(requesting := s.requesting[id := NewPeer(p.delivery.address, p.sequence)], connectionIdTracker := id + 1);
    assert ServerService.EnterRequesting(s, p.delivery.address, p.sequence) == Some((s1, id));
    assert s1.requesting - {id} == map[];
    assert !SN.Known(s, id);
  }

  lemma CanTell(y: System, a: SocketAddr, id: ConnectionId, now: nat) returns (y': System, w: Wire)
    requires StateOk(y) && Admitted(y, a, id)
    ensures Steps(y, y') && StateOk(y') && Told(y', a, w)
  {
    var n := y.server;
    NodesOk(y, a);
    AllAwait(y);
    var (s', out) := ServerService.DrainAcceptedSpec(n.state, now, y.ttl);
    var n' := SN.Transmit(n, s', out);
    w := AnswerIsSent(n.state, a, id, now, y.ttl);
    TellingIsCounted(n.state, now, y.ttl);
    y' := WithServer(y, n');
    ServerCanAct(y, SN.DrainAccepted, n', now);
  }

  lemma TellingIsCounted(s: ServerService.ServerState, now: nat, ttl: nat)
    requires ServerService.AllAcceptable(s.awaiting, s.core.lists.handshakes) && CountedServer(s)
    requires forall k :: k in s.awaiting ==> s.awaiting[k].sequenceTracker + 1 < U32_BOUND
    ensures CountedServer(ServerService.DrainAcceptedSpec(s, now, ttl).0)
  {
    var s' := ServerService.DrainAcceptedSpec(s, now, ttl).0;
    forall k | SN.Known(s', k) ensures SN.Link(s', k).sequenceTracker < U32_BOUND {
      assert SN.Known(s, k);
    }
  }

  lemma AllAwait(y: System)
    requires StateOk(y)
    ensures ServerService.AllAcceptable(y.server.state.awaiting, y.server.state.core.lists.handshakes)
  {
    var xs := y.server.state.core.lists.handshakes;
    forall k | 0 <= k < |xs| ensures ServerService.Acceptable(y.server.state.awaiting, xs[k]) {
      assert AcceptFresh(y.server, xs[k]);
    }
  }

  lemma AnswerIsSent(s: ServerService.ServerState, a: SocketAddr, id: ConnectionId, now: nat, ttl: nat) returns (w: Wire)
    requires ServerService.AllAcceptable(s.awaiting, s.core.lists.handshakes)
    requires exists x :: x in s.core.lists.handshakes && x.address == a && x.message == ConnectionAccepted(id)
    ensures w in Wires(ServerService.DrainAcceptedSpec(s, now, ttl).1) && w.address == a && w.message == ConnectionAccepted(id)
  {
    var xs, out := s.core.lists.handshakes, ServerService.DrainAcceptedSpec(s, now, ttl).1;
    var i :| 0 <= i < |xs| && xs[i].address == a && xs[i].message == ConnectionAccepted(id);
    w := Wires(out)[i];
  }

  lemma CanHearAnswer(y: System, a: SocketAddr, w: Wire, now: nat) returns (y': System)
    requires StateOk(y) && Told(y, a, w)
    ensures Steps(y, y') && StateOk(y') && ClientConnected(y', a, w.message.connectionId, CN.Phase.Received)
  {
    var c := y.clients[a];
    NodesOk(y, a);
    var s' := ClientService.DriverReceive(c.state, Delivery(w, y.serverAddress, now));
    AnswerConnects(c, y.serverAddress, w, now);
    y' := WithClient(y, a, c.(state := s', phase := CN.Phase.Received));
    ClientCanHear(y, a, w, c.(state := s', phase := CN.Phase.Received), now);
  }

  lemma AnswerConnects(c: CN.ClientNode, serverAddress: SocketAddr, w: Wire, now: nat)
    requires CN.ClientOk(c.state) && OneServer(c, serverAddress) && w.message.ConnectionAccepted?
    requires c.state.requesting == map[] && serverAddress in c.state.awaiting && c.state.awaiting[serverAddress].sequenceTracker == 2
    ensures var s' := ClientService.DriverReceive(c.state, Delivery(w, serverAddress, now));
      && s'.core.connected.Keys == {w.message.connectionId} && CountedClient(s', serverAddress)
      && s'.core.connected[w.message.connectionId].sequenceTracker == 2 && s'.core.connected[w.message.connectionId].address == serverAddress
      && s'.core.lists.unreliableHeartbeats == []
  {
    var p := Delivery(w, serverAddress, now);
    NobodyConnected(c, serverAddress);
    NothingToSend(c.state);
    var s' := ClientService.DriverReceive(c.state, p);
    CR.HearCore(c.state, p);
    CR.HearsFacts(c.state, s', p);
    forall l | CN.IsLink(s', serverAddress, l) ensures l.sequenceTracker < U32_BOUND {
      assert l == s'.core.connected[w.message.connectionId].Link();
    }
  }

  lemma NothingToSend(s: ClientService.ClientState)
    requires CN.ClientOk(s) && s.core.connected == map[]
    ensures s.core.lists.unreliableHeartbeats == []
  {
    ListsFacts(s.core, UnreliableHeartbeats);
    NoneCreatable(s.core.connected, s.core.lists.At(UnreliableHeartbeats));
  }

  lemma NoneCreatable(c: ConnectedPeers, xs: seq<Scheduled>)
    requires AllCreatable(c, xs)
    ensures xs != [] ==> c != map[]
  {
    if xs != [] { assert Creatable(c, xs[0]); }
  }

  lemma NobodyConnected(c: CN.ClientNode, serverAddress: SocketAddr)
    requires CN.ClientOk(c.state) && OneServer(c, serverAddress) && serverAddress in c.state.awaiting
    ensures c.state.core.connected == map[]
  {
    forall id ensures id !in c.state.core.connected {
      assert !CN.ConnectedAt(c.state, id, serverAddress);
    }
  }

  // ---------------------------------------------------------------- the client's answer

  // The client is connected, under the id the server knows it by, and has nothing to send yet.
  ghost predicate ClientConnected(y: System, a: SocketAddr, id: ConnectionId, phase: CN.Phase) {
    && a in y.clients && y.clients[a].phase == phase
    && y.clients[a].state.core.connected.Keys == {id} && y.clients[a].state.core.connected[id].sequenceTracker == 2
    && y.clients[a].state.core.connected[id].address == y.serverAddress
    && y.clients[a].state.core.lists.unreliableHeartbeats == []
  }

  ghost predicate Answering(y: System, a: SocketAddr, id: ConnectionId, phase: CN.Phase) {
    a in y.clients && ToAnswer(y.clients[a], y.serverAddress, id, phase)
  }

  ghost predicate ToAnswer(c: CN.ClientNode, serverAddress: SocketAddr, id: ConnectionId, phase: CN.Phase) {
    var core := c.state.core;
    && c.phase == phase && core.connected.Keys == {id} && core.connected[id].sequenceTracker == 2
    && core.connected[id].address == serverAddress
    && |core.lists.unreliableHeartbeats| == 1
    && core.lists.unreliableHeartbeats[0].message == Heartbeat(id) && core.lists.unreliableHeartbeats[0].address == serverAddress
  }

  lemma OnlyTracker(s: ClientService.ClientState, id: ConnectionId, serverAddress: SocketAddr)
    requires CN.ClientOk(s) && s.core.connected.Keys == {id} && s.core.connected[id].address == serverAddress
    requires s.core.connected[id].sequenceTracker < U32_BOUND
    ensures CountedClient(s, serverAddress)
  {
    assert CN.ConnectedAt(s, id, serverAddress);
    forall l | CN.IsLink(s, serverAddress, l) ensures l.sequenceTracker < U32_BOUND {
      CN.LinkUnique(s, serverAddress, l, s.core.connected[id].Link());
    }
  }

  lemma CanFinish(y: System, a: SocketAddr, id: ConnectionId, now: nat) returns (y': System)
    requires StateOk(y) && ClientConnected(y, a, id, CN.Phase.Received)
    ensures Steps(y, y') && StateOk(y') && ClientConnected(y', a, id, CN.Idle)
  {
    var c := y.clients[a];
    var c' := c.(state := c.state.(core := c.state.core.(kept := Expired(c.state.core.kept), api := [])), phase := CN.Idle);
    NodesOk(y, a);
    SameTrackers(c.state, c'.state, y.serverAddress);
    y' := WithClient(y, a, c');
    ClientCanAct(y, a, CN.Poll, c', now);
  }

  lemma CanBeat(y: System, a: SocketAddr, id: ConnectionId, now: nat) returns (y': System)
    requires StateOk(y) && ClientConnected(y, a, id, CN.Idle)
    ensures Steps(y, y') && StateOk(y') && Answering(y', a, id, CN.Idle)
  {
    var c := y.clients[a];
    NodesOk(y, a);
    var c' := ClientBeats(c, y.serverAddress, id, now, y.ttl);
    y' := WithClient(y, a, c');
    ClientCanAct(y, a, CN.SendHeartbeat(Unreliable, Single(id), [id]), c', now);
  }

  lemma ClientBeats(c: CN.ClientNode, serverAddress: SocketAddr, id: ConnectionId, now: nat, ttl: nat) returns (c': CN.ClientNode)
    requires c.phase == CN.Idle && c.state.core.connected.Keys == {id} && c.state.core.lists.unreliableHeartbeats == []
    requires c.state.core.connected[id].sequenceTracker == 2 && c.state.core.connected[id].address == serverAddress
    requires CountedClient(c.state, serverAddress)
    ensures CN.ClientStep(c, CN.SendHeartbeat(Unreliable, Single(id), [id]), c', now, ttl)
    ensures ToAnswer(c', serverAddress, id, CN.Idle) && CountedClient(c'.state, serverAddress)
  {
    Beats(c.state.core, id, now);
    c' := c.(state := c.state.(core := HeartbeatSpec(c.state.core, Unreliable, Single(id), [id], now).0));
    SameTrackers(c.state, c'.state, serverAddress);
  }

  lemma Beats(core: Core, id: ConnectionId, now: nat)
    requires core.connected.Keys == {id}
    ensures IterationOrder(core.connected, [id])
    ensures var core' := HeartbeatSpec(core, Unreliable, Single(id), [id], now).0;
      && core'.connected == core.connected
      && core'.lists.unreliableHeartbeats == core.lists.unreliableHeartbeats + [Scheduled(core.packetIdTracker, core.connected[id].address, now, Heartbeat(id))]
  {
    assert id in core.connected;
    assert [id][0] == id;
  }

  lemma CanSendBeat(y: System, a: SocketAddr, id: ConnectionId, now: nat) returns (y': System, w: Wire)
    requires StateOk(y) && Answering(y, a, id, CN.Sending)
    ensures Steps(y, y') && StateOk(y') && a in y'.clients && id in y'.clients[a].state.core.connected
    ensures y'.clients[a].phase == CN.Sending
    ensures w in y'.clients[a].sent && w.address == y.serverAddress == y'.serverAddress && w.message == Heartbeat(id)
  {
    var c := y.clients[a];
    NodesOk(y, a);
    ListsFacts(c.state.core, UnreliableHeartbeats);
    var (s', out) := ClientService.DrainListSpec(c.state, UnreliableHeartbeats, now, y.ttl);
    var c' := CN.Transmit(c, s', out);
    w := BeatIsSent(c.state.core, id, y.serverAddress, now, y.ttl);
    CN.DrainKeepsClient(c, CN.Drain(UnreliableHeartbeats), c', now, y.ttl);
    OnlyTracker(s', id, y.serverAddress);
    y' := WithClient(y, a, c');
    ClientCanAct(y, a, CN.Drain(UnreliableHeartbeats), c', now);
  }

  lemma BeatIsSent(core: Core, id: ConnectionId, serverAddress: SocketAddr, now: nat, ttl: nat) returns (w: Wire)
    requires AllCreatable(core.connected, core.lists.At(UnreliableHeartbeats)) && id in core.connected
    requires |core.lists.unreliableHeartbeats| == 1
    requires core.lists.unreliableHeartbeats[0].message == Heartbeat(id) && core.lists.unreliableHeartbeats[0].address == serverAddress
    ensures var (core', out) := DrainSpec(core, UnreliableHeartbeats, now, ttl);
      && w in Wires(out) && w.address == serverAddress && w.message == Heartbeat(id)
      && core'.connected.Keys == core.connected.Keys && core'.connected[id].address == core.connected[id].address
      && core'.connected[id].sequenceTracker <= core.connected[id].sequenceTracker + 1
  {
    var xs, out := core.lists.At(UnreliableHeartbeats), DrainSpec(core, UnreliableHeartbeats, now, ttl).1;
    assert xs == [xs[0]] && xs[0].message == Heartbeat(id);
    assert xs[..0] == [] && Advances(xs, id) <= 1;
    w := Wires(out)[0];
  }

  lemma CanHearBeat(y: System, a: SocketAddr, id: ConnectionId, w: Wire, now: nat) returns (y': System)
    requires StateOk(y) && a in y.clients && id in y.clients[a].state.core.connected
    requires w in y.clients[a].sent && w.address == y.serverAddress && w.message == Heartbeat(id)
    ensures Steps(y, y') && StateOk(y') && y'.clients == y.clients && id in y'.server.state.core.connected
    ensures y'.server.state.core.connected[id].address == a
  {
    var n, p := y.server, Delivery(w, a, now);
    assert ClientInv(y, a);
    NodesOk(y, a);
    var s' := ServerService.DriverReceive(n.state, p, now);
    BeatConnects(n.state, p, now);
    y' := WithServer(y, n.(state := s'));
    ServerCanHear(y, a, w, n.(state := s'), now);
    assert SN.Link(s', id).address == SN.Link(n.state, id).address;
  }

  lemma BeatConnects(s: ServerService.ServerState, p: Packet<Received>, now: nat)
    requires SN.ServerOk(s) && CountedServer(s) && p.message.Heartbeat? && SN.Known(s, p.message.connectionId)
    ensures !ServerService.ReceiveSpec(s, p, now).1.Panic?
    ensures var s' := ServerService.DriverReceive(s, p, now);
      && p.message.connectionId in s'.core.connected && CountedServer(s')
      && SN.Known(s', p.message.connectionId) && SN.Link(s', p.message.connectionId).address == SN.Link(s, p.message.connectionId).address
  {
    var s' := ServerService.DriverReceive(s, p, now);
    SR.HearCore(s, p);
    SR.HearsPartition(s, s', p);
  }

  // ---------------------------------------------------------------- the whole handshake

  // Whatever has happened, and whatever else goes on: a client between polls that has not asked can
  // still be connected, on both sides, as long as it is not banned, an id is left and no sequence is
  // used up.
  lemma EveryRunCanConnect(ys: seq<System>, a: SocketAddr) returns (zs: seq<System>, id: ConnectionId)
    requires IsRun(ys) && Ready(Last(ys), a)
    ensures IsRun(zs) && ys <= zs && a in Last(zs).clients && Last(zs).clients[a].phase == CN.Sending
    ensures id in Last(zs).clients[a].state.core.connected
    ensures id in Last(zs).server.state.core.connected && Last(zs).server.state.core.connected[id].address == a
  {
    zs := RunAsks(ys, a);
    zs := RunWakes(zs, a);
    var request, answer, beat;
    zs, request := RunSendsRequest(zs, a);
    zs, id := RunAdmits(zs, a, request);
    zs, answer := RunTells(zs, a, id);
    id := answer.message.connectionId;
    zs := RunConnects(zs, a, answer);
    zs := RunFinishes(zs, a, id);
    zs := RunBeats(zs, a, id);
    zs := RunWakesAgain(zs, a, id);
    zs, beat := RunSendsBeat(zs, a, id);
    zs := RunHearsBeat(zs, a, id, beat);
  }

  // At the start every client is ready, so there are runs in which clients are connected.
  lemma FreshIsReady(y: System, a: SocketAddr)
    requires Init(y) && a in y.clients
    ensures IsRun([y]) && Ready(Last([y]), a)
  {
  }

  lemma RunAsks(ys: seq<System>, a: SocketAddr) returns (zs: seq<System>)
    requires IsRun(ys) && Ready(Last(ys), a)
    ensures IsRun(zs) && ys <= zs && Asking(Last(zs), a, CN.Idle)
  {
    EveryState(ys, |ys| - 1);
    var y := CanAsk(Last(ys), a, 0);
    zs := RunOn(ys, y);
  }

  lemma RunWakes(ys: seq<System>, a: SocketAddr) returns (zs: seq<System>)
    requires IsRun(ys) && Asking(Last(ys), a, CN.Idle)
    ensures IsRun(zs) && ys <= zs && Asking(Last(zs), a, CN.Sending)
  {
    EveryState(ys, |ys| - 1);
    var y := CanWake(Last(ys), a, 0);
    zs := RunOn(ys, y);
  }

  lemma RunSendsRequest(ys: seq<System>, a: SocketAddr) returns (zs: seq<System>, w: Wire)
    requires IsRun(ys) && Asking(Last(ys), a, CN.Sending)
    ensures IsRun(zs) && ys <= zs && Asked(Last(zs), a, w)
  {
    EveryState(ys, |ys| - 1);
    var y;
    y, w := CanSendRequest(Last(ys), a, 0);
    zs := RunOn(ys, y);
  }

  lemma RunAdmits(ys: seq<System>, a: SocketAddr, request: Wire) returns (zs: seq<System>, id: ConnectionId)
    requires IsRun(ys) && Asked(Last(ys), a, request)
    ensures IsRun(zs) && ys <= zs && Admitted(Last(zs), a, id)
  {
    EveryState(ys, |ys| - 1);
    var y;
    y, id := CanAdmit(Last(ys), a, request, 0);
    zs := RunOn(ys, y);
  }

  lemma RunTells(ys: seq<System>, a: SocketAddr, id: ConnectionId) returns (zs: seq<System>, w: Wire)
    requires IsRun(ys) && Admitted(Last(ys), a, id)
    ensures IsRun(zs) && ys <= zs && Told(Last(zs), a, w)
  {
    EveryState(ys, |ys| - 1);
    var y;
    y, w := CanTell(Last(ys), a, id, 0);
    zs := RunOn(ys, y);
  }

  lemma RunConnects(ys: seq<System>, a: SocketAddr, answer: Wire) returns (zs: seq<System>)
    requires IsRun(ys) && Told(Last(ys), a, answer)
    ensures IsRun(zs) && ys <= zs && ClientConnected(Last(zs), a, answer.message.connectionId, CN.Phase.Received)
  {
    EveryState(ys, |ys| - 1);
    var y := CanHearAnswer(Last(ys), a, answer, 0);
    zs := RunOn(ys, y);
  }

  lemma RunFinishes(ys: seq<System>, a: SocketAddr, id: ConnectionId) returns (zs: seq<System>)
    requires IsRun(ys) && ClientConnected(Last(ys), a, id, CN.Phase.Received)
    ensures IsRun(zs) && ys <= zs && ClientConnected(Last(zs), a, id, CN.Idle)
  {
    EveryState(ys, |ys| - 1);
    var y := CanFinish(Last(ys), a, id, 0);
    zs := RunOn(ys, y);
  }

  lemma RunBeats(ys: seq<System>, a: SocketAddr, id: ConnectionId) returns (zs: seq<System>)
    requires IsRun(ys) && ClientConnected(Last(ys), a, id, CN.Idle)
    ensures IsRun(zs) && ys <= zs && Answering(Last(zs), a, id, CN.Idle)
  {
    EveryState(ys, |ys| - 1);
    var y := CanBeat(Last(ys), a, id, 0);
    zs := RunOn(ys, y);
  }

  lemma RunWakesAgain(ys: seq<System>, a: SocketAddr, id: ConnectionId) returns (zs: seq<System>)
    requires IsRun(ys) && Answering(Last(ys), a, id, CN.Idle)
    ensures IsRun(zs) && ys <= zs && Answering(Last(zs), a, id, CN.Sending)
  {
    EveryState(ys, |ys| - 1);
    var y := CanWake(Last(ys), a, 0);
    zs := RunOn(ys, y);
  }

  lemma RunSendsBeat(ys: seq<System>, a: SocketAddr, id: ConnectionId) returns (zs: seq<System>, w: Wire)
    requires IsRun(ys) && Answering(Last(ys), a, id, CN.Sending)
    ensures IsRun(zs) && ys <= zs && a in Last(zs).clients && id in Last(zs).clients[a].state.core.connected
    ensures Last(zs).clients[a].phase == CN.Sending
    ensures w in Last(zs).clients[a].sent && w.address == Last(zs).serverAddress && w.message == Heartbeat(id)
  {
    EveryState(ys, |ys| - 1);
    var y;
    y, w := CanSendBeat(Last(ys), a, id, 0);
    zs := RunOn(ys, y);
  }

  lemma RunHearsBeat(ys: seq<System>, a: SocketAddr, id: ConnectionId, w: Wire) returns (zs: seq<System>)
    requires IsRun(ys) && a in Last(ys).clients && id in Last(ys).clients[a].state.core.connected && Last(ys).clients[a].phase == CN.Sending
    requires w in Last(ys).clients[a].sent && w.address == Last(ys).serverAddress && w.message == Heartbeat(id)
    ensures IsRun(zs) && ys <= zs && a in Last(zs).clients && Last(zs).clients[a].phase == CN.Sending
    ensures id in Last(zs).clients[a].state.core.connected
    ensures id in Last(zs).server.state.core.connected && Last(zs).server.state.core.connected[id].address == a
  {
    EveryState(ys, |ys| - 1);
    var y := CanHearBeat(Last(ys), a, id, w, 0);
    zs := RunOn(ys, y);
  }
}
