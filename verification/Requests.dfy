// How often a client asks: client/service.rs `connect` and `sent_connection_request`, over whole runs.
module Requests {
  import opened Packets
  import opened Peers
  import opened Scheduler
  import opened Endpoint
  import opened Discipline
  import opened AntarcSystem
  import opened SystemRuns
  import opened ClientService
  import CN = ClientNodes
  import CR = ClientReceives
  import Guarantees
  import Hearing
  import Polls

  ghost predicate AskedOnce(first: seq<Wire>) {
    forall i, j :: 0 <= i < j < |first| && first[i].message.ConnectionRequest? && first[j].message.ConnectionRequest? ==>
      first[i].address != first[j].address
  }

  lemma NoMoreRequests(first: seq<Wire>, ws: seq<Wire>)
    requires AskedOnce(first) && forall w :: w in ws ==> w.message.ForConnected()
    ensures AskedOnce(first + ws)
  {
    assert forall i :: 0 <= i < |ws| ==> ws[i] in ws;
  }

  lemma NewRequests(first: seq<Wire>, ws: seq<Wire>)
    requires AskedOnce(first) && AskedOnce(ws) && forall v, w :: v in first && w in ws ==> v.address != w.address
    ensures AskedOnce(first + ws)
  {
    var all := first + ws;
    forall i, j | 0 <= i < j < |all| && all[i].message.ConnectionRequest? && all[j].message.ConnectionRequest?
      ensures all[i].address != all[j].address
    {
      if i < |first| <= j { assert all[i] in first && all[j] in ws; }
    }
  }

  // A client asks each server once, whatever it receives.
  lemma ClientStepAsksOnce(n: CN.ClientNode, a: CN.ClientAction, n': CN.ClientNode, now: nat, ttl: nat)
    requires CN.ClientNodeOk(n) && CN.ClientStep(n, a, n', now, ttl) && AskedOnce(n.first)
    ensures AskedOnce(n'.first)
  {
    match a {
      case DrainRequests => RequestsAskOnce(n, n', now, ttl);
      case Drain(_) =>
        CN.DrainKeepsClient(n, a, n', now, ttl);
        var ws :| n'.first == n.first + ws && CN.Emits(n.state, n'.state, ws);
        assert forall w :: w in ws ==> CN.Emitted(n.state, n'.state, w);
        NoMoreRequests(n.first, ws);
      case _ =>
    }
  }

  lemma RequestsAskOnce(n: CN.ClientNode, n': CN.ClientNode, now: nat, ttl: nat)
    requires CN.ClientNodeOk(n) && CN.ClientStep(n, CN.DrainRequests, n', now, ttl) && AskedOnce(n.first)
    ensures AskedOnce(n'.first)
  {
    var ws := Wires(DrainRequestsSpec(n.state, now, ttl).1);
    CR.RequestsOutcome(n.state, now, ttl);
    CR.RequestsKeepClient(n, CN.DrainRequests, n', now, ttl);
    CR.RequestsRecord(n, n'.state, ws);
    DifferentServers(n.state, now, ttl);
    NewRequests(n.first, ws);
  }

  lemma DifferentServers(s: ClientState, now: nat, ttl: nat)
    requires AllRequestable(s.requesting, s.core.lists.handshakes) && DistinctAddresses(s.core.lists.handshakes)
    ensures AskedOnce(Wires(DrainRequestsSpec(s, now, ttl).1))
  {
    var ws := Wires(DrainRequestsSpec(s, now, ttl).1);
    assert forall i :: 0 <= i < |ws| ==> ws[i].address == s.core.lists.handshakes[i].address;
  }

  lemma {:induction false} AskedAlways(ys: seq<System>, i: nat, a: SocketAddr)
    requires IsRun(ys) && i < |ys| && a in ys[i].clients
    ensures AskedOnce(ys[i].clients[a].first)
    decreases i
  {
    if i > 0 {
      LaterStates(ys, i - 1, i);
      AskedAlways(ys, i - 1, a);
      AskedNext(ys, i - 1, a);
    }
  }

  lemma AskedNext(ys: seq<System>, i: nat, a: SocketAddr)
    requires IsRun(ys) && i + 1 < |ys| && a in ys[i].clients && AskedOnce(ys[i].clients[a].first)
    ensures a in ys[i + 1].clients && AskedOnce(ys[i + 1].clients[a].first)
  {
    EveryState(ys, i);
    assert StepAt(ys, i) && ClientInv(ys[i], a);
    StepAsksOnce(ys[i], ys[i + 1], a);
  }

  lemma StepAsksOnce(y: System, y': System, c: SocketAddr)
    requires Steps(y, y') && c in y.clients && CN.ClientNodeOk(y.clients[c]) && AskedOnce(y.clients[c].first)
    ensures c in y'.clients && AskedOnce(y'.clients[c].first)
  {
    var a, now :| Next(y, a, y', now);
    if a.ServerActs? || a.ServerHears? {
      ServerPart(y, a, y', now);
    } else {
      ClientPart(y, a, y', now);
      if ClientOf(a) == c { ClientStepAsksOnce(y.clients[c], ClientActionOf(y, a, now), y'.clients[c], now, y.ttl); }
    }
  }

  // A client's record never holds a second connection request for its server, and between polls it
  // has none to send again: a request that is lost is lost for good.
  lemma OneRequestEver(ys: seq<System>, i: nat, a: SocketAddr, j: nat, k: nat, now: nat)
    requires IsRun(ys) && i < |ys| && a in ys[i].clients && j < |ys[i].clients[a].first| && k < |ys[i].clients[a].first|
    requires ys[i].clients[a].first[j].message.ConnectionRequest? && ys[i].clients[a].first[k].message.ConnectionRequest?
    ensures j == k
    ensures var c := ys[i].clients[a];
      Shaped(c.state.core.kept) && (c.phase == CN.Idle ==> ResendSpec(c.state, now, ys[i].ttl) == Ok((c.state, [])))
  {
    AskedAlways(ys, i, a);
    EveryState(ys, i);
    var first := ys[i].clients[a].first;
    assert first[j] in first && first[k] in first;
    Guarantees.ReachedIsServer(ys[i], a, first[j]);
    Guarantees.ReachedIsServer(ys[i], a, first[k]);
    Guarantees.ClientCreatesAll(ys, i, a, Handshakes, now);
  }

  // ---------------------------------------------------------------- connecting

  ghost predicate Knows(s: ClientState, b: SocketAddr) {
    b in s.requesting || CN.Reached(s, b)
  }

  lemma SteadyKnows(s: ClientState, s': ClientState, b: SocketAddr)
    requires CN.Steady(s, s')
    ensures Knows(s', b) <==> Knows(s, b)
  {
    forall id | id in s.core.connected ensures CN.ConnectedAt(s', id, b) <==> CN.ConnectedAt(s, id, b) {
      assert s'.core.connected[id].Link().address == s.core.connected[id].Link().address;
    }
  }

  lemma ReceivingKnows(s: ClientState, p: Packet<Received>, b: SocketAddr)
    requires CN.ClientOk(s)
    ensures Knows(DriverReceive(s, p), b) <==> Knows(s, b)
  {
    var s' := DriverReceive(s, p);
    Hearing.ClientTakesExactly(s, p);
    if Hearing.ReachesAwaiting(s, p) {
      var id, at := p.message.connectionId, p.delivery.address;
      assert s.awaiting[at].address == at;
      assert CN.ConnectedAt(s', id, at);
      forall k | k in s.core.connected ensures CN.ConnectedAt(s', k, b) <==> CN.ConnectedAt(s, k, b) {}
    } else {
      forall k | k in s.core.connected ensures CN.ConnectedAt(s', k, b) <==> CN.ConnectedAt(s, k, b) {}
    }
  }

  lemma AskingKnows(s: ClientState, now: nat, ttl: nat, b: SocketAddr)
    requires CN.ClientOk(s) && AllRequestable(s.requesting, s.core.lists.handshakes)
    ensures Knows(DrainRequestsSpec(s, now, ttl).0, b) <==> Knows(s, b)
  {
    var s' := DrainRequestsSpec(s, now, ttl).0;
    Polls.RequestsMove(s, now, ttl);
    assert b in s'.awaiting.Keys <==> b in s.awaiting.Keys || b in s.requesting.Keys;
    SameConnected(s, s', b);
  }

  lemma SameConnected(s: ClientState, s': ClientState, b: SocketAddr)
    requires s'.core.connected == s.core.connected
    ensures (exists id :: CN.ConnectedAt(s', id, b)) <==> (exists id :: CN.ConnectedAt(s, id, b))
  {
    forall id ensures CN.ConnectedAt(s', id, b) <==> CN.ConnectedAt(s, id, b) {}
  }

  lemma ConnectingKnows(s: ClientState, address: SocketAddr, now: nat, b: SocketAddr)
    ensures Knows(ConnectSpec(s, address, now).0, b) <==> Knows(s, b) || address == b
  {
    SameConnected(s, ConnectSpec(s, address, now).0, b);
    KnowsIs(s, address);
  }

  lemma KnowsIs(s: ClientState, b: SocketAddr)
    ensures Knows(s, b) <==> KnownPeer(s, b)
  {
    forall id | id in s.core.connected ensures CN.ConnectedAt(s, id, b) <==> s.core.connected[id].address == b {}
  }

  lemma SendingIsSteady(n: CN.ClientNode, a: CN.ClientAction, n': CN.ClientNode, now: nat, ttl: nat)
    requires CN.ClientNodeOk(n) && CN.ClientStep(n, a, n', now, ttl) && (a.Drain? || a.Retry? || a.Resend? || a.Poll?)
    ensures CN.Steady(n.state, n'.state)
  {
    match a {
      case Drain(_) => CN.DrainKeepsClient(n, a, n', now, ttl);
      case Retry(_) => CN.RetryKeepsClient(n, a, n', now, ttl);
      case Resend => CN.ResendKeepsClient(n, a, n', now, ttl);
      case Poll => CN.PollKeepsClient(n, a, n', now, ttl);
    }
  }

  // Connecting is the only step by which an address becomes known, and none is forgotten.
  lemma ClientStepKnows(n: CN.ClientNode, a: CN.ClientAction, n': CN.ClientNode, now: nat, ttl: nat, b: SocketAddr)
    requires CN.ClientNodeOk(n) && CN.ClientStep(n, a, n', now, ttl)
    ensures Knows(n'.state, b) <==> Knows(n.state, b) || a == CN.Connect(b)
  {
    match a {
      case Connect(_) => ConnectingKnows(n.state, a.address, now, b);
      case Receive(p) => ReceivingKnows(n.state, p, b);
      case DrainRequests => AskingKnows(n.state, now, ttl, b);
      case Schedule(_, _, _, _) => SteadyKnows(n.state, n'.state, b);
      case SendHeartbeat(_, _, _) => SteadyKnows(n.state, n'.state, b);
      case _ =>
        SendingIsSteady(n, a, n', now, ttl);
        SteadyKnows(n.state, n'.state, b);
    }
  }

  ghost predicate ConnectAt(ys: seq<System>, k: nat, a: SocketAddr, b: SocketAddr)
    requires k + 1 < |ys|
  {
    Connects(ys[k], a, b, ys[k + 1])
  }

  ghost predicate Connects(y: System, a: SocketAddr, b: SocketAddr, y': System) {
    exists now :: Next(y, ClientActs(a, CN.Connect(b)), y', now)
  }

  ghost predicate ConnectedBefore(ys: seq<System>, i: nat, a: SocketAddr, b: SocketAddr)
    requires i < |ys|
  {
    exists k: nat :: k < i && ConnectAt(ys, k, a, b)
  }

  lemma StepKnows(y: System, y': System, c: SocketAddr, b: SocketAddr)
    requires Steps(y, y') && c in y.clients && CN.ClientNodeOk(y.clients[c])
    ensures c in y'.clients && (Knows(y.clients[c].state, b) ==> Knows(y'.clients[c].state, b))
    ensures Knows(y'.clients[c].state, b) ==> Knows(y.clients[c].state, b) || Connects(y, c, b, y')
  {
    var a, now :| Next(y, a, y', now);
    if a.ServerActs? || a.ServerHears? {
      ServerPart(y, a, y', now);
    } else {
      ClientPart(y, a, y', now);
      if ClientOf(a) == c { ClientStepKnows(y.clients[c], ClientActionOf(y, a, now), y'.clients[c], now, y.ttl, b); }
    }
  }

  lemma ConnectKnows(y: System, y': System, c: SocketAddr, b: SocketAddr, now: nat)
    requires Next(y, ClientActs(c, CN.Connect(b)), y', now) && CN.ClientNodeOk(y.clients[c])
    ensures Knows(y'.clients[c].state, b)
  {
    ClientPart(y, ClientActs(c, CN.Connect(b)), y', now);
    ClientStepKnows(y.clients[c], CN.Connect(b), y'.clients[c], now, y.ttl, b);
  }

  lemma {:induction false} KnowsWhatItAsked(ys: seq<System>, i: nat, a: SocketAddr, b: SocketAddr)
    requires IsRun(ys) && i < |ys| && a in ys[i].clients
    ensures Knows(ys[i].clients[a].state, b) <==> ConnectedBefore(ys, i, a, b)
    decreases i
  {
    if i > 0 {
      LaterStates(ys, i - 1, i);
      KnowsWhatItAsked(ys, i - 1, a, b);
      KnowsNext(ys, i - 1, a, b);
    }
  }

  lemma KnowsNext(ys: seq<System>, i: nat, a: SocketAddr, b: SocketAddr)
    requires IsRun(ys) && i + 1 < |ys| && a in ys[i].clients && a in ys[i + 1].clients
    requires Knows(ys[i].clients[a].state, b) <==> ConnectedBefore(ys, i, a, b)
    ensures Knows(ys[i + 1].clients[a].state, b) <==> ConnectedBefore(ys, i + 1, a, b)
  {
    EveryState(ys, i);
    assert StepAt(ys, i) && ClientInv(ys[i], a);
    StepKnows(ys[i], ys[i + 1], a, b);
    if ConnectAt(ys, i, a, b) {
      var now :| Next(ys[i], ClientActs(a, CN.Connect(b)), ys[i + 1], now);
      ConnectKnows(ys[i], ys[i + 1], a, b, now);
    }
  }

  // A client's call to connect succeeds exactly when it is its first for that address: then the peer
  // is requesting and its one request is scheduled. Every later call is refused and changes nothing,
  // whatever came of the first.
  lemma ConnectsOnce(ys: seq<System>, i: nat, a: SocketAddr, b: SocketAddr, now: nat)
    requires IsRun(ys) && i < |ys| && a in ys[i].clients
    ensures var s := ys[i].clients[a].state; var (s', r) := ConnectSpec(s, b, now);
      if ConnectedBefore(ys, i, a, b) then s' == s && r == Err(AlreadyConnectingToPeer(b))
      else
        && r == Ok(()) && s'.requesting == s.requesting[b := Peer(1, 0, 0, b, Requesting(0))] && s'.awaiting == s.awaiting
        && s'.core == s.core.(packetIdTracker := s.core.packetIdTracker + 1, lists := s.core.lists.(
             handshakes := s.core.lists.handshakes + [Scheduled(s.core.packetIdTracker, b, now, ConnectionRequest)]))
  {
    KnowsWhatItAsked(ys, i, a, b);
    var s := ys[i].clients[a].state;
    KnowsIs(s, b);
  }
}
