// What holds in every state of every run of the system.
module SystemRuns {
  import opened Packets
  import opened Fragments
  import opened Reassembly
  import opened Peers
  import opened Scheduler
  import opened Endpoint
  import opened LocalState
  import opened Discipline
  import opened Outbox
  import opened Origins
  import opened OriginSteps
  import opened Reassemblers
  import opened AntarcSystem
  import ServerService
  import ClientService
  import SN = ServerNodes
  import SR = ServerReceives
  import CN = ClientNodes
  import CR = ClientReceives
  import ServerSteps
  import ClientSteps

  // ---------------------------------------------------------------- the coupling invariant

  lemma InitInv(y: System)
    requires Init(y)
    ensures Inv(y)
  {
    SN.FreshServerOk();
    CN.FreshClientOk();
  }

  lemma NextKeepsInv(y: System, a: Action, y': System, now: nat)
    requires Inv(y) && Next(y, a, y', now)
    ensures Inv(y')
  {
    match a {
      case ServerActs(act) => ServerSteps.ServerActsKeeps(y, act, y', now);
      case ServerHears(from, w) => ServerSteps.ServerHearsKeeps(y, from, w, y', now);
      case ClientActs(c, action) => ClientSteps.ClientActsKeeps(y, c, action, y', now);
      case ClientHears(to, w) => ClientSteps.ClientReceivesKeeps(y, to, w, y', now);
    }
  }

  // The step one of the nodes takes, seen from that node.
  function ServerActionOf(a: Action, now: nat): SN.ServerAction
    requires a.ServerActs? || a.ServerHears?
  {
    match a
    case ServerActs(act) => act
    case ServerHears(from, w) => SN.Receive(Delivery(w, from, now))
  }

  function ClientActionOf(y: System, a: Action, now: nat): CN.ClientAction
    requires a.ClientActs? || a.ClientHears?
  {
    match a
    case ClientActs(_, action) => action
    case ClientHears(_, w) => CN.Receive(Delivery(w, y.serverAddress, now))
  }

  function ClientOf(a: Action): SocketAddr
    requires a.ClientActs? || a.ClientHears?
  {
    match a
    case ClientActs(c, _) => c
    case ClientHears(to, _) => to
  }

  lemma ServerPart(y: System, a: Action, y': System, now: nat)
    requires Next(y, a, y', now) && (a.ServerActs? || a.ServerHears?)
    ensures y'.clients == y.clients && y'.serverAddress == y.serverAddress
    ensures SN.ServerStep(y.server, ServerActionOf(a, now), y'.server, now, y.ttl)
  {
  }

  lemma ClientPart(y: System, a: Action, y': System, now: nat)
    requires Next(y, a, y', now) && (a.ClientActs? || a.ClientHears?)
    ensures y'.server == y.server && y'.serverAddress == y.serverAddress
    ensures var c := ClientOf(a);
      && c in y.clients && c in y'.clients && y'.clients == y.clients[c := y'.clients[c]]
      && CN.ClientStep(y.clients[c], ClientActionOf(y, a, now), y'.clients[c], now, y.ttl)
  {
  }

  // ---------------------------------------------------------------- origins

  ghost predicate OriginsInv(y: System) {
    && OriginsOk(y.server.state.core.lists, y.server.first, y.server.oversized)
    && forall a :: a in y.clients ==> ClientOrigins(y.clients[a])
  }

  ghost predicate ClientOrigins(c: CN.ClientNode) {
    OriginsOk(c.state.core.lists, c.first, c.oversized)
  }

  lemma InitOrigins(y: System)
    requires Init(y)
    ensures OriginsInv(y)
  {
    forall id: nat ensures HasOrigin(NO_LISTS, [], false, id) {
      assert OriginIs(NO_LISTS, [], id, []) && Sized([], false) by {
        forall l ensures NO_LISTS.At(l) == [] {}
      }
    }
  }

  lemma ServerPartOrigins(y: System, act: SN.ServerAction, y': System, now: nat)
    requires SN.ServerNodeOk(y.server) && OriginsInv(y) && y'.clients == y.clients
    requires SN.ServerStep(y.server, act, y'.server, now, y.ttl)
    ensures OriginsInv(y')
  {
    ServerStepKeepsOrigins(y.server, act, y'.server, now, y.ttl);
  }

  lemma ClientPartOrigins(y: System, c: SocketAddr, action: CN.ClientAction, y': System, now: nat)
    requires OriginsInv(y) && c in y.clients && c in y'.clients && CN.ClientNodeOk(y.clients[c])
    requires y'.server == y.server && y'.clients == y.clients[c := y'.clients[c]]
    requires CN.ClientStep(y.clients[c], action, y'.clients[c], now, y.ttl)
    ensures OriginsInv(y')
  {
    assert ClientOrigins(y.clients[c]);
    ClientStepKeepsOrigins(y.clients[c], action, y'.clients[c], now, y.ttl);
    forall a | a in y'.clients ensures ClientOrigins(y'.clients[a]) {
      assert a != c ==> ClientOrigins(y.clients[a]);
    }
  }

  lemma NextKeepsOrigins(y: System, a: Action, y': System, now: nat)
    requires Inv(y) && OriginsInv(y) && Next(y, a, y', now)
    ensures OriginsInv(y')
  {
    if a.ServerActs? || a.ServerHears? {
      ServerPart(y, a, y', now);
      ServerPartOrigins(y, ServerActionOf(a, now), y', now);
    } else {
      ClientPart(y, a, y', now);
      assert ClientInv(y, ClientOf(a));
      ClientPartOrigins(y, ClientOf(a), ClientActionOf(y, a, now), y', now);
    }
  }

  // ---------------------------------------------------------------- reassemblers

  ghost predicate ServerStored(y: System, id: ConnectionId)
    requires id in y.server.state.core.connected
  {
    var a := y.server.state.core.connected[id].address;
    a in y.clients && Stored(y.clients[a].first, y.serverAddress, y.clients[a].oversized, ReassemblerOf(y.server.state.core.connected, id))
  }

  ghost predicate ClientStored(y: System, a: SocketAddr, id: ConnectionId)
    requires a in y.clients
  {
    Stored(y.server.first, a, y.server.oversized, ReassemblerOf(y.clients[a].state.core.connected, id))
  }

  ghost predicate StoredInv(y: System) {
    && (forall id :: id in y.server.state.core.connected ==> ServerStored(y, id))
    && (forall a, id :: a in y.clients && id in y.clients[a].state.core.connected ==> ClientStored(y, a, id))
  }

  // ---------------------------------------------------------------- growth

  // Nodes only add to what they sent, and peers once known stay known, at their address.
  ghost predicate ServerGrows(n: SN.ServerNode, n': SN.ServerNode) {
    && n.first <= n'.first && n.sent <= n'.sent
    && (n.oversized ==> n'.oversized)
    && n.state.core.packetIdTracker <= n'.state.core.packetIdTracker
    && (forall id :: SN.Known(n.state, id) ==> StillKnown(n, n', id))
    && (forall id :: id in n.state.core.connected ==> id in n'.state.core.connected)
  }

  ghost predicate StillKnown(n: SN.ServerNode, n': SN.ServerNode, id: ConnectionId)
    requires SN.Known(n.state, id)
  {
    && SN.Known(n'.state, id)
    && SN.Link(n'.state, id).address == SN.Link(n.state, id).address
    && SN.Link(n.state, id).sequenceTracker <= SN.Link(n'.state, id).sequenceTracker
  }

  ghost predicate ClientGrows(n: CN.ClientNode, n': CN.ClientNode) {
    && n.first <= n'.first && n.sent <= n'.sent
    && (n.oversized ==> n'.oversized)
    && n.state.core.packetIdTracker <= n'.state.core.packetIdTracker
    && (forall id :: id in n.state.core.connected ==> id in n'.state.core.connected)
  }

  ghost predicate Grows(y: System, y': System) {
    && y'.serverAddress == y.serverAddress && y'.clients.Keys == y.clients.Keys
    && ServerGrows(y.server, y'.server)
    && forall a :: a in y.clients ==> ClientGrows(y.clients[a], y'.clients[a])
  }

  lemma ServerStepGrows(n: SN.ServerNode, a: SN.ServerAction, n': SN.ServerNode, now: nat, ttl: nat)
    requires SN.ServerNodeOk(n) && AcceptsFresh(n) && SN.ServerStep(n, a, n', now, ttl)
    ensures ServerGrows(n, n')
  {
    var payload := ServerStepMoves(n, a, n', now, ttl);
    if a.Receive? {
      ServerReceiveKnows(n, a, n', now, ttl);
    } else {
      var ws := ServerSteps.ActEmits(n, a, n', now, ttl);
    }
  }

  lemma ServerReceiveKnows(n: SN.ServerNode, a: SN.ServerAction, n': SN.ServerNode, now: nat, ttl: nat)
    requires SN.ServerNodeOk(n) && SN.ServerStep(n, a, n', now, ttl) && a.Receive?
    ensures forall id :: SN.Known(n.state, id) ==> StillKnown(n, n', id)
    ensures forall id :: id in n.state.core.connected ==> id in n'.state.core.connected
  {
    SR.ReceiveKeepsServer(n, a, n', now, ttl);
    if a.packet.message.ConnectionRequest? && SR.Admits(n.state, n'.state, a.packet, now) {
      SR.AdmitPartition(n.state, n'.state, a.packet, now);
    } else if SR.Hears(n.state, n'.state, a.packet) {
      SR.HearsPartition(n.state, n'.state, a.packet);
    }
  }

  lemma ClientStepGrows(n: CN.ClientNode, a: CN.ClientAction, n': CN.ClientNode, now: nat, ttl: nat)
    requires CN.ClientNodeOk(n) && CN.ClientStep(n, a, n', now, ttl)
    ensures ClientGrows(n, n')
  {
    var payload := ClientStepMoves(n, a, n', now, ttl);
    match a {
      case Connect(_) => CR.ConnectKeepsClient(n, a, n', now, ttl);
      case Schedule(_, _, _, _) => CN.ScheduleKeepsClient(n, a, n', now, ttl);
      case SendHeartbeat(_, _, _) => CN.ScheduleKeepsClient(n, a, n', now, ttl);
      case Resend => CN.ResendKeepsClient(n, a, n', now, ttl);
      case Retry(_) => CN.RetryKeepsClient(n, a, n', now, ttl);
      case DrainRequests => CR.RequestsKeepClient(n, a, n', now, ttl);
      case Drain(_) => CN.DrainKeepsClient(n, a, n', now, ttl);
      case Receive(_) => CR.ReceiveKeepsClient(n, a, n', now, ttl);
      case Poll => CN.PollKeepsClient(n, a, n', now, ttl);
    }
  }

  lemma NextGrows(y: System, a: Action, y': System, now: nat)
    requires Inv(y) && Next(y, a, y', now)
    ensures Grows(y, y')
  {
    if a.ServerActs? || a.ServerHears? {
      ServerPart(y, a, y', now);
      ServerStepGrows(y.server, ServerActionOf(a, now), y'.server, now, y.ttl);
      ServerPartGrows(y, y');
    } else {
      var c := ClientOf(a);
      ClientPart(y, a, y', now);
      assert ClientInv(y, c);
      ClientStepGrows(y.clients[c], ClientActionOf(y, a, now), y'.clients[c], now, y.ttl);
      ClientPartGrows(y, c, y');
    }
  }

  lemma ServerPartGrows(y: System, y': System)
    requires y'.clients == y.clients && y'.serverAddress == y.serverAddress && ServerGrows(y.server, y'.server)
    ensures Grows(y, y')
  {
  }

  lemma ClientPartGrows(y: System, c: SocketAddr, y': System)
    requires y'.server == y.server && y'.serverAddress == y.serverAddress
    requires c in y.clients && c in y'.clients && y'.clients == y.clients[c := y'.clients[c]]
    requires ClientGrows(y.clients[c], y'.clients[c])
    ensures Grows(y, y')
  {
  }

  // ---------------------------------------------------------------- reassemblers, step by step

  // The server takes a step: its clients' reassemblers see more transmissions.
  lemma ClientsStillStored(y: System, y': System, a: SocketAddr, id: ConnectionId)
    requires Grows(y, y') && a in y.clients && ClientStored(y, a, id)
    requires Within(ReassemblerOf(y'.clients[a].state.core.connected, id), ReassemblerOf(y.clients[a].state.core.connected, id))
    ensures ClientStored(y', a, id)
  {
    StoredGrows(y.server.first, y'.server.first, a, y.server.oversized, y'.server.oversized,
      ReassemblerOf(y.clients[a].state.core.connected, id), ReassemblerOf(y'.clients[a].state.core.connected, id));
  }

  lemma ServerStillStored(y: System, y': System, id: ConnectionId)
    requires Inv(y) && StoredInv(y) && Grows(y, y') && id in y'.server.state.core.connected
    requires id in y.server.state.core.connected ==> y'.server.state.core.connected[id].address == y.server.state.core.connected[id].address
    requires id !in y.server.state.core.connected ==> y'.server.state.core.connected[id].address in y'.clients
    requires Within(ReassemblerOf(y'.server.state.core.connected, id), ReassemblerOf(y.server.state.core.connected, id))
    ensures ServerStored(y', id)
  {
    var a := y'.server.state.core.connected[id].address;
    if id in y.server.state.core.connected { assert ServerStored(y, id); }
    StoredGrows(y.clients[a].first, y'.clients[a].first, y.serverAddress, y.clients[a].oversized, y'.clients[a].oversized,
      ReassemblerOf(y.server.state.core.connected, id), ReassemblerOf(y'.server.state.core.connected, id));
  }

  lemma ConnectedAddress(y: System, y': System, id: ConnectionId)
    requires Inv(y) && Inv(y') && Grows(y, y') && id in y'.server.state.core.connected
    ensures y'.server.state.core.connected[id].address in y'.clients
    ensures id in y.server.state.core.connected ==> y'.server.state.core.connected[id].address == y.server.state.core.connected[id].address
  {
    assert SN.Known(y'.server.state, id) && SN.Link(y'.server.state, id).address == y'.server.state.core.connected[id].address;
    if id in y.server.state.core.connected {
      assert SN.Known(y.server.state, id) && SN.Link(y.server.state, id).address == y.server.state.core.connected[id].address;
    }
  }

  lemma ClientWasStored(y: System, a: SocketAddr, id: ConnectionId)
    requires StoredInv(y) && a in y.clients
    ensures ClientStored(y, a, id)
  {
  }

  // The clients' own reassemblers have not changed.
  lemma ClientsKeepStored(y: System, y': System)
    requires StoredInv(y) && Grows(y, y') && y'.clients == y.clients
    ensures forall a, id :: a in y'.clients && id in y'.clients[a].state.core.connected ==> ClientStored(y', a, id)
  {
    forall a, id | a in y'.clients && id in y'.clients[a].state.core.connected ensures ClientStored(y', a, id) {
      ClientWasStored(y, a, id);
      ClientsStillStored(y, y', a, id);
    }
  }

  lemma ServerKeepsStored(y: System, y': System)
    requires Inv(y) && Inv(y') && StoredInv(y) && Grows(y, y') && y'.server == y.server
    ensures forall id :: id in y'.server.state.core.connected ==> ServerStored(y', id)
  {
    forall id | id in y'.server.state.core.connected ensures ServerStored(y', id) {
      ConnectedAddress(y, y', id);
      ServerStillStored(y, y', id);
    }
  }

  lemma ServerHearsKeepsStored(y: System, from: SocketAddr, w: Wire, y': System, now: nat)
    requires Inv(y) && Inv(y') && OriginsInv(y) && StoredInv(y) && Grows(y, y') && Next(y, ServerHears(from, w), y', now)
    ensures StoredInv(y')
  {
    var p := Delivery(w, from, now);
    ServerPart(y, ServerHears(from, w), y', now);
    ServerTakesIn(y.server.state, p, now);
    ClientsKeepStored(y, y');
    forall id | id in y'.server.state.core.connected ensures ServerStored(y', id) {
      if p.message.Fragment? && p.message.connectionId == id {
        ServerStoresFragment(y, from, w, y', now);
      } else {
        ConnectedAddress(y, y', id);
        ServerStillStored(y, y', id);
      }
    }
  }

  lemma ServerStoresFragment(y: System, from: SocketAddr, w: Wire, y': System, now: nat)
    requires Inv(y) && OriginsInv(y) && StoredInv(y) && Grows(y, y') && Next(y, ServerHears(from, w), y', now)
    requires w.message.Fragment? && w.message.connectionId in y'.server.state.core.connected
    requires TakesIn(y.server.state.core.connected, y'.server.state.core.connected, Delivery(w, from, now))
    ensures ServerStored(y', w.message.connectionId)
  {
    var p, id := Delivery(w, from, now), w.message.connectionId;
    var c, c' := y.server.state.core.connected, y'.server.state.core.connected;
    assert ClientInv(y, from) && ClientOrigins(y.clients[from]);
    var client := y.clients[from];
    ServerSteps.SenderFacts(y.server, from, client, y.serverAddress, w);
    assert SN.Link(y'.server.state, id).address == c'[id].address == from;
    assert SentTo(client.first, y.serverAddress, p) by { assert Carries(w, y.serverAddress, p); }
    if id in c {
      assert SN.Link(y.server.state, id).address == c[id].address;
      assert ServerStored(y, id);
    }
    AbsorbKeepsStored(client.state.core.lists, client.first, y.serverAddress, client.oversized, ReassemblerOf(c, id), p);
  }

  lemma ClientHeard(y: System, to: SocketAddr, w: Wire, y': System, now: nat)
    requires Next(y, ClientHears(to, w), y', now)
    ensures y'.server == y.server && to in y.clients && to in y'.clients && y'.clients == y.clients[to := y'.clients[to]]
    ensures TakesIn(y.clients[to].state.core.connected, y'.clients[to].state.core.connected, Delivery(w, y.serverAddress, now))
  {
    ClientPart(y, ClientHears(to, w), y', now);
    ClientTakesIn(y.clients[to].state, Delivery(w, y.serverAddress, now));
  }

  lemma OtherClientsStored(y: System, c: SocketAddr, y': System, a: SocketAddr, id: ConnectionId)
    requires StoredInv(y) && Grows(y, y') && a in y.clients && a != c && c in y'.clients && y'.clients == y.clients[c := y'.clients[c]]
    ensures ClientStored(y', a, id)
  {
  }

  lemma ClientHearsKeepsStored(y: System, to: SocketAddr, w: Wire, y': System, now: nat)
    requires Inv(y) && Inv(y') && OriginsInv(y) && StoredInv(y) && Grows(y, y') && Next(y, ClientHears(to, w), y', now)
    ensures StoredInv(y')
  {
    ClientHeard(y, to, w, y', now);
    ServerKeepsStored(y, y');
    forall a, id | a in y'.clients && id in y'.clients[a].state.core.connected ensures ClientStored(y', a, id) {
      if a != to {
        OtherClientsStored(y, to, y', a, id);
      } else if w.message.Fragment? && w.message.connectionId == id {
        ClientStoresFragment(y, to, w, y', now);
      } else {
        ClientWasStored(y, a, id);
        ClientsStillStored(y, y', a, id);
      }
    }
  }

  lemma ClientStoresFragment(y: System, to: SocketAddr, w: Wire, y': System, now: nat)
    requires Inv(y) && OriginsInv(y) && StoredInv(y) && Next(y, ClientHears(to, w), y', now)
    requires w.message.Fragment? && w.message.connectionId in y'.clients[to].state.core.connected
    requires TakesIn(y.clients[to].state.core.connected, y'.clients[to].state.core.connected, Delivery(w, y.serverAddress, now))
    ensures ClientStored(y', to, w.message.connectionId)
  {
    var p, id := Delivery(w, y.serverAddress, now), w.message.connectionId;
    var c := y.clients[to].state.core.connected;
    assert ClientInv(y, to);
    ClientWasStored(y, to, id);
    assert SentTo(y.server.first, to, p) by { assert Carries(w, to, p); }
    AbsorbKeepsStored(y.server.state.core.lists, y.server.first, to, y.server.oversized, ReassemblerOf(c, id), p);
  }

  lemma ServerActsKeepsStored(y: System, act: SN.ServerAction, y': System, now: nat)
    requires Inv(y) && Inv(y') && StoredInv(y) && Grows(y, y') && Next(y, ServerActs(act), y', now)
    ensures StoredInv(y')
  {
    ServerPart(y, ServerActs(act), y', now);
    ServerShrinks(y.server, act, y'.server, now, y.ttl);
    ClientsKeepStored(y, y');
    forall id | id in y'.server.state.core.connected ensures ServerStored(y', id) {
      ConnectedAddress(y, y', id);
      ServerStillStored(y, y', id);
    }
  }

  lemma ClientActed(y: System, c: SocketAddr, action: CN.ClientAction, y': System, now: nat)
    requires Inv(y) && Next(y, ClientActs(c, action), y', now)
    ensures y'.server == y.server && c in y.clients && c in y'.clients && y'.clients == y.clients[c := y'.clients[c]]
    ensures Unchanged(y.clients[c].state.core.connected, y'.clients[c].state.core.connected)
  {
    ClientPart(y, ClientActs(c, action), y', now);
    assert ClientInv(y, c);
    ClientLeavesThem(y.clients[c], action, y'.clients[c], now, y.ttl);
  }

  lemma ClientActsKeepsStored(y: System, c: SocketAddr, action: CN.ClientAction, y': System, now: nat)
    requires Inv(y) && Inv(y') && StoredInv(y) && Grows(y, y') && Next(y, ClientActs(c, action), y', now)
    ensures StoredInv(y')
  {
    ClientActed(y, c, action, y', now);
    OneClientUnchanged(y, c, y');
  }

  lemma OneClientUnchanged(y: System, c: SocketAddr, y': System)
    requires Inv(y) && Inv(y') && StoredInv(y) && Grows(y, y')
    requires y'.server == y.server && c in y.clients && c in y'.clients && y'.clients == y.clients[c := y'.clients[c]]
    requires Unchanged(y.clients[c].state.core.connected, y'.clients[c].state.core.connected)
    ensures StoredInv(y')
  {
    ServerKeepsStored(y, y');
    forall a, id | a in y'.clients && id in y'.clients[a].state.core.connected ensures ClientStored(y', a, id) {
      if a != c {
        OtherClientsStored(y, c, y', a, id);
      } else {
        ClientWasStored(y, a, id);
        ClientsStillStored(y, y', a, id);
      }
    }
  }

  lemma NextKeepsStored(y: System, a: Action, y': System, now: nat)
    requires Inv(y) && Inv(y') && OriginsInv(y) && StoredInv(y) && Grows(y, y') && Next(y, a, y', now)
    ensures StoredInv(y')
  {
    match a {
      case ServerHears(from, w) => ServerHearsKeepsStored(y, from, w, y', now);
      case ClientHears(to, w) => ClientHearsKeepsStored(y, to, w, y', now);
      case ServerActs(act) => ServerActsKeepsStored(y, act, y', now);
      case ClientActs(c, action) => ClientActsKeepsStored(y, c, action, y', now);
    }
  }

  // ---------------------------------------------------------------- runs

  ghost predicate StateOk(y: System) {
    Inv(y) && OriginsInv(y) && StoredInv(y) && Counted(y)
  }

  lemma InitStateOk(y: System)
    requires Init(y)
    ensures StateOk(y)
  {
    InitInv(y);
    InitOrigins(y);
  }

  lemma NextStateOk(y: System, a: Action, y': System, now: nat)
    requires StateOk(y) && Next(y, a, y', now)
    ensures StateOk(y') && Grows(y, y')
  {
    NextKeepsInv(y, a, y', now);
    NextKeepsOrigins(y, a, y', now);
    NextGrows(y, a, y', now);
    NextKeepsStored(y, a, y', now);
  }

  // Every state of every run.
  lemma StepStateOk(y: System, y': System)
    requires StateOk(y) && Steps(y, y')
    ensures StateOk(y') && Grows(y, y')
  {
    var a, now :| Next(y, a, y', now);
    NextStateOk(y, a, y', now);
  }

  lemma {:induction false} EveryState(ys: seq<System>, i: nat)
    requires IsRun(ys) && i < |ys|
    ensures StateOk(ys[i])
    decreases i
  {
    if i == 0 {
      InitStateOk(ys[0]);
    } else {
      EveryState(ys, i - 1);
      assert StepAt(ys, i - 1);
      StepStateOk(ys[i - 1], ys[i]);
    }
  }

  lemma OneStep(ys: seq<System>, i: nat)
    requires IsRun(ys) && i + 1 < |ys|
    ensures Grows(ys[i], ys[i + 1])
  {
    EveryState(ys, i);
    assert StepAt(ys, i);
    StepStateOk(ys[i], ys[i + 1]);
  }

  lemma SameState(y: System)
    ensures Grows(y, y)
  {
  }

  lemma {:induction false} LaterStates(ys: seq<System>, i: nat, j: nat)
    requires IsRun(ys) && i <= j < |ys|
    ensures Grows(ys[i], ys[j])
    decreases j - i
  {
    if i < j {
      LaterStates(ys, i, j - 1);
      OneStep(ys, j - 1);
      GrowsOn(ys[i], ys[j - 1], ys[j]);
    } else {
      SameState(ys[i]);
    }
  }

  lemma GrowsOn(y: System, y': System, y'': System)
    requires Grows(y, y') && Grows(y', y'')
    ensures Grows(y, y'')
  {
    forall a | a in y.clients ensures ClientGrows(y.clients[a], y''.clients[a]) {
      assert ClientGrows(y.clients[a], y'.clients[a]) && ClientGrows(y'.clients[a], y''.clients[a]);
    }
  }
}
