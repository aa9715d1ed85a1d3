// A server that receives a packet, any packet: server/service.rs `on_received`.
module ServerReceives {
  import opened Packets
  import opened Fragments
  import opened Reassembly
  import opened Peers
  import opened Scheduler
  import opened Reliability
  import opened Endpoint
  import opened LocalState
  import opened Discipline
  import opened Outbox
  import opened ServerService
  import opened ServerNodes

  // A peer that asked for a connection gets the next id, a fresh link and a scheduled answer.
  ghost predicate Admits(s: ServerState, s': ServerState, p: Packet<Received>, now: nat) {
    var id := s.connectionIdTracker;
    && !Known(s, id)
    && !InAnotherState(s, p.delivery.address)
    && s'.requesting == map[]
    && s'.awaiting.Keys == s.awaiting.Keys + {id}
    && s'.core.connected == s.core.connected
    && (forall k :: k in s.awaiting ==> s'.awaiting[k] == s.awaiting[k])
    && s'.awaiting[id].Link() == Peer(1, p.sequence, 0, p.delivery.address, ())
    && s'.connectionIdTracker as int == id as int + 1
    && s'.core.lists == s.core.lists.Append(Handshakes,
         [Scheduled(s.core.packetIdTracker, p.delivery.address, now, ConnectionAccepted(id))])
  }

  // The peer the packet names hears it and is connected from then on.
  ghost predicate Hears(s: ServerState, s': ServerState, p: Packet<Received>) {
    && p.message.ForConnected()
    && var id := p.message.connectionId;
    && Known(s, id)
    && s'.requesting == s.requesting
    && s'.connectionIdTracker == s.connectionIdTracker
    && s'.awaiting == s.awaiting - {id}
    && s'.core.connected.Keys == s.core.connected.Keys + {id}
    && (forall k :: Known(s, k) && k != id ==> Link(s', k) == Link(s, k))
    && Link(s', id) == Link(s, id).(remoteAck := p.sequence, localAck := p.ack)
    && s'.core.lists == s.core.lists
  }

  lemma RequestOutcome(s: ServerState, p: Packet<Received>, now: nat)
    requires ServerOk(s) && p.message.ConnectionRequest? && !ServerService.ReceiveSpec(s, p, now).1.Panic?
    ensures var s' := ServerService.DriverReceive(s, p, now);
      || (exists e :: s' == s.(core := s.core.(api := s.core.api + [e])))
      || (Admits(s, s', p, now) && s'.core == s.core.(packetIdTracker := s.core.packetIdTracker + 1, lists := s'.core.lists))
  {
    var s' := ServerService.DriverReceive(s, p, now);
    var id := s.connectionIdTracker;
    assert !Known(s, id);
    if ServerService.ReceiveSpec(s, p, now).1.Ok? {
      var s1 := s.(requesting := s.requesting[id := NewPeer(p.delivery.address, p.sequence)], connectionIdTracker := id + 1);
      assert EnterRequesting(s, p.delivery.address, p.sequence) == Some((s1, id));
      assert s1.requesting - {id} == map[];
    }
  }

  lemma AdmitKeepsServer(n: ServerNode, n': ServerNode, p: Packet<Received>, now: nat)
    requires ServerNodeOk(n) && Admits(n.state, n'.state, p, now)
    requires n' == n.(state := n'.state)
    requires n'.state.core == n.state.core.(packetIdTracker := n.state.core.packetIdTracker + 1, lists := n'.state.core.lists)
    ensures ServerNodeOk(n')
  {
    var s, s', id := n.state, n'.state, n.state.connectionIdTracker;
    var x := Scheduled(s.core.packetIdTracker, p.delivery.address, now, ConnectionAccepted(id));
    AdmitPartition(s, s', p, now);
    assert Closed([x]) by { assert Continues([x], 0); }
    AppendKeepsPending(s.core, n.first, Handshakes, [x]);
    AdmitHandshakes(s, s', p, now);
    forall w | w in n.first ensures SentBelow(s', w) { assert SentBelow(s, w); }
    forall l, y | y in s'.core.lists.At(l) ensures ItemOk(s.core.connected, l, y) {
      assert y in s.core.lists.At(l) || (l == Handshakes && y == x);
    }
  }

  lemma AdmitHandshakes(s: ServerState, s': ServerState, p: Packet<Received>, now: nat)
    requires ServerOk(s) && Admits(s, s', p, now)
    ensures forall y :: y in s'.core.lists.handshakes ==> AcceptOk(s', y)
    ensures DistinctIds(s'.core.lists.handshakes)
  {
    var xs, id := s.core.lists.handshakes, s.connectionIdTracker;
    AdmitPartition(s, s', p, now);
    forall y | y in xs ensures AcceptOk(s', y) && y.message.connectionId != id {
      assert AcceptOk(s, y);
    }
    forall i | 0 <= i < |xs| ensures xs[i].message.ConnectionAccepted? && xs[i].message.connectionId != id {
      assert xs[i] in xs;
    }
  }

  lemma AdmitPartition(s: ServerState, s': ServerState, p: Packet<Received>, now: nat)
    requires Partition(s) && Admits(s, s', p, now)
    ensures Partition(s')
    ensures forall k :: Known(s, k) ==> Known(s', k) && Link(s', k) == Link(s, k)
    ensures forall k :: Known(s', k) <==> Known(s, k) || k == s.connectionIdTracker
  {
    forall k ensures Known(s', k) <==> Known(s, k) || k == s.connectionIdTracker {}
    forall i, j | Known(s', i) && Known(s', j) && Link(s', i).address == Link(s', j).address ensures i == j {
      assert Known(s, i) || i == s.connectionIdTracker;
      assert Known(s, j) || j == s.connectionIdTracker;
    }
  }

  lemma HearsPartition(s: ServerState, s': ServerState, p: Packet<Received>)
    requires Partition(s) && Hears(s, s', p)
    ensures Partition(s')
    ensures forall k :: Known(s', k) <==> Known(s, k)
    ensures forall k :: Known(s, k) ==> Link(s', k).address == Link(s, k).address
    ensures forall k :: Known(s, k) ==> Link(s', k).sequenceTracker == Link(s, k).sequenceTracker
  {
    forall k ensures Known(s', k) <==> Known(s, k) {}
    forall i, j | Known(s', i) && Known(s', j) && Link(s', i).address == Link(s', j).address ensures i == j {
      assert Known(s, i) && Known(s, j);
    }
  }

  // What hearing does to the connected peers keeps their facts.
  lemma HearCore(s: ServerState, p: Packet<Received>)
    requires ServerOk(s) && p.message.ForConnected() && ServerService.Hear(s, p.message.connectionId, p).Some?
    ensures var s' := ServerService.Hear(s, p.message.connectionId, p).value;
      && Hears(s, s', p)
      && CoreOk(s'.core)
      && s'.core == s.core.(connected := s'.core.connected)
  {
    var id := p.message.connectionId;
    var s' := ServerService.Hear(s, id, p).value;
    if id !in s.core.connected {
      forall j | j in s.core.connected ensures s.core.connected[j].address != s'.core.connected[id].address {
        assert Known(s, j) && Known(s, id);
        assert Link(s, j).address == s.core.connected[j].address;
      }
    } else {
      assert id !in s.awaiting;
      assert s.awaiting - {id} == s.awaiting;
    }
    HearKeepsCore(s.core, id, s'.core.connected[id]);
  }

  lemma HearKeepsServer(n: ServerNode, n': ServerNode, p: Packet<Received>)
    requires ServerNodeOk(n) && Hears(n.state, n'.state, p)
    requires n' == n.(state := n'.state)
    requires CoreOk(n'.state.core)
    requires n'.state.core == n.state.core.(connected := n'.state.core.connected, api := n'.state.core.api)
    ensures ServerNodeOk(n')
  {
    var s, s' := n.state, n'.state;
    HearsPartition(s, s', p);
    SameListsKeepPending(s.core, s'.core, n.first);
    forall x | x in s'.core.lists.handshakes ensures AcceptOk(s', x) { assert AcceptOk(s, x); }
    forall w | w in n.first ensures SentBelow(s', w) { assert SentBelow(s, w); }
  }

  // Every packet leaves the peers alone, admits its sender, or is heard by the peer it names.
  ghost predicate Outcomes(s: ServerState, s': ServerState, p: Packet<Received>, now: nat) {
    || (Steady(s, s') && s'.core.lists == s.core.lists && s'.core.connected == s.core.connected && s'.awaiting == s.awaiting)
    || (p.message.ConnectionRequest? && Admits(s, s', p, now))
    || Hears(s, s', p)
  }

  lemma ConnectedReceive(s: ServerState, p: Packet<Received>, now: nat)
    requires ServerOk(s) && p.message.ForConnected()
    ensures var s' := ServerService.DriverReceive(s, p, now);
      || (exists api :: s' == s.(core := s.core.(api := api)))
      || (Hears(s, s', p) && CoreOk(s'.core) && s'.core == s.core.(connected := s'.core.connected, api := s'.core.api))
  {
    var s' := ServerService.DriverReceive(s, p, now);
    if ServerService.Hear(s, p.message.connectionId, p).Some? {
      HeardReceive(s, p, now);
    } else {
      assert s' == s.(core := s.core.(api := s'.core.api));
    }
  }

  lemma HeardReceive(s: ServerState, p: Packet<Received>, now: nat)
    requires ServerOk(s) && p.message.ForConnected() && ServerService.Hear(s, p.message.connectionId, p).Some?
    ensures var s' := ServerService.DriverReceive(s, p, now);
      Hears(s, s', p) && CoreOk(s'.core) && s'.core == s.core.(connected := s'.core.connected, api := s'.core.api)
  {
    HearCore(s, p);
    if p.message.Fragment? {
      FragmentKeepsCore(ServerService.Hear(s, p.message.connectionId, p).value.core, p);
    }
  }

  lemma ReceiveKeepsServer(n: ServerNode, a: ServerAction, n': ServerNode, now: nat, ttl: nat)
    requires ServerNodeOk(n) && ServerStep(n, a, n', now, ttl) && a.Receive?
    ensures ServerNodeOk(n') && n'.first == n.first
    ensures Outcomes(n.state, n'.state, a.packet, now)
  {
    var s, s', p := n.state, n'.state, a.packet;
    if p.message.ForConnected() {
      ConnectedReceive(s, p, now);
      if Hears(s, s', p) && CoreOk(s'.core) && s'.core == s.core.(connected := s'.core.connected, api := s'.core.api) {
        HearKeepsServer(n, n', p);
      } else {
        ApiOnly(n, n');
      }
    } else if p.message.ConnectionRequest? {
      RequestOutcome(s, p, now);
      if s' != s.(core := s.core.(api := s'.core.api)) {
        AdmitKeepsServer(n, n', p, now);
      } else {
        ApiOnly(n, n');
      }
    } else {
      ApiOnly(n, n');
    }
  }

  lemma ApiOnly(n: ServerNode, n': ServerNode)
    requires ServerNodeOk(n) && n' == n.(state := n.state.(core := n.state.core.(api := n'.state.core.api)))
    ensures ServerNodeOk(n') && Steady(n.state, n'.state)
  {
    SameListsKeepPending(n.state.core, n'.state.core, n.first);
    QuietKeepsServer(n, n');
  }

  // All steps of a server, whatever it receives.
  lemma ServerStepKeeps(n: ServerNode, a: ServerAction, n': ServerNode, now: nat, ttl: nat)
    requires ServerNodeOk(n) && ServerStep(n, a, n', now, ttl)
    ensures ServerNodeOk(n')
  {
    match a {
      case Schedule(_, _, _, _) => ScheduleKeepsServer(n, a, n', now, ttl);
      case SendHeartbeat(_, _, _) => HeartbeatKeepsServer(n, a, n', now, ttl);
      case Drain(_) => DrainKeepsServer(n, a, n', now, ttl);
      case DrainAccepted => AcceptedKeepsServer(n, a, n', now, ttl);
      case Retry(_) => RetryKeepsServer(n, a, n', now, ttl);
      case Receive(_) => ReceiveKeepsServer(n, a, n', now, ttl);
      case Poll(_) => PollKeepsServer(n, a, n', now, ttl);
    }
  }
}
