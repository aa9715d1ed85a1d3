// A client that asks for a connection, sends its requests, and receives any packet at all:
// client/service.rs `connect`, `sent_connection_request` and `on_received`.
module ClientReceives {
  import opened Packets
  import opened Fragments
  import opened Reassembly
  import opened Peers
  import opened Scheduler
  import opened Reliability
  import opened Endpoint
  import opened LocalState
  import opened Discipline
  import opened Outbox
  import opened ClientService
  import opened ClientNodes

  // ---------------------------------------------------------------- asking for a connection

  ghost predicate Asks(s: ClientState, s': ClientState, a: SocketAddr, now: nat) {
    && !KnownPeer(s, a)
    && s' == s.(requesting := s.requesting[a := NewPeer(a, 0)],
                core := s.core.(lists := s.core.lists.Append(Handshakes, [Scheduled(s.core.packetIdTracker, a, now, ConnectionRequest)]),
                                packetIdTracker := s.core.packetIdTracker + 1))
  }

  lemma SameConnected(s: ClientState, s': ClientState)
    requires s'.core.connected == s.core.connected
    ensures forall id, a :: ConnectedAt(s', id, a) <==> ConnectedAt(s, id, a)
    ensures forall a :: a !in s.awaiting && a !in s'.awaiting ==> (Reached(s', a) <==> Reached(s, a))
  {
  }

  lemma AsksRequestsMatch(s: ClientState, s': ClientState, a: SocketAddr, now: nat)
    requires ClientOk(s) && Asks(s, s', a, now)
    ensures RequestsMatch(s')
  {
    var x := Scheduled(s.core.packetIdTracker, a, now, ConnectionRequest);
    var xs, xs' := s.core.lists.handshakes, s'.core.lists.handshakes;
    assert xs' == xs + [x];
    AppendedAddresses(xs, x);
    forall i | 0 <= i < |xs| ensures xs[i].address != a { assert xs[i] in xs; }
  }

  lemma AppendedAddresses(xs: seq<Scheduled>, x: Scheduled)
    ensures forall b :: b in Addresses(xs) || b == x.address ==> b in Addresses(xs + [x])
  {
    forall b | b in Addresses(xs) || b == x.address ensures b in Addresses(xs + [x]) {
      if b == x.address {
        assert (xs + [x])[|xs|].address == b;
      } else {
        var i :| 0 <= i < |xs| && xs[i].address == b;
        assert (xs + [x])[i].address == b;
      }
    }
  }

  lemma AsksClientOk(s: ClientState, s': ClientState, a: SocketAddr, now: nat)
    requires ClientOk(s) && Asks(s, s', a, now)
    ensures ClientOk(s')
  {
    var x := Scheduled(s.core.packetIdTracker, a, now, ConnectionRequest);
    forall l, y | y in s'.core.lists.At(l) ensures ItemOk(s.core.connected, l, y) {
      assert y in s.core.lists.At(l) || (l == Handshakes && y == x);
    }
    SameConnected(s, s');
    assert !Reached(s, a);
    AsksRequestsMatch(s, s', a, now);
  }

  lemma ConnectKeepsClient(n: ClientNode, a: ClientAction, n': ClientNode, now: nat, ttl: nat)
    requires ClientNodeOk(n) && ClientStep(n, a, n', now, ttl) && a.Connect?
    ensures ClientNodeOk(n') && n'.first == n.first && n'.state.core.kept == n.state.core.kept
    ensures n'.state == n.state || Asks(n.state, n'.state, a.address, now)
  {
    var s, s' := n.state, n'.state;
    if !KnownPeer(s, a.address) {
      var x := Scheduled(s.core.packetIdTracker, a.address, now, ConnectionRequest);
      AsksClientOk(s, s', a.address, now);
      assert Closed([x]) by { assert Continues([x], 0); }
      AppendKeepsPending(s.core, n.first, Handshakes, [x]);
      forall w | w in n.first ensures ClientNodes.SentBelow(s', w) { AskedBelow(s, s', a.address, now, w); }
    }
  }

  lemma AskedBelow(s: ClientState, s': ClientState, a: SocketAddr, now: nat, w: Wire)
    requires ClientOk(s) && Asks(s, s', a, now) && ClientNodes.SentBelow(s, w)
    ensures ClientNodes.SentBelow(s', w)
  {
    assert w.address != a;
    if w.address !in s.awaiting { var id :| ConnectedAt(s, id, w.address); assert ConnectedAt(s', id, w.address); }
    forall l | IsLink(s', w.address, l) ensures w.sequence < l.sequenceTracker {
      assert IsLink(s, w.address, l) by {
        if exists id :: ConnectedAt(s', id, w.address) && l == s'.core.connected[id].Link() {
          var id :| ConnectedAt(s', id, w.address) && l == s'.core.connected[id].Link();
          assert ConnectedAt(s, id, w.address);
        }
      }
    }
  }

  // ---------------------------------------------------------------- sending the requests

  ghost predicate RequestWire(s: ClientState, w: Wire) {
    && w.message.ConnectionRequest?
    && w.address in s.requesting
    && w.sequence == s.requesting[w.address].sequenceTracker
    && w.ack == s.requesting[w.address].remoteAck
  }

  // Every requesting peer's request goes out, and the peer awaits.
  ghost predicate SendsRequests(s: ClientState, s': ClientState, ws: seq<Wire>) {
    && s'.requesting == map[]
    && s'.awaiting.Keys == s.awaiting.Keys + s.requesting.Keys
    && (forall a :: a in s.requesting ==> s'.awaiting[a].Link() == s.requesting[a].Bump().Link())
    && (forall a :: a in s.awaiting ==> a in s'.awaiting && (a !in s.requesting ==> s'.awaiting[a] == s.awaiting[a]))
    && s'.core.connected == s.core.connected
    && (forall w :: w in ws ==> RequestWire(s, w))
  }

  lemma AllAddresses(s: ClientState)
    requires ClientOk(s)
    ensures Addresses(s.core.lists.handshakes) == s.requesting.Keys
  {
  }

  lemma RequestsOutcome(s: ClientState, now: nat, ttl: nat)
    requires ClientOk(s) && AllRequestable(s.requesting, s.core.lists.handshakes)
    ensures var (s', out) := DrainRequestsSpec(s, now, ttl); SendsRequests(s, s', Wires(out))
    ensures forall w :: w in Wires(DrainRequestsSpec(s, now, ttl).1) ==>
      exists x :: x in s.core.lists.At(Handshakes) && x.packetId == w.packetId
  {
    var (s', out) := DrainRequestsSpec(s, now, ttl);
    AllAddresses(s);
    assert s.requesting - s.requesting.Keys == map[];
    forall w | w in Wires(out) ensures RequestWire(s, w) && exists x :: x in s.core.lists.At(Handshakes) && x.packetId == w.packetId {
      var i :| 0 <= i < |out| && Wires(out)[i] == w;
      RequestWireAt(s, now, ttl, i);
    }
  }

  lemma RequestsDisciplined(s: ClientState, now: nat, ttl: nat)
    requires ClientOk(s) && AllRequestable(s.requesting, s.core.lists.handshakes)
    ensures Disciplined(Wires(DrainRequestsSpec(s, now, ttl).1))
  {
    var xs, ws := s.core.lists.handshakes, Wires(DrainRequestsSpec(s, now, ttl).1);
    assert forall i :: 0 <= i < |ws| ==> ws[i].address == xs[i].address;
    AllToDifferent(ws);
  }

  lemma AllToDifferent(ws: seq<Wire>)
    requires forall i, j :: 0 <= i < j < |ws| ==> ws[i].address != ws[j].address
    ensures Disciplined(ws)
  {
  }

  lemma RequestWireAt(s: ClientState, now: nat, ttl: nat, i: nat)
    requires AllRequestable(s.requesting, s.core.lists.handshakes) && i < |s.core.lists.handshakes|
    ensures var w := Wires(DrainRequestsSpec(s, now, ttl).1)[i];
      RequestWire(s, w) && exists x :: x in s.core.lists.At(Handshakes) && x.packetId == w.packetId
  {
  }

  lemma RequestsClientOk(s: ClientState, s': ClientState, ws: seq<Wire>, kept: seq<SentPacket>)
    requires ClientOk(s) && SendsRequests(s, s', ws) && s'.core.lists.handshakes == []
    requires forall a :: a in s.requesting ==> s'.awaiting[a].address == a
    requires CoreOk(s'.core)
    requires s'.core.kept.handshakes == s.core.kept.handshakes + kept
    requires forall p :: p in kept ==> p.message.ConnectionRequest? && p.delivery.address in s.requesting
    ensures ClientOk(s')
    ensures forall a :: Reached(s', a) <==> Reached(s, a) || a in s.requesting
  {
    forall a ensures Reached(s', a) <==> Reached(s, a) || a in s.requesting {
      if exists id :: ConnectedAt(s, id, a) { var id :| ConnectedAt(s, id, a); assert ConnectedAt(s', id, a); }
      if exists id :: ConnectedAt(s', id, a) { var id :| ConnectedAt(s', id, a); assert ConnectedAt(s, id, a); }
    }
    forall a | a in s'.awaiting ensures s'.awaiting[a].address == a && forall id :: !ConnectedAt(s', id, a) {
      forall id ensures !ConnectedAt(s', id, a) {
        assert ConnectedAt(s', id, a) <==> ConnectedAt(s, id, a);
        assert ConnectedAt(s, id, a) ==> Reached(s, a);
      }
    }
  }

  lemma RequestedBelow(s: ClientState, s': ClientState, ws: seq<Wire>, w: Wire)
    requires ClientOk(s) && ClientOk(s') && SendsRequests(s, s', ws)
    requires ClientNodes.SentBelow(s, w) || w in ws
    ensures ClientNodes.SentBelow(s', w)
  {
    if w in ws {
      forall l | IsLink(s', w.address, l) ensures w.sequence < l.sequenceTracker {
        LinkUnique(s', w.address, l, s'.awaiting[w.address].Link());
      }
    } else {
      assert w.address !in s.requesting;
      if w.address !in s.awaiting { var id :| ConnectedAt(s, id, w.address); assert ConnectedAt(s', id, w.address); }
      forall l | IsLink(s', w.address, l) ensures w.sequence < l.sequenceTracker {
        assert IsLink(s, w.address, l) by {
          if exists id :: ConnectedAt(s', id, w.address) && l == s'.core.connected[id].Link() {
            var id :| ConnectedAt(s', id, w.address) && l == s'.core.connected[id].Link();
            assert ConnectedAt(s, id, w.address);
          }
        }
      }
    }
  }

  lemma RequestsKeepClient(n: ClientNode, a: ClientAction, n': ClientNode, now: nat, ttl: nat)
    requires ClientNodeOk(n) && ClientStep(n, a, n', now, ttl) && a.DrainRequests?
    ensures ClientNodeOk(n')
    ensures exists ws :: n'.first == n.first + ws && SendsRequests(n.state, n'.state, ws)
    ensures |n'.state.core.kept.handshakes| == |n.state.core.kept.handshakes| + |n.state.core.lists.handshakes|
  {
    var s := n.state;
    var (s', out) := DrainRequestsSpec(s, now, ttl);
    var ws, sents := Wires(out), AllSent(out, now, ttl);
    RequestsOutcome(s, now, ttl);
    RequestsDisciplined(s, now, ttl);
    AllSentWires(out, now, ttl);
    AllAddresses(s);
    forall p | p in sents ensures p.message.ConnectionRequest? && p.delivery.address in s.requesting && KeptItemOk(s.core.connected, KeptHandshakes, p) {
      assert WireOfSent(p) in ws;
    }
    AppendKeepsKept(s.core.connected, s.core.kept, KeptHandshakes, sents);
    ClearKeepsLists(s.core.connected, s.core.lists, Handshakes);
    RequestsClientOk(s, s', ws, sents);
    RequestsRecord(n, s', ws);
    DrainKeepsPending(s.core, s'.core, n.first, Handshakes, ws);
    forall k, p | p in s'.core.kept.At(k) ensures WireOfSent(p) in n.first + ws {
      assert p in s.core.kept.At(k) || p in sents;
    }
    if !n.oversized { DisciplinedConcat(n.first, ws); }
  }

  lemma RequestsRecord(n: ClientNode, s': ClientState, ws: seq<Wire>)
    requires ClientNodeOk(n) && ClientOk(s') && SendsRequests(n.state, s', ws)
    ensures ClientNodes.AllSentBelow(s', n.first + ws)
    ensures forall v, w :: v in n.first && w in ws ==> v.address != w.address
  {
    forall w | w in n.first + ws ensures ClientNodes.SentBelow(s', w) {
      assert w in n.first ==> ClientNodes.SentBelow(n.state, w);
      RequestedBelow(n.state, s', ws, w);
    }
    forall v, w | v in n.first && w in ws ensures v.address != w.address {
      assert ClientNodes.SentBelow(n.state, v);
    }
  }

  // ---------------------------------------------------------------- receiving

  // The connected peer the packet names, or else the awaiting peer at its address, hears it and
  // is connected from then on.
  ghost predicate Hears(s: ClientState, s': ClientState, p: Packet<Packets.Received>) {
    && !p.message.ConnectionRequest?
    && var id, a := p.message.connectionId, p.delivery.address;
    && (id in s.core.connected || a in s.awaiting)
    && s'.requesting == s.requesting
    && s'.awaiting == (if id in s.core.connected then s.awaiting else s.awaiting - {a})
    && s'.core.connected.Keys == s.core.connected.Keys + {id}
    && (forall k :: k in s.core.connected && k != id ==> s'.core.connected[k].Link() == s.core.connected[k].Link())
    && s'.core.connected[id].Link() == (if id in s.core.connected then s.core.connected[id].Link() else s.awaiting[a].Link())
         .(remoteAck := p.sequence, localAck := p.ack)
  }

  lemma HearCore(s: ClientState, p: Packet<Packets.Received>)
    requires ClientOk(s) && !p.message.ConnectionRequest? && ClientService.Hear(s, p.message.connectionId, p).Some?
    ensures var s' := ClientService.Hear(s, p.message.connectionId, p).value;
      Hears(s, s', p) && CoreOk(s'.core) && s'.core == s.core.(connected := s'.core.connected)
  {
    var id, a := p.message.connectionId, p.delivery.address;
    var s' := ClientService.Hear(s, id, p).value;
    if id !in s.core.connected {
      forall j | j in s.core.connected ensures s.core.connected[j].address != a {
        assert !ConnectedAt(s, j, a);
      }
    }
    HearKeepsCore(s.core, id, s'.core.connected[id]);
  }

  lemma ReceiveOutcome(s: ClientState, p: Packet<Packets.Received>)
    requires ClientOk(s)
    ensures var s' := ClientService.DriverReceive(s, p);
      || s' == s.(core := s.core.(api := s'.core.api))
      || (Hears(s, s', p) && CoreOk(s'.core) && s'.core == s.core.(connected := s'.core.connected, api := s'.core.api))
  {
    if !p.message.ConnectionRequest? {
      var heard := ClientService.Hear(s, p.message.connectionId, p);
      if heard.Some? {
        HearCore(s, p);
        if p.message.Fragment? && p.message.connectionId in s.core.connected {
          FragmentKeepsCore(heard.value.core, p);
        }
      }
    }
  }

  lemma HearsFacts(s: ClientState, s': ClientState, p: Packet<Packets.Received>)
    requires ClientOk(s) && Hears(s, s', p) && CoreOk(s'.core)
    ensures forall id, a :: ConnectedAt(s', id, a) <==>
      (ConnectedAt(s, id, a) || (id == p.message.connectionId && id !in s.core.connected && a == p.delivery.address))
    ensures forall a :: Reached(s', a) <==> Reached(s, a)
    ensures Exclusive(s')
  {
    var i, b := p.message.connectionId, p.delivery.address;
    forall id, a ensures ConnectedAt(s', id, a) <==> ConnectedAt(s, id, a) || (id == i && id !in s.core.connected && a == b) {
      if id in s.core.connected && id != i { assert s'.core.connected[id].Link().address == s.core.connected[id].Link().address; }
      if id == i { assert s'.core.connected[i].Link().address == s'.core.connected[i].address; }
    }
    forall a ensures Reached(s', a) <==> Reached(s, a) {
      if exists id :: ConnectedAt(s, id, a) { var id :| ConnectedAt(s, id, a); assert ConnectedAt(s', id, a); }
      if exists id :: ConnectedAt(s', id, a) { var id :| ConnectedAt(s', id, a); }
      if a == b && a in s.awaiting && i !in s.core.connected { assert ConnectedAt(s', i, a); }
    }
  }

  lemma HeardBelow(s: ClientState, s': ClientState, p: Packet<Packets.Received>, w: Wire)
    requires ClientOk(s) && Hears(s, s', p) && CoreOk(s'.core) && ClientNodes.SentBelow(s, w)
    ensures ClientNodes.SentBelow(s', w)
  {
    HearsFacts(s, s', p);
    var i := p.message.connectionId;
    forall l | IsLink(s', w.address, l) ensures w.sequence < l.sequenceTracker {
      if exists id :: ConnectedAt(s', id, w.address) && l == s'.core.connected[id].Link() {
        var id :| ConnectedAt(s', id, w.address) && l == s'.core.connected[id].Link();
        if id in s.core.connected {
          assert IsLink(s, w.address, s.core.connected[id].Link());
        } else {
          assert IsLink(s, w.address, s.awaiting[w.address].Link());
        }
      } else {
        assert IsLink(s, w.address, l);
      }
    }
  }

  lemma ReceiveKeepsClient(n: ClientNode, a: ClientAction, n': ClientNode, now: nat, ttl: nat)
    requires ClientNodeOk(n) && ClientStep(n, a, n', now, ttl) && a.Receive?
    ensures ClientNodeOk(n') && n'.first == n.first && n'.state.core.kept == n.state.core.kept
    ensures n'.state.core.lists == n.state.core.lists
    ensures n'.state == n.state.(core := n.state.core.(api := n'.state.core.api)) || Hears(n.state, n'.state, a.packet)
  {
    var s, s', p := n.state, n'.state, a.packet;
    ReceiveOutcome(s, p);
    SameListsKeepPending(s.core, s'.core, n.first);
    if s' == s.(core := s.core.(api := s'.core.api)) {
      CoreStepSteady(s, s'.core);
      QuietKeepsClient(n, n');
    } else {
      HearsFacts(s, s', p);
      forall w | w in n.first ensures ClientNodes.SentBelow(s', w) { HeardBelow(s, s', p, w); }
    }
  }

  // All steps of a client, whatever it receives.
  lemma ClientStepKeeps(n: ClientNode, a: ClientAction, n': ClientNode, now: nat, ttl: nat)
    requires ClientNodeOk(n) && ClientStep(n, a, n', now, ttl)
    ensures ClientNodeOk(n')
  {
    match a {
      case Connect(_) => ConnectKeepsClient(n, a, n', now, ttl);
      case Schedule(_, _, _, _) => ScheduleKeepsClient(n, a, n', now, ttl);
      case SendHeartbeat(_, _, _) => ScheduleKeepsClient(n, a, n', now, ttl);
      case Resend => ResendKeepsClient(n, a, n', now, ttl);
      case Retry(_) => RetryKeepsClient(n, a, n', now, ttl);
      case DrainRequests => RequestsKeepClient(n, a, n', now, ttl);
      case Drain(_) => DrainKeepsClient(n, a, n', now, ttl);
      case Receive(_) => ReceiveKeepsClient(n, a, n', now, ttl);
      case Poll => PollKeepsClient(n, a, n', now, ttl);
    }
  }
}
