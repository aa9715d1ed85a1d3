// One client over time: every step its driver can take (antarc/src/client.rs) and what all of
// them keep, whatever packets arrive and however many servers the client connects to.
module ClientNodes {
  import opened Packets
  import opened Fragments
  import opened Reassembly
  import opened Peers
  import opened Scheduler
  import opened Reliability
  import opened Endpoint
  import opened LocalState
  import opened Discipline
  import opened Outbox
  import opened ClientService

  // Where the client's driver is: between two polls, sending, or past the one receive of a poll.
  datatype Phase = Idle | Sending | Received

  datatype ClientNode = ClientNode(state: ClientState, first: seq<Wire>, sent: set<Wire>, oversized: bool, phase: Phase)

  datatype ClientAction =
    | Connect(address: SocketAddr)
    | Schedule(reliability: ReliabilityType, sendTo: SendTo, payload: Bytes, order: seq<ConnectionId>)
    | SendHeartbeat(reliability: ReliabilityType, sendTo: SendTo, order: seq<ConnectionId>)
    | Resend
    | Retry(kept: KeptId)
    | DrainRequests
    | Drain(list: ListId)
    | Receive(packet: Packet<Packets.Received>)
    | Poll

  ghost function Transmit(n: ClientNode, s': ClientState, out: seq<Packet<ToSend>>): ClientNode {
    n.(state := s', first := n.first + Wires(out), sent := n.sent + set w | w in Wires(out))
  }

  ghost predicate ClientStep(n: ClientNode, a: ClientAction, n': ClientNode, now: nat, ttl: nat) {
    var s := n.state;
    match a
    case Connect(address) =>
      && n.phase == Idle
      && n' == n.(state := ConnectSpec(s, address, now).0)
    case Schedule(reliability, sendTo, payload, order) =>
      && n.phase == Idle
      && IterationOrder(s.core.connected, order)
      && var (core', r) := ScheduleSpec(s.core, reliability, sendTo, payload, order, now);
      n' == n.(state := s.(core := core'), oversized := n.oversized || (r.Ok? && |Chunks(payload)| > MAX_CHUNKS))
    case SendHeartbeat(reliability, sendTo, order) =>
      && n.phase == Idle
      && IterationOrder(s.core.connected, order)
      && n' == n.(state := s.(core := HeartbeatSpec(s.core, reliability, sendTo, order, now).0))
    case Resend =>
      && n.phase == Idle
      && Shaped(s.core.kept)
      && ResendSpec(s, now, ttl).Ok?
      && var (s', out) := ResendSpec(s, now, ttl).value;
      n' == n.(state := s', sent := n.sent + (set w | w in Wires(out)), phase := Sending)
    case Retry(k) =>
      && n.phase == Sending
      && Shaped(s.core.kept) && k != KeptHandshakes
      && var (s', out) := ClientService.RetrySpec(s, k, now, ttl);
      n' == n.(state := s', sent := n.sent + set w | w in Wires(out))
    case DrainRequests =>
      && n.phase == Sending
      && AllRequestable(s.requesting, s.core.lists.handshakes)
      && var (s', out) := DrainRequestsSpec(s, now, ttl);
      n' == Transmit(n, s', out)
    case Drain(l) =>
      && n.phase == Sending
      && l != Handshakes
      && AllCreatable(s.core.connected, s.core.lists.At(l))
      && var (s', out) := DrainListSpec(s, l, now, ttl);
      n' == Transmit(n, s', out)
    case Receive(p) =>
      && n.phase == Sending
      && n' == n.(state := ClientService.DriverReceive(s, p), phase := Phase.Received)
    case Poll =>
      && n.phase == Phase.Received
      && n' == n.(state := s.(core := s.core.(kept := Expired(s.core.kept), api := [])), phase := Idle)
  }

  const FRESH_CLIENT_NODE := ClientNode(FRESH_CLIENT, [], {}, false, Idle)

  // ---------------------------------------------------------------- what every step keeps

  ghost predicate ConnectedAt(s: ClientState, id: ConnectionId, a: SocketAddr) {
    id in s.core.connected && s.core.connected[id].address == a
  }

  // The peer's request has gone out.
  ghost predicate Reached(s: ClientState, a: SocketAddr) {
    a in s.awaiting || exists id :: ConnectedAt(s, id, a)
  }

  // An address is in at most one of the three maps.
  ghost predicate Exclusive(s: ClientState) {
    && (forall a :: a in s.requesting ==> s.requesting[a].address == a && !Reached(s, a))
    && (forall a :: a in s.awaiting ==> s.awaiting[a].address == a && forall id :: !ConnectedAt(s, id, a))
  }

  // Scheduled requests and requesting peers match one to one.
  ghost predicate RequestsMatch(s: ClientState) {
    && (forall x :: x in s.core.lists.handshakes ==> x.message.ConnectionRequest? && x.address in s.requesting)
    && (forall a :: a in s.requesting ==> a in Addresses(s.core.lists.handshakes))
    && DistinctAddresses(s.core.lists.handshakes)
  }

  ghost predicate ClientOk(s: ClientState) {
    && CoreOk(s.core)
    && Exclusive(s)
    && RequestsMatch(s)
    && (forall p :: p in s.core.kept.handshakes ==> p.message.ConnectionRequest? && Reached(s, p.delivery.address))
  }

  // The trackers for the connected, awaiting or requesting peer at an address.
  ghost predicate IsLink(s: ClientState, a: SocketAddr, l: Peer<()>) {
    || (a in s.requesting && l == s.requesting[a].Link())
    || (a in s.awaiting && l == s.awaiting[a].Link())
    || (exists id :: ConnectedAt(s, id, a) && l == s.core.connected[id].Link())
  }

  ghost predicate SentBelow(s: ClientState, w: Wire) {
    && Reached(s, w.address)
    && (w.message.ConnectionRequest? || (w.message.ForConnected() && ConnectedAt(s, w.message.connectionId, w.address)))
    && forall l :: IsLink(s, w.address, l) ==> w.sequence < l.sequenceTracker
  }

  ghost predicate AllSentBelow(s: ClientState, first: seq<Wire>) {
    forall w :: w in first ==> SentBelow(s, w)
  }

  ghost predicate SentIsFirst(sent: set<Wire>, first: seq<Wire>) {
    forall w :: w in sent <==> w in first
  }

  ghost predicate ClientNodeOk(n: ClientNode) {
    && ClientOk(n.state)
    && AllSentBelow(n.state, n.first)
    && PendingOk(n.state.core, n.first)
    && KeptSent(n.state.core.kept, n.first)
    && SentIsFirst(n.sent, n.first)
    && (!n.oversized ==> GroupedLists(n.state.core.lists) && Disciplined(n.first))
  }

  lemma FreshClientOk()
    ensures ClientNodeOk(FRESH_CLIENT_NODE)
  {
    forall l ensures NO_LISTS.At(l) == [] {}
    assert Closed([]) && Grouped([]);
  }

  // A peer that awaits or is connected has exactly one link.
  lemma LinkUnique(s: ClientState, a: SocketAddr, l: Peer<()>, m: Peer<()>)
    requires ClientOk(s) && IsLink(s, a, l) && IsLink(s, a, m)
    ensures l == m
  {
  }

  // First sends never fail, and nobody is promoted by sending: what the driver's loops need.
  lemma CreatingNeverFails(s: ClientState, l: ListId)
    requires ClientOk(s)
    ensures AllRequestable(s.requesting, s.core.lists.handshakes)
    ensures l != Handshakes ==> AllCreatable(s.core.connected, s.core.lists.At(l)) && NoneAwaiting(s.awaiting, s.core.lists.At(l))
  {
    ListsFacts(s.core, l);
    forall i | 0 <= i < |s.core.lists.handshakes| ensures Requestable(s.requesting, s.core.lists.handshakes[i]) {
      assert s.core.lists.handshakes[i] in s.core.lists.handshakes;
    }
    if l != Handshakes {
      forall i | 0 <= i < |s.core.lists.At(l)| ensures s.core.lists.At(l)[i].address !in s.awaiting {
        var x := s.core.lists.At(l)[i];
        assert x in s.core.lists.At(l);
        assert ItemOk(s.core.connected, l, x);
        assert ConnectedAt(s, x.message.connectionId, x.address);
      }
    }
  }

  // A request is never sent twice: whenever the retry comes up with one, marking it as sent panics.
  lemma ResendingAlwaysFails(s: ClientState, now: nat, ttl: nat)
    requires ClientOk(s) && Shaped(s.core.kept)
    ensures ResendSpec(s, now, ttl).Panic? <==>
      s.core.kept.handshakes != [] && s.core.kept.handshakes[|s.core.kept.handshakes| - 1].delivery.time + now > RETRY_THRESHOLD
    ensures ResendSpec(s, now, ttl).Ok? ==> ResendSpec(s, now, ttl).value.1 == []
  {
    var ps := s.core.kept.handshakes;
    if ps != [] {
      assert ps[|ps| - 1] in ps;
    }
  }

  // ---------------------------------------------------------------- steps that change no peer's state

  ghost predicate Emitted(s: ClientState, s': ClientState, w: Wire) {
    && w.message.ForConnected()
    && ConnectedAt(s, w.message.connectionId, w.address)
    && w.message.connectionId in s'.core.connected
    && w.ack == s.core.connected[w.message.connectionId].remoteAck
    && s.core.connected[w.message.connectionId].sequenceTracker <= w.sequence < s'.core.connected[w.message.connectionId].sequenceTracker
  }

  ghost predicate Steady(s: ClientState, s': ClientState) {
    && s'.requesting == s.requesting
    && s'.awaiting == s.awaiting
    && s'.core.connected.Keys == s.core.connected.Keys
    && forall id :: id in s.core.connected ==>
      && s'.core.connected[id].Link() == s.core.connected[id].Link().(sequenceTracker := s'.core.connected[id].sequenceTracker)
      && s.core.connected[id].sequenceTracker <= s'.core.connected[id].sequenceTracker
  }

  ghost predicate Emits(s: ClientState, s': ClientState, ws: seq<Wire>) {
    Steady(s, s') && forall w :: w in ws ==> Emitted(s, s', w)
  }

  lemma SteadyFacts(s: ClientState, s': ClientState)
    requires Exclusive(s) && Steady(s, s')
    ensures Exclusive(s')
    ensures forall id, a :: ConnectedAt(s', id, a) <==> ConnectedAt(s, id, a)
    ensures forall a :: Reached(s', a) <==> Reached(s, a)
  {
    forall id ensures id in s.core.connected ==> s'.core.connected[id].address == s.core.connected[id].address {
      if id in s.core.connected {
        assert s'.core.connected[id].Link().address == s.core.connected[id].Link().address;
      }
    }
    forall id, a ensures ConnectedAt(s', id, a) <==> ConnectedAt(s, id, a) {}
    forall a ensures Reached(s', a) <==> Reached(s, a) {
      if Reached(s, a) && a !in s.awaiting { var id :| ConnectedAt(s, id, a); assert ConnectedAt(s', id, a); }
      if Reached(s', a) && a !in s.awaiting { var id :| ConnectedAt(s', id, a); assert ConnectedAt(s, id, a); }
    }
  }

  // Links only rise, so what was sent stays below.
  lemma SteadyKeepsBelow(s: ClientState, s': ClientState, w: Wire)
    requires ClientOk(s) && Steady(s, s') && SentBelow(s, w)
    ensures SentBelow(s', w)
  {
    SteadyFacts(s, s');
    forall l | IsLink(s', w.address, l) ensures w.sequence < l.sequenceTracker {
      if a_connected :| ConnectedAt(s', a_connected, w.address) && l == s'.core.connected[a_connected].Link() {
        assert IsLink(s, w.address, s.core.connected[a_connected].Link());
      } else {
        assert IsLink(s, w.address, l);
      }
    }
  }

  lemma EmittedBelow(s: ClientState, s': ClientState, w: Wire)
    requires ClientOk(s) && PeersOk(s'.core.connected) && Steady(s, s') && Emitted(s, s', w)
    ensures SentBelow(s', w)
  {
    SteadyFacts(s, s');
    assert ConnectedAt(s', w.message.connectionId, w.address);
    forall l | IsLink(s', w.address, l) ensures w.sequence < l.sequenceTracker {
      assert w.address !in s.awaiting && w.address !in s.requesting;
    }
  }

  lemma EmitsKeepRecord(s: ClientState, s': ClientState, first: seq<Wire>, ws: seq<Wire>)
    requires ClientOk(s) && PeersOk(s'.core.connected) && AllSentBelow(s, first) && Emits(s, s', ws)
    ensures AllSentBelow(s', first + ws)
    ensures forall v, w :: v in first && w in ws && v.address == w.address ==> v.sequence < w.sequence
  {
    forall w | w in first + ws ensures SentBelow(s', w) {
      if w in first { SteadyKeepsBelow(s, s', w); } else { EmittedBelow(s, s', w); }
    }
    forall v, w | v in first && w in ws && v.address == w.address ensures v.sequence < w.sequence {
      assert SentBelow(s, v) && Emitted(s, s', w);
      assert IsLink(s, v.address, s.core.connected[w.message.connectionId].Link());
    }
  }

  // A step that sends nothing new and lets every peer be.
  lemma QuietKeepsClient(n: ClientNode, n': ClientNode)
    requires ClientNodeOk(n) && Steady(n.state, n'.state) && n'.first == n.first && (n.oversized ==> n'.oversized)
    requires CoreOk(n'.state.core) && PendingOk(n'.state.core, n.first) && KeptSent(n'.state.core.kept, n.first)
    requires SentIsFirst(n'.sent, n.first)
    requires n'.state.core.lists.handshakes == n.state.core.lists.handshakes
    requires forall p :: p in n'.state.core.kept.handshakes ==> p in n.state.core.kept.handshakes
    requires !n'.oversized ==> GroupedLists(n'.state.core.lists)
    ensures ClientNodeOk(n') && Emits(n.state, n'.state, [])
  {
    SteadyFacts(n.state, n'.state);
    EmitsKeepRecord(n.state, n'.state, n.first, []);
    assert n.first + [] == n.first;
  }

  lemma CoreStepSteady(s: ClientState, core': Core)
    requires core'.connected == s.core.connected
    ensures Steady(s, s.(core := core'))
  {
  }

  lemma ScheduleKeepsClient(n: ClientNode, a: ClientAction, n': ClientNode, now: nat, ttl: nat)
    requires ClientNodeOk(n) && ClientStep(n, a, n', now, ttl) && (a.Schedule? || a.SendHeartbeat?)
    ensures ClientNodeOk(n') && Emits(n.state, n'.state, []) && n'.first == n.first
    ensures n'.state.core.kept == n.state.core.kept
  {
    var core := n.state.core;
    if a.Schedule? {
      ScheduleKeepsCore(core, a.reliability, a.sendTo, a.payload, a.order, now);
      ScheduleKeepsPending(core, n.first, a.reliability, a.sendTo, a.payload, a.order, now);
      ScheduleFrame(core, a.reliability, a.sendTo, a.payload, a.order, now);
    } else {
      HeartbeatKeepsCore(core, a.reliability, a.sendTo, a.order, now);
      HeartbeatKeepsPending(core, n.first, a.reliability, a.sendTo, a.order, now);
      HeartbeatFrame(core, a.reliability, a.sendTo, a.order, now);
    }
    CoreStepSteady(n.state, n'.state.core);
    QuietKeepsClient(n, n');
  }

  lemma PollKeepsClient(n: ClientNode, a: ClientAction, n': ClientNode, now: nat, ttl: nat)
    requires ClientNodeOk(n) && ClientStep(n, a, n', now, ttl) && a.Poll?
    ensures ClientNodeOk(n') && Emits(n.state, n'.state, []) && n'.first == n.first
  {
    var core := n.state.core;
    ExpireKeepsKept(core.connected, core.kept);
    ExpireKeepsSent(core.kept, n.first);
    SameListsKeepPending(core, n'.state.core, n.first);
    CoreStepSteady(n.state, n'.state.core);
    QuietKeepsClient(n, n');
  }

  // ---------------------------------------------------------------- draining and retrying

  lemma DrainEmits(s: ClientState, l: ListId, now: nat, ttl: nat)
    requires ClientOk(s) && l != Handshakes && AllCreatable(s.core.connected, s.core.lists.At(l)) && Closed(s.core.lists.At(l))
    ensures var (core', out) := DrainSpec(s.core, l, now, ttl); Emits(s, s.(core := core'), Wires(out))
  {
    var xs := s.core.lists.At(l);
    var (core', out) := DrainSpec(s.core, l, now, ttl);
    DrainedWires(s.core.connected, l, xs, now);
    forall w | w in Wires(out) ensures Emitted(s, s.(core := core'), w) {
      assert DrainedWire(s.core.connected, core'.connected, xs, w);
    }
  }

  lemma DrainKeepsClient(n: ClientNode, a: ClientAction, n': ClientNode, now: nat, ttl: nat)
    requires ClientNodeOk(n) && ClientStep(n, a, n', now, ttl) && a.Drain?
    ensures ClientNodeOk(n')
    ensures exists ws :: n'.first == n.first + ws && Emits(n.state, n'.state, ws)
    ensures n'.state.core.kept.handshakes == n.state.core.kept.handshakes
  {
    var s, l := n.state, a.list;
    var (core', out) := DrainSpec(s.core, l, now, ttl);
    var ws := Wires(out);
    DrainEmits(s, l, now, ttl);
    DrainKeepsCore(s.core, l, now, ttl);
    SteadyFacts(s, n'.state);
    EmitsKeepRecord(s, n'.state, n.first, ws);
    DrainedWires(s.core.connected, l, s.core.lists.At(l), now);
    forall w | w in ws ensures exists x :: x in s.core.lists.At(l) && x.packetId == w.packetId {
      assert DrainedWire(s.core.connected, core'.connected, s.core.lists.At(l), w);
    }
    DrainKeepsPending(s.core, core', n.first, l, ws);
    DrainKeepsSent(s.core, l, n.first, now, ttl);
    assert core'.kept.At(KeptHandshakes) == s.core.kept.At(KeptHandshakes);
    assert core'.lists.At(Handshakes) == s.core.lists.At(Handshakes);
    if !n.oversized {
      DrainedDisciplined(s.core.connected, l, s.core.lists.At(l), now);
      DisciplinedConcat(n.first, ws);
    }
  }

  // A kept packet's peer is connected, so sending it again promotes nobody.
  lemma RetryKeepsClient(n: ClientNode, a: ClientAction, n': ClientNode, now: nat, ttl: nat)
    requires ClientNodeOk(n) && ClientStep(n, a, n', now, ttl) && a.Retry?
    ensures ClientNodeOk(n') && Emits(n.state, n'.state, []) && n'.first == n.first
    ensures n'.state.core.kept.handshakes == n.state.core.kept.handshakes
  {
    var s, k := n.state, a.kept;
    RetryOnCore(s, k, now, ttl);
    CoreRetryKeeps(s.core, n.first, k, now, ttl);
    QuietKeepsClient(n, n');
  }

  lemma RetryOnCore(s: ClientState, k: KeptId, now: nat, ttl: nat)
    requires ClientOk(s) && k != KeptHandshakes && Shaped(s.core.kept)
    ensures var (core', out) := CoreRetry(s.core, k, now, ttl);
      ClientService.RetrySpec(s, k, now, ttl) == (s.(core := core'), out)
  {
    RetryKeepsCore(s.core, k, now, ttl);
    var r := Retried(s.core.kept, k, now).1;
    if r.Some? {
      assert ConnectedAt(s, r.value.message.connectionId, r.value.delivery.address);
      assert r.value.delivery.address !in s.awaiting;
    }
  }

  lemma ResendKeepsClient(n: ClientNode, a: ClientAction, n': ClientNode, now: nat, ttl: nat)
    requires ClientNodeOk(n) && ClientStep(n, a, n', now, ttl) && a.Resend?
    ensures ClientNodeOk(n') && Emits(n.state, n'.state, []) && n'.first == n.first
    ensures |n'.state.core.kept.handshakes| <= |n.state.core.kept.handshakes|
  {
    var s := n.state;
    ResendingAlwaysFails(s, now, ttl);
    RetryRepeats(s.core.kept, n.first, KeptHandshakes, now, ttl);
    RetriedKeepsKept(s.core.connected, s.core.kept, KeptHandshakes, now);
    var ps := s.core.kept.handshakes;
    assert ps != [] ==> forall p :: p in ps[..|ps| - 1] ==> p in ps;
    SameListsKeepPending(s.core, n'.state.core, n.first);
    CoreStepSteady(s, n'.state.core);
    QuietKeepsClient(n, n');
  }
}
