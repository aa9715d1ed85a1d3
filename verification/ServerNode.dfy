// One server over time: every step its driver can take (antarc/src/server.rs) and what all of
// them keep, whatever packets arrive.
module ServerNodes {
  import opened Packets
  import opened Fragments
  import opened Reassembly
  import opened Peers
  import opened Scheduler
  import opened Reliability
  import opened Endpoint
  import opened LocalState
  import opened Discipline
  import opened Outbox
  import opened ServerService

  // The server, its first transmissions in order, all its transmissions, and whether a payload
  // too large for the byte-sized fragment index was ever scheduled, with success.
  datatype ServerNode = ServerNode(state: ServerState, first: seq<Wire>, sent: set<Wire>, oversized: bool)

  datatype ServerAction =
    | Schedule(reliability: ReliabilityType, sendTo: SendTo, payload: Bytes, order: seq<ConnectionId>)
    | SendHeartbeat(reliability: ReliabilityType, sendTo: SendTo, order: seq<ConnectionId>)
    | Drain(list: ListId)
    | DrainAccepted
    | Retry(kept: KeptId)
    | Receive(packet: Packet<Received>)
    | Poll(polled: ConnectedPeers)

  ghost function Transmit(n: ServerNode, s': ServerState, out: seq<Packet<ToSend>>): ServerNode {
    n.(state := s', first := n.first + Wires(out), sent := n.sent + set w | w in Wires(out))
  }

  ghost predicate ServerStep(n: ServerNode, a: ServerAction, n': ServerNode, now: nat, ttl: nat) {
    var s := n.state;
    match a
    case Schedule(reliability, sendTo, payload, order) =>
      && IterationOrder(s.core.connected, order)
      && var (core', r) := ScheduleSpec(s.core, reliability, sendTo, payload, order, now);
      n' == n.(state := s.(core := core'), oversized := n.oversized || (r.Ok? && |Chunks(payload)| > MAX_CHUNKS))
    case SendHeartbeat(reliability, sendTo, order) =>
      && IterationOrder(s.core.connected, order)
      && n' == n.(state := s.(core := HeartbeatSpec(s.core, reliability, sendTo, order, now).0))
    case Drain(l) =>
      && l != Handshakes
      && AllCreatable(s.core.connected, s.core.lists.At(l))
      && var (core', out) := DrainSpec(s.core, l, now, ttl);
      n' == Transmit(n, s.(core := core'), out)
    case DrainAccepted =>
      && AllAcceptable(s.awaiting, s.core.lists.handshakes)
      && var (s', out) := DrainAcceptedSpec(s, now, ttl);
      n' == Transmit(n, s', out)
    case Retry(k) =>
      && Shaped(s.core.kept) && KeptAccepts(s.core.kept)
      && var (s', out) := ServerService.RetrySpec(s, k, now, ttl);
      n' == n.(state := s', sent := n.sent + set w | w in Wires(out))
    case Receive(p) =>
      && !ServerService.ReceiveSpec(s, p, now).1.Panic?
      && n' == n.(state := ServerService.DriverReceive(s, p, now))
    case Poll(polled) =>
      && ReassemblersKeyed(s.core.connected)
      && PolledPeers(s.core.connected, now, polled)
      && n' == n.(state := s.(core := s.core.(connected := polled, kept := Expired(s.core.kept), api := [])))
  }

  const FRESH_SERVER_NODE := ServerNode(FRESH_SERVER, [], {}, false)

  // ---------------------------------------------------------------- what every step keeps

  predicate Known(s: ServerState, id: ConnectionId) {
    id in s.awaiting || id in s.core.connected
  }

  // The server's trackers for a peer, in whichever of the two states it is.
  function Link(s: ServerState, id: ConnectionId): Peer<()>
    requires Known(s, id)
  {
    if id in s.core.connected then s.core.connected[id].Link() else s.awaiting[id].Link()
  }

  ghost predicate Partition(s: ServerState) {
    && s.requesting == map[]
    && (forall id: ConnectionId :: Known(s, id) <==> id < s.connectionIdTracker)
    && (forall id :: !(id in s.awaiting && id in s.core.connected))
    && (forall i, j :: Known(s, i) && Known(s, j) && Link(s, i).address == Link(s, j).address ==> i == j)
  }

  ghost predicate AcceptOk(s: ServerState, x: Scheduled) {
    && x.message.ConnectionAccepted?
    && Known(s, x.message.connectionId)
    && x.address == Link(s, x.message.connectionId).address
  }

  ghost predicate ServerOk(s: ServerState) {
    && CoreOk(s.core)
    && Partition(s)
    && (forall x :: x in s.core.lists.handshakes ==> AcceptOk(s, x))
    && DistinctIds(s.core.lists.handshakes)
    && (forall p :: p in s.core.kept.handshakes ==> p.message.ConnectionAccepted?)
  }

  // Every transmission named a peer, went to its address, and used a sequence below its tracker.
  ghost predicate SentBelow(s: ServerState, w: Wire) {
    && !w.message.ConnectionRequest?
    && Known(s, w.message.connectionId)
    && w.address == Link(s, w.message.connectionId).address
    && w.sequence < Link(s, w.message.connectionId).sequenceTracker
  }

  ghost predicate AllSentBelow(s: ServerState, first: seq<Wire>) {
    forall w :: w in first ==> SentBelow(s, w)
  }

  ghost predicate SentIsFirst(sent: set<Wire>, first: seq<Wire>) {
    forall w :: w in sent <==> w in first
  }

  ghost predicate ServerNodeOk(n: ServerNode) {
    && ServerOk(n.state)
    && AllSentBelow(n.state, n.first)
    && PendingOk(n.state.core, n.first)
    && KeptSent(n.state.core.kept, n.first)
    && SentIsFirst(n.sent, n.first)
    && (!n.oversized ==> GroupedLists(n.state.core.lists) && Disciplined(n.first))
  }

  lemma FreshServerOk()
    ensures ServerNodeOk(FRESH_SERVER_NODE)
  {
    forall l ensures NO_LISTS.At(l) == [] {}
    assert Closed([]) && Grouped([]);
  }

  // ---------------------------------------------------------------- steps that change no peer's state

  // What a peer was sent now: acks what was heard from it, under sequences that were free.
  ghost predicate Emitted(s: ServerState, s': ServerState, w: Wire) {
    && !w.message.ConnectionRequest?
    && Known(s, w.message.connectionId) && Known(s', w.message.connectionId)
    && w.address == Link(s, w.message.connectionId).address
    && w.ack == Link(s, w.message.connectionId).remoteAck
    && Link(s, w.message.connectionId).sequenceTracker <= w.sequence < Link(s', w.message.connectionId).sequenceTracker
  }

  // Every peer stays in its state and what it was told stays the same; sequence trackers may rise.
  ghost predicate Steady(s: ServerState, s': ServerState) {
    && s'.requesting == s.requesting
    && s'.connectionIdTracker == s.connectionIdTracker
    && s'.awaiting.Keys == s.awaiting.Keys
    && s'.core.connected.Keys == s.core.connected.Keys
    && forall id :: Known(s, id) ==>
      && Link(s', id) == Link(s, id).(sequenceTracker := Link(s', id).sequenceTracker)
      && Link(s, id).sequenceTracker <= Link(s', id).sequenceTracker
  }

  ghost predicate Emits(s: ServerState, s': ServerState, ws: seq<Wire>) {
    Steady(s, s') && forall w :: w in ws ==> Emitted(s, s', w)
  }

  lemma SteadyKeepsPartition(s: ServerState, s': ServerState)
    requires Partition(s) && Steady(s, s')
    ensures Partition(s')
    ensures forall x :: AcceptOk(s, x) ==> AcceptOk(s', x)
  {
    forall id ensures Known(s', id) <==> Known(s, id) {}
    forall i, j | Known(s', i) && Known(s', j) && Link(s', i).address == Link(s', j).address ensures i == j {
      assert Known(s, i) && Known(s, j);
    }
  }

  // Transmissions extend the record; new ones of a drained list come after all old ones.
  lemma EmitsKeepRecord(s: ServerState, s': ServerState, first: seq<Wire>, ws: seq<Wire>)
    requires Partition(s) && AllSentBelow(s, first) && Emits(s, s', ws)
    ensures AllSentBelow(s', first + ws)
    ensures forall v, w :: v in first && w in ws && v.address == w.address ==> v.sequence < w.sequence
  {
    forall w | w in first + ws ensures SentBelow(s', w) {
      assert w in first || w in ws;
      if w in first { assert SentBelow(s, w); } else { assert Emitted(s, s', w); }
      assert Known(s, w.message.connectionId);
    }
    forall v, w | v in first && w in ws && v.address == w.address ensures v.sequence < w.sequence {
      assert SentBelow(s, v) && Emitted(s, s', w);
      assert v.message.connectionId == w.message.connectionId;
    }
  }

  // ---------------------------------------------------------------- scheduling

  lemma CoreStepSteady(s: ServerState, core': Core)
    requires core'.connected == s.core.connected
    ensures Steady(s, s.(core := core'))
  {
  }

  // A step that sends nothing new and lets every peer be.
  lemma QuietKeepsServer(n: ServerNode, n': ServerNode)
    requires ServerNodeOk(n) && Steady(n.state, n'.state) && n'.first == n.first && (n.oversized ==> n'.oversized)
    requires CoreOk(n'.state.core) && PendingOk(n'.state.core, n.first) && KeptSent(n'.state.core.kept, n.first)
    requires SentIsFirst(n'.sent, n.first)
    requires n'.state.core.lists.handshakes == n.state.core.lists.handshakes
    requires forall p :: p in n'.state.core.kept.handshakes ==> p.message.ConnectionAccepted?
    requires !n'.oversized ==> GroupedLists(n'.state.core.lists)
    ensures ServerNodeOk(n') && Emits(n.state, n'.state, [])
  {
    SteadyKeepsPartition(n.state, n'.state);
    EmitsKeepRecord(n.state, n'.state, n.first, []);
    assert n.first + [] == n.first;
  }

  lemma ScheduleKeepsServer(n: ServerNode, a: ServerAction, n': ServerNode, now: nat, ttl: nat)
    requires ServerNodeOk(n) && ServerStep(n, a, n', now, ttl) && a.Schedule?
    ensures ServerNodeOk(n') && Emits(n.state, n'.state, []) && n'.first == n.first
    ensures n'.state.core.lists.handshakes == n.state.core.lists.handshakes
  {
    var core := n.state.core;
    ScheduleKeepsCore(core, a.reliability, a.sendTo, a.payload, a.order, now);
    ScheduleKeepsPending(core, n.first, a.reliability, a.sendTo, a.payload, a.order, now);
    ScheduleFrame(core, a.reliability, a.sendTo, a.payload, a.order, now);
    CoreStepSteady(n.state, n'.state.core);
    QuietKeepsServer(n, n');
  }

  lemma HeartbeatKeepsServer(n: ServerNode, a: ServerAction, n': ServerNode, now: nat, ttl: nat)
    requires ServerNodeOk(n) && ServerStep(n, a, n', now, ttl) && a.SendHeartbeat?
    ensures ServerNodeOk(n') && Emits(n.state, n'.state, []) && n'.first == n.first
    ensures n'.state.core.lists.handshakes == n.state.core.lists.handshakes
  {
    var core := n.state.core;
    HeartbeatKeepsCore(core, a.reliability, a.sendTo, a.order, now);
    HeartbeatKeepsPending(core, n.first, a.reliability, a.sendTo, a.order, now);
    HeartbeatFrame(core, a.reliability, a.sendTo, a.order, now);
    CoreStepSteady(n.state, n'.state.core);
    QuietKeepsServer(n, n');
  }

  // ---------------------------------------------------------------- draining

  lemma DrainEmits(s: ServerState, l: ListId, now: nat, ttl: nat)
    requires ServerOk(s) && l != Handshakes && AllCreatable(s.core.connected, s.core.lists.At(l)) && Closed(s.core.lists.At(l))
    ensures var (core', out) := DrainSpec(s.core, l, now, ttl); Emits(s, s.(core := core'), Wires(out))
  {
    var xs := s.core.lists.At(l);
    var (core', out) := DrainSpec(s.core, l, now, ttl);
    DrainedWires(s.core.connected, l, xs, now);
    forall w | w in Wires(out) ensures Emitted(s, s.(core := core'), w) {
      assert DrainedWire(s.core.connected, core'.connected, xs, w);
    }
  }

  ghost predicate AllForConnected(s: ServerState, ws: seq<Wire>) {
    forall w :: w in ws ==> w.message.ForConnected() && w.message.connectionId in s.core.connected
  }

  lemma DrainKeepsServer(n: ServerNode, a: ServerAction, n': ServerNode, now: nat, ttl: nat)
    requires ServerNodeOk(n) && ServerStep(n, a, n', now, ttl) && a.Drain?
    ensures ServerNodeOk(n')
    ensures exists ws :: n'.first == n.first + ws && Emits(n.state, n'.state, ws) && AllForConnected(n.state, ws)
  {
    var s, l := n.state, a.list;
    var (core', out) := DrainSpec(s.core, l, now, ttl);
    var ws := Wires(out);
    DrainEmits(s, l, now, ttl);
    DrainKeepsCore(s.core, l, now, ttl);
    SteadyKeepsPartition(s, n'.state);
    EmitsKeepRecord(s, n'.state, n.first, ws);
    DrainedWires(s.core.connected, l, s.core.lists.At(l), now);
    forall w | w in ws ensures w.message.ForConnected() && w.message.connectionId in s.core.connected && exists x :: x in s.core.lists.At(l) && x.packetId == w.packetId {
      assert DrainedWire(s.core.connected, core'.connected, s.core.lists.At(l), w);
    }
    DrainKeepsPending(s.core, core', n.first, l, ws);
    DrainKeepsSent(s.core, l, n.first, now, ttl);
    KeptHandshakesStay(s.core, l, now, ttl);
    if !n.oversized {
      DrainedDisciplined(s.core.connected, l, s.core.lists.At(l), now);
      DisciplinedConcat(n.first, ws);
    }
  }

  lemma KeptHandshakesStay(core: Core, l: ListId, now: nat, ttl: nat)
    requires l != Handshakes && AllCreatable(core.connected, core.lists.At(l))
    ensures var core' := DrainSpec(core, l, now, ttl).0;
      core'.kept.handshakes == core.kept.handshakes && core'.lists.handshakes == core.lists.handshakes
  {
  }

  // ---------------------------------------------------------------- connection accepted packets

  lemma AcceptedEmits(s: ServerState, now: nat, ttl: nat)
    requires ServerOk(s) && AllAcceptable(s.awaiting, s.core.lists.handshakes)
    ensures var (s', out) := DrainAcceptedSpec(s, now, ttl); Emits(s, s', Wires(out))
  {
    var xs := s.core.lists.handshakes;
    var (s', out) := DrainAcceptedSpec(s, now, ttl);
    forall w | w in Wires(out) ensures Emitted(s, s', w) {
      var i :| 0 <= i < |out| && Wires(out)[i] == w;
      assert xs[i] in xs && AcceptOk(s, xs[i]);
      assert Accepts(xs, xs[i].message.connectionId);
    }
  }

  lemma AcceptedDisciplined(s: ServerState, now: nat, ttl: nat)
    requires ServerOk(s) && AllAcceptable(s.awaiting, s.core.lists.handshakes)
    ensures Disciplined(Wires(DrainAcceptedSpec(s, now, ttl).1))
    ensures forall w :: w in Wires(DrainAcceptedSpec(s, now, ttl).1) ==>
      w.message.ConnectionAccepted? && exists x :: x in s.core.lists.At(Handshakes) && x.packetId == w.packetId && x.message == w.message
  {
    var xs, out := s.core.lists.handshakes, DrainAcceptedSpec(s, now, ttl).1;
    var ws := Wires(out);
    forall i, j | 0 <= i < j < |ws| ensures ws[i].address != ws[j].address {
      assert xs[i] in xs && xs[j] in xs;
      assert AcceptOk(s, xs[i]) && AcceptOk(s, xs[j]);
    }
    forall w | w in ws ensures w.message.ConnectionAccepted? && exists x :: x in xs && x.packetId == w.packetId && x.message == w.message {
      var i :| 0 <= i < |ws| && ws[i] == w;
      assert xs[i] in xs;
    }
  }

  lemma AcceptedKeepsServer(n: ServerNode, a: ServerAction, n': ServerNode, now: nat, ttl: nat)
    requires ServerNodeOk(n) && ServerStep(n, a, n', now, ttl) && a.DrainAccepted?
    ensures ServerNodeOk(n')
    ensures n'.state.core.lists.handshakes == []
    ensures exists ws :: n'.first == n.first + ws && Emits(n.state, n'.state, ws)
  {
    var s := n.state;
    var (s', out) := DrainAcceptedSpec(s, now, ttl);
    var ws := Wires(out);
    AcceptedEmits(s, now, ttl);
    AcceptedDisciplined(s, now, ttl);
    SteadyKeepsPartition(s, s');
    EmitsKeepRecord(s, s', n.first, ws);
    DrainKeepsPending(s.core, s'.core, n.first, Handshakes, ws);
    AllSentWires(out, now, ttl);
    var sents := AllSent(out, now, ttl);
    forall p | p in sents ensures p.message.ConnectionAccepted? && KeptItemOk(s.core.connected, KeptHandshakes, p) {
      assert WireOfSent(p) in ws;
    }
    AppendKeepsKept(s.core.connected, s.core.kept, KeptHandshakes, sents);
    ClearKeepsLists(s.core.connected, s.core.lists, Handshakes);
    forall k, p | p in s'.core.kept.At(k) ensures WireOfSent(p) in n.first + ws {
      assert p in s.core.kept.At(k) || p in sents;
    }
    if !n.oversized { DisciplinedConcat(n.first, ws); }
  }

  // ---------------------------------------------------------------- retries

  lemma RetryKeepsServer(n: ServerNode, a: ServerAction, n': ServerNode, now: nat, ttl: nat)
    requires ServerNodeOk(n) && ServerStep(n, a, n', now, ttl) && a.Retry?
    ensures ServerNodeOk(n') && Emits(n.state, n'.state, []) && n'.first == n.first
    ensures n'.state.core.lists == n.state.core.lists
  {
    if a.kept == KeptHandshakes {
      RetryAcceptedKeepsServer(n, n', now, ttl);
    } else {
      var s := n.state;
      assert ServerService.RetrySpec(s, a.kept, now, ttl)
        == (s.(core := CoreRetry(s.core, a.kept, now, ttl).0), CoreRetry(s.core, a.kept, now, ttl).1);
      CoreRetryKeeps(s.core, n.first, a.kept, now, ttl);
      QuietKeepsServer(n, n');
    }
  }

  lemma RetryAcceptedKeepsServer(n: ServerNode, n': ServerNode, now: nat, ttl: nat)
    requires ServerNodeOk(n) && ServerStep(n, ServerAction.Retry(KeptHandshakes), n', now, ttl)
    ensures ServerNodeOk(n') && Emits(n.state, n'.state, []) && n'.first == n.first
    ensures n'.state.core.lists == n.state.core.lists
  {
    var s := n.state;
    var (kept, r) := Retried(s.core.kept, KeptHandshakes, now);
    RetriedKeepsKept(s.core.connected, s.core.kept, KeptHandshakes, now);
    RetriedHandshakes(s.core.kept, KeptHandshakes, now);
    RetryRepeats(s.core.kept, n.first, KeptHandshakes, now, ttl);
    if r.Some? {
      StoreKeepsSent(kept, n.first, KeptHandshakes, MarkSent(r.value, now, ttl));
      assert Wires(ServerService.RetrySpec(s, KeptHandshakes, now, ttl).1) == [WireOf(r.value)];
      ResendAccepted(s, kept, r.value, now, ttl);
    }
    SameListsKeepPending(s.core, n'.state.core, n.first);
    QuietKeepsServer(n, n');
  }

  lemma ResendAccepted(s: ServerState, kept: Kept, p: Packet<ToSend>, now: nat, ttl: nat)
    requires ServerOk(s) && KeptOk(s.core.connected, kept) && p.message.ConnectionAccepted?
    ensures var s' := SentAccepted(s.(core := s.core.(kept := kept)), p, now, ttl);
      && Steady(s, s') && CoreOk(s'.core)
      && s'.core.kept == kept.Append(KeptHandshakes, [MarkSent(p, now, ttl)])
  {
  }

  lemma RetriedHandshakes(kept: Kept, k: KeptId, now: nat)
    ensures var (kept', r) := Retried(kept, k, now);
      && (forall p :: p in kept'.handshakes ==> p in kept.handshakes)
      && (r.Some? && k == KeptHandshakes ==> exists p :: p in kept.handshakes && r.value.message == p.message)
  {
  }

  // ---------------------------------------------------------------- polling

  lemma PollKeepsServer(n: ServerNode, a: ServerAction, n': ServerNode, now: nat, ttl: nat)
    requires ServerNodeOk(n) && ServerStep(n, a, n', now, ttl) && a.Poll?
    ensures ServerNodeOk(n') && Emits(n.state, n'.state, []) && n'.first == n.first
    ensures n'.state.core.lists == n.state.core.lists
  {
    var s, s' := n.state, n'.state;
    PollKeepsCore(s.core, now, a.polled);
    ExpireKeepsSent(s.core.kept, n.first);
    forall id | id in s.core.connected ensures s'.core.connected[id].Link() == s.core.connected[id].Link() {}
    SameListsKeepPending(s.core, s'.core, n.first);
    assert forall p :: p in s'.core.kept.handshakes ==> p in s.core.kept.handshakes;
    QuietKeepsServer(n, n');
  }
}
