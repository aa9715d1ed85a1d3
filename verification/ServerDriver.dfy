// The server's driver: antarc/src/server.rs `poll`, phase by phase, against the steps of a server.
module ServerDriver {
  import opened Packets
  import opened Codec
  import opened Phases
  import opened Polls
  import opened Peers
  import opened Scheduler
  import opened Reliability
  import opened Endpoint
  import opened LocalState
  import opened Discipline
  import opened ServerService
  import opened ServerNodes
  import ServerReceives

  // What each phase before the receive does, in order.
  const PHASES: nat := 10

  function PhaseAction(i: nat): ServerAction
    requires i < PHASES
  {
    match i
    case 0 => ServerAction.Retry(KeptHandshakes)
    case 1 => ServerAction.Retry(KeptData)
    case 2 => ServerAction.Retry(KeptFragments)
    case 3 => DrainAccepted
    case 4 => Drain(UnreliableData)
    case 5 => Drain(ReliableData)
    case 6 => Drain(UnreliableFragments)
    case 7 => Drain(ReliableFragments)
    case 8 => Drain(UnreliableHeartbeats)
    case 9 => Drain(ReliableHeartbeats)
  }

  lemma PhaseActions()
    ensures PhaseAction(3) == DrainAccepted
    ensures PhaseAction(4) == Drain(UnreliableData) && PhaseAction(5) == Drain(ReliableData)
    ensures PhaseAction(6) == Drain(UnreliableFragments) && PhaseAction(7) == Drain(ReliableFragments)
    ensures PhaseAction(8) == Drain(UnreliableHeartbeats) && PhaseAction(9) == Drain(ReliableHeartbeats)
  {
  }

  lemma RetryActions()
    ensures PhaseAction(0) == ServerAction.Retry(KeptHandshakes)
    ensures PhaseAction(1) == ServerAction.Retry(KeptData) && PhaseAction(2) == ServerAction.Retry(KeptFragments)
  {
  }

  type ServerStage = Stage<ServerNode, Packet<ToSend>>

  // A phase is a step of the server; what it transmits goes to the socket.
  ghost predicate PhaseDoes(a: ServerStage, i: nat, b: ServerStage, now: nat, ttl: nat) {
    && i < PHASES
    && ServerStep(a.node, PhaseAction(i), b.node, now, ttl)
    && b.sent == a.sent + ServerTransmits(a.node, PhaseAction(i), now, ttl)
  }

  ghost function PhaseOf(now: nat, ttl: nat): PhaseRelation<ServerStage> {
    (i: nat, a: ServerStage, b: ServerStage) => PhaseDoes(a, i, b, now, ttl)
  }

  // The first n of them.
  ghost predicate Sends(path: seq<ServerStage>, n: nat, now: nat, ttl: nat) {
    n <= PHASES && InPhases(PhaseOf(now, ttl), path, n)
  }

  lemma OneMore(path: seq<ServerStage>, i: nat, b: ServerStage, now: nat, ttl: nat)
    requires Sends(path, i, now, ttl) && PhaseDoes(path[i], i, b, now, ttl)
    ensures Sends(path + [b], i + 1, now, ttl)
  {
    OnePhaseMore(PhaseOf(now, ttl), path, i, b);
  }

  // The one datagram of a poll: a step of the server, or an error that becomes an event.
  ghost predicate Receives(n: ServerNode, crc: Checksum, raw: RawPacket, n': ServerNode, now: nat, ttl: nat) {
    match DecodeFor(ForServer, crc, raw, now)
    case Ok(p) => ServerStep(n, Receive(p), n', now, ttl)
    case Err(e) => n' == n.(state := n.state.(core := n.state.core.(api := n.state.core.api + [Fail(e)])))
    case Panic => false
  }

  // What holds between two polls: whatever was received, each scheduled answer is for a peer that
  // still awaits.
  ghost predicate BetweenPolls(n: ServerNode) {
    ServerNodeOk(n) && AllAcceptable(n.state.awaiting, n.state.core.lists.handshakes)
  }

  // ---------------------------------------------------------------- room in 32 bits

  function Waiting(lists: Lists): nat {
    |lists.reliableData| + |lists.unreliableData| + |lists.reliableFragments| + |lists.unreliableFragments|
    + |lists.reliableHeartbeats| + |lists.unreliableHeartbeats|
  }

  // Sending all that waits and k packets more overflows no sequence.
  ghost predicate RoomFor(s: ServerState, k: nat) {
    && (forall id :: id in s.awaiting ==> s.awaiting[id].sequenceTracker + k < U32_BOUND)
    && (forall id :: id in s.core.connected ==> s.core.connected[id].sequenceTracker + Waiting(s.core.lists) + k < U32_BOUND)
  }

  lemma {:induction false} AdvancesAtMost(xs: seq<Scheduled>, id: ConnectionId)
    ensures Advances(xs, id) <= |xs|
  {
    if xs != [] { AdvancesAtMost(xs[..|xs| - 1], id); }
  }

  lemma DrainRoom(s: ServerState, l: ListId, now: nat, ttl: nat, k: nat)
    requires l != Handshakes && AllCreatable(s.core.connected, s.core.lists.At(l)) && RoomFor(s, k)
    ensures Room(s.core.connected, s.core.lists.At(l))
    ensures RoomFor(s.(core := DrainSpec(s.core, l, now, ttl).0), k)
  {
    var xs, core' := s.core.lists.At(l), DrainSpec(s.core, l, now, ttl).0;
    assert Waiting(core'.lists) == Waiting(s.core.lists) - |xs|;
    forall id | id in s.core.connected ensures Advances(xs, id) <= |xs| { AdvancesAtMost(xs, id); }
  }

  lemma RetryRoom(s: ServerState, k: KeptId, now: nat, ttl: nat, room: nat)
    requires Shaped(s.core.kept) && KeptAccepts(s.core.kept) && RoomFor(s, room + 1)
    ensures var s' := ServerService.RetrySpec(s, k, now, ttl).0;
      RoomFor(s', room) && s'.core.lists == s.core.lists && s'.awaiting.Keys == s.awaiting.Keys
  {
  }

  lemma AcceptedRoom(s: ServerState, now: nat, ttl: nat, room: nat)
    requires AllAcceptable(s.awaiting, s.core.lists.handshakes) && RoomFor(s, room + 1)
    ensures RoomFor(DrainAcceptedSpec(s, now, ttl).0, room)
  {
  }

  // A poll's one receive leaves at most one answer to send, to a peer that awaits.
  lemma OneReceiveIsAcceptable(n: ServerNode, p: Packet<Packets.Received>, n': ServerNode, now: nat, ttl: nat)
    requires ServerNodeOk(n) && n.state.core.lists.handshakes == [] && ServerStep(n, Receive(p), n', now, ttl)
    ensures BetweenPolls(n')
  {
    ServerReceives.ReceiveKeepsServer(n, Receive(p), n', now, ttl);
  }

  lemma RetryKeeps(n: ServerNode, k: KeptId, n': ServerNode, now: nat, ttl: nat)
    requires ServerNodeOk(n) && ServerStep(n, ServerAction.Retry(k), n', now, ttl)
    ensures ServerNodeOk(n') && (BetweenPolls(n) ==> BetweenPolls(n'))
  {
    RetryKeepsServer(n, ServerAction.Retry(k), n', now, ttl);
  }

  // The protocol's receive, with the event for an error, is the step.
  lemma ReceivedSpec(n: ServerNode, crc: Checksum, raw: RawPacket, now: nat, ttl: nat)
    ensures var (s', r) := OnReceivedSpec(n.state, crc, raw, now);
      && (r.Panic? <==> ReceivingPanics(n.state, crc, raw, now))
      && (r.Ok? ==> Receives(n, crc, raw, n.(state := s'), now, ttl))
      && (r.Err? ==> Receives(n, crc, raw, n.(state := s'.(core := s'.core.(api := s'.core.api + [Fail(r.error)]))), now, ttl))
  {
  }

  lemma HearingLeavesKept(s: ServerState, p: Packet<Packets.Received>, now: nat)
    ensures ServerService.DriverReceive(s, p, now).core.kept == s.core.kept
  {
  }

  lemma ReceivesLeaveKept(n: ServerNode, crc: Checksum, raw: RawPacket, n': ServerNode, now: nat, ttl: nat)
    requires Receives(n, crc, raw, n', now, ttl)
    ensures n'.state.core.kept == n.state.core.kept
  {
    var decoded := DecodeFor(ForServer, crc, raw, now);
    if decoded.Ok? { HearingLeavesKept(n.state, decoded.value, now); }
  }

  lemma ReceivesKeeps(n: ServerNode, crc: Checksum, raw: RawPacket, n': ServerNode, now: nat, ttl: nat)
    requires ServerNodeOk(n) && n.state.core.lists.handshakes == [] && Receives(n, crc, raw, n', now, ttl)
    ensures BetweenPolls(n')
  {
    var decoded := DecodeFor(ForServer, crc, raw, now);
    if decoded.Ok? {
      OneReceiveIsAcceptable(n, decoded.value, n', now, ttl);
    } else {
      ServerReceives.ApiOnly(n, n');
    }
  }

  // ---------------------------------------------------------------- the driver, in place

  class AntarcServer {
    const server: Server
    ghost var node: ServerNode
    // What the socket was given to send.
    var outgoing: seq<Packet<ToSend>>

    ghost predicate Coupled()
      reads this, server, server.protocol, server.protocol.scheduler, server.protocol.reliabilityHandler
    {
      node.state == server.View() && ServerNodeOk(node)
    }

    constructor ()
      ensures Coupled() && node == FRESH_SERVER_NODE && BetweenPolls(node)
    {
      server := new Server();
      outgoing := [];
      node := FRESH_SERVER_NODE;
      new;
      FreshServerOk();
    }

    ghost function Now(): ServerStage
      reads this
    {
      Stage(node, outgoing)
    }

    // The first n phases of a poll were done.
    ghost predicate Done(path: seq<ServerStage>, n: nat, now: nat, ttl: nat)
      reads this
    {
      Sends(path, n, now, ttl) && path[n] == Now()
    }

    // Before the answers are sent, and after.
    ghost predicate BeforeAnswers(room: nat)
      reads this, server, server.protocol, server.protocol.scheduler, server.protocol.reliabilityHandler
    {
      Coupled() && BetweenPolls(node) && RoomFor(node.state, room)
    }

    ghost predicate AfterAnswers()
      reads this, server, server.protocol, server.protocol.scheduler, server.protocol.reliabilityHandler
    {
      Coupled() && RoomFor(node.state, 0) && node.state.core.lists.handshakes == []
    }

    // poll_retry_connection_accepted, poll_retry_data_transfer and poll_retry_fragment.
    method PollRetry(k: KeptId, now: nat, ttl: nat, ghost room: nat)
      requires BeforeAnswers(room + 1)
      modifies this`node, this`outgoing, server, server.protocol, server.protocol.reliabilityHandler
      ensures BeforeAnswers(room)
      ensures ServerStep(old(node), ServerAction.Retry(k), node, now, ttl)
      ensures outgoing == old(outgoing) + ServerTransmits(old(node), ServerAction.Retry(k), now, ttl)
    {
      ListsFacts(node.state.core, ReliableData);
      KeptAreAccepts(node.state);
      RetryRoom(node.state, k, now, ttl, room);
      var sent := server.PollRetry(k, now, ttl);
      outgoing := outgoing + sent;
      node := node.(state := server.View(), sent := node.sent + set w | w in Wires(sent));
      RetryKeeps(old(node), k, node, now, ttl);
    }

    method PollConnectionAccepted(now: nat, ttl: nat)
      requires BeforeAnswers(1)
      modifies this`node, this`outgoing, server, server.protocol, server.protocol.scheduler, server.protocol.reliabilityHandler
      ensures AfterAnswers()
      ensures ServerStep(old(node), DrainAccepted, node, now, ttl)
      ensures outgoing == old(outgoing) + ServerTransmits(old(node), DrainAccepted, now, ttl)
    {
      AcceptedRoom(node.state, now, ttl, 0);
      var sent := server.PollConnectionAccepted(now, ttl);
      outgoing := outgoing + sent;
      node := Transmit(node, server.View(), sent);
      AcceptedKeepsServer(old(node), DrainAccepted, node, now, ttl);
    }

    // poll_unreliable_data_transfer and the five like it.
    method PollScheduled(l: ListId, now: nat, ttl: nat)
      requires AfterAnswers() && l != Handshakes
      modifies this`node, this`outgoing, server.protocol, server.protocol.scheduler, server.protocol.reliabilityHandler
      ensures AfterAnswers()
      ensures ServerStep(old(node), Drain(l), node, now, ttl)
      ensures outgoing == old(outgoing) + ServerTransmits(old(node), Drain(l), now, ttl)
    {
      ListsFacts(node.state.core, l);
      DrainRoom(node.state, l, now, ttl, 0);
      var sent := server.protocol.PollScheduled(l, now, ttl);
      outgoing := outgoing + sent;
      node := Transmit(node, server.View(), sent);
      DrainKeepsServer(old(node), Drain(l), node, now, ttl);
      KeptHandshakesStay(old(node).state.core, l, now, ttl);
    }

    // Receive one datagram; an error becomes an event. False when the protocol panics.
    method OnReceived(crc: Checksum, raw: RawPacket, now: nat, ttl: nat) returns (ok: bool)
      requires Coupled() && node.state.core.lists.handshakes == []
      modifies this`node, server, server.protocol, server.protocol.scheduler
      ensures !ok <==> ReceivingPanics(old(node).state, crc, raw, now)
      ensures ok ==> Coupled() && BetweenPolls(node) && Receives(old(node), crc, raw, node, now, ttl)
      ensures ok ==> node.state.core.kept == old(node).state.core.kept
    {
      ReceivedSpec(node, crc, raw, now, ttl);
      var r := server.OnReceived(crc, raw, now);
      if r.Panic? { return false; }
      if r.Err? { server.protocol.Push(Fail(r.error)); }
      node := node.(state := server.View());
      ok := true;
      ReceivesKeeps(old(node), crc, raw, node, now, ttl);
      ReceivesLeaveKept(old(node), crc, raw, node, now, ttl);
    }

    // The end of a poll: expiry and eviction; the events are handed out.
    method Finish(now: nat, ttl: nat) returns (events: seq<ProtocolEvent>)
      requires Coupled() && BetweenPolls(node)
      modifies this`node, server.protocol, server.protocol.reliabilityHandler
      ensures Coupled() && BetweenPolls(node) && events == old(node).state.core.api && node.first == old(node).first
      ensures ServerStep(old(node), Poll(node.state.core.connected), node, now, ttl)
    {
      ListsFacts(node.state.core, ReliableData);
      events := server.Poll(now);
      node := node.(state := server.View());
      PollKeepsServer(old(node), Poll(node.state.core.connected), node, now, ttl);
    }

    // One poll. First it sends: what is kept and late once more, then everything that was scheduled,
    // list by list, until all lists are empty; what was reliable of it is kept. Then it receives one
    // datagram, whatever it is, and expires. What holds between polls holds again. It fails only when
    // the datagram is too short to decode or asks for an id past the last.
    method PollOnce(crc: Checksum, raw: RawPacket, now: nat, ttl: nat)
        returns (ok: bool, events: seq<ProtocolEvent>, ghost path: seq<ServerStage>)
      requires BeforeAnswers(4)
      modifies this`node, this`outgoing, server, server.protocol, server.protocol.scheduler, server.protocol.reliabilityHandler
      ensures Sends(path, PHASES, now, ttl) && path[0] == old(Now()) && path[PHASES].sent == outgoing
      ensures old(outgoing) <= outgoing
      ensures PollSent(old(node), path[PHASES].node, Wires(outgoing[|old(outgoing)|..]), now, ttl)
      ensures !ok <==> ReceivingPanics(path[PHASES].node.state, crc, raw, now)
      ensures ok ==> Coupled() && BetweenPolls(node)
      ensures ok ==> Expires(path[PHASES].node.state.core.kept, node.state.core.kept)
      ensures ok ==> exists received ::
        && Receives(path[PHASES].node, crc, raw, received, now, ttl)
        && ServerStep(received, Poll(node.state.core.connected), node, now, ttl)
        && events == received.state.core.api
      ensures var decoded := DecodeFor(ForServer, crc, raw, now);
        decoded.Err? ==> ok && events == old(node).state.core.api + [Fail(decoded.error)]
    {
      path := SendAll(now, ttl);
      PollSends(path, now, ttl);
      ok, events := Hear(crc, raw, now, ttl);
    }

    // The receiving half.
    method Hear(crc: Checksum, raw: RawPacket, now: nat, ttl: nat) returns (ok: bool, events: seq<ProtocolEvent>)
      requires AfterAnswers()
      modifies this`node, server, server.protocol, server.protocol.scheduler, server.protocol.reliabilityHandler
      ensures !ok <==> ReceivingPanics(old(node).state, crc, raw, now)
      ensures ok ==> Coupled() && BetweenPolls(node)
      ensures ok ==> Expires(old(node).state.core.kept, node.state.core.kept)
      ensures ok ==> exists received ::
        && Receives(old(node), crc, raw, received, now, ttl)
        && ServerStep(received, Poll(node.state.core.connected), node, now, ttl)
        && events == received.state.core.api
      ensures var decoded := DecodeFor(ForServer, crc, raw, now);
        decoded.Err? ==> ok && events == old(node).state.core.api + [Fail(decoded.error)]
    {
      events := [];
      ok := OnReceived(crc, raw, now, ttl);
      if !ok { return; }
      ghost var received := node;
      events := Finish(now, ttl);
      assert Receives(old(node), crc, raw, received, now, ttl);
      PollExpires(received.state.core.kept);
    }

    method SendAll(now: nat, ttl: nat) returns (ghost path: seq<ServerStage>)
      requires BeforeAnswers(4)
      modifies this`node, this`outgoing, server, server.protocol, server.protocol.scheduler, server.protocol.reliabilityHandler
      ensures AfterAnswers() && Done(path, PHASES, now, ttl) && path[0] == old(Now())
    {
      PhaseActions();
      path := SendRetries(now, ttl);
      path := AcceptPhase(path, now, ttl);
      path := SendPayloads(path, now, ttl);
      path := SendPair(UnreliableHeartbeats, ReliableHeartbeats, path, 8, now, ttl);
    }

    method SendRetries(now: nat, ttl: nat) returns (ghost path: seq<ServerStage>)
      requires BeforeAnswers(4)
      modifies this`node, this`outgoing, server, server.protocol, server.protocol.reliabilityHandler
      ensures BeforeAnswers(1) && Done(path, 3, now, ttl) && path[0] == old(Now())
    {
      RetryActions();
      path := [Now()];
      path := RetryPhase(KeptHandshakes, path, 0, now, ttl);
      path := RetryPhase(KeptData, path, 1, now, ttl);
      path := RetryPhase(KeptFragments, path, 2, now, ttl);
    }

    method RetryPhase(k: KeptId, ghost before: seq<ServerStage>, ghost i: nat, now: nat, ttl: nat) returns (ghost path: seq<ServerStage>)
      requires i < 3 && BeforeAnswers(4 - i) && Done(before, i, now, ttl) && PhaseAction(i) == ServerAction.Retry(k)
      modifies this`node, this`outgoing, server, server.protocol, server.protocol.reliabilityHandler
      ensures BeforeAnswers(3 - i) && Done(path, i + 1, now, ttl) && path[0] == before[0]
    {
      PollRetry(k, now, ttl, 3 - i);
      OneMore(before, i, Now(), now, ttl);
      path := before + [Now()];
    }

    method AcceptPhase(ghost before: seq<ServerStage>, now: nat, ttl: nat) returns (ghost path: seq<ServerStage>)
      requires BeforeAnswers(1) && Done(before, 3, now, ttl)
      modifies this`node, this`outgoing, server, server.protocol, server.protocol.scheduler, server.protocol.reliabilityHandler
      ensures AfterAnswers() && Done(path, 4, now, ttl) && path[0] == before[0]
    {
      PollConnectionAccepted(now, ttl);
      OneMore(before, 3, Now(), now, ttl);
      path := before + [Now()];
    }

    method SendPayloads(ghost before: seq<ServerStage>, now: nat, ttl: nat) returns (ghost path: seq<ServerStage>)
      requires AfterAnswers() && Done(before, 4, now, ttl)
      modifies this`node, this`outgoing, server.protocol, server.protocol.scheduler, server.protocol.reliabilityHandler
      ensures AfterAnswers() && Done(path, 8, now, ttl) && path[0] == before[0]
    {
      PhaseActions();
      path := SendPair(UnreliableData, ReliableData, before, 4, now, ttl);
      path := SendPair(UnreliableFragments, ReliableFragments, path, 6, now, ttl);
    }

    // The unreliable packets of a kind, then the reliable ones.
    method SendPair(l: ListId, m: ListId, ghost before: seq<ServerStage>, ghost i: nat, now: nat, ttl: nat) returns (ghost path: seq<ServerStage>)
      requires AfterAnswers() && Done(before, i, now, ttl) && l != Handshakes && m != Handshakes
      requires i + 1 < PHASES && PhaseAction(i) == Drain(l) && PhaseAction(i + 1) == Drain(m)
      modifies this`node, this`outgoing, server.protocol, server.protocol.scheduler, server.protocol.reliabilityHandler
      ensures AfterAnswers() && Done(path, i + 2, now, ttl) && path[0] == before[0]
    {
      path := SendPhase(l, before, i, now, ttl);
      path := SendPhase(m, path, i + 1, now, ttl);
    }

    method SendPhase(l: ListId, ghost before: seq<ServerStage>, ghost i: nat, now: nat, ttl: nat) returns (ghost path: seq<ServerStage>)
      requires AfterAnswers() && Done(before, i, now, ttl) && l != Handshakes && i < PHASES && PhaseAction(i) == Drain(l)
      modifies this`node, this`outgoing, server.protocol, server.protocol.scheduler, server.protocol.reliabilityHandler
      ensures AfterAnswers() && Done(path, i + 1, now, ttl) && path[0] == before[0]
    {
      PollScheduled(l, now, ttl);
      OneMore(before, i, Now(), now, ttl);
      path := before + [Now()];
    }
  }

  // ---------------------------------------------------------------- what the phases achieve

  // What was kept is sent again where it is late, then all lists.
  ghost predicate PollSent(n: ServerNode, n': ServerNode, all: seq<Wire>, now: nat, ttl: nat) {
    var kept := n.state.core.kept;
    SentAll(n.state.core,
      Kept(KeptAgain(kept.data, now, ttl), KeptAgain(kept.fragments, now, ttl), kept.heartbeats, KeptAgain(kept.handshakes, now, ttl)),
      n.first, n'.state.core, n'.first,
      Again(kept.handshakes, now) + Again(kept.data, now) + Again(kept.fragments, now), all, now, ttl)
  }

  // A phase that retries, and one that drains.
  ghost predicate Retries(a: ServerStage, b: ServerStage, k: KeptId, ws: seq<Wire>, now: nat, ttl: nat) {
    && RetryDoes(a.node.state.core, b.node.state.core, k, ws, now, ttl)
    && Puts(a.sent, b.sent, ws) && b.node.first == a.node.first
  }

  ghost predicate Drains(a: ServerStage, b: ServerStage, l: ListId, ws: seq<Wire>, now: nat, ttl: nat) {
    && DrainDoes(a.node.state.core, b.node.state.core, l, ws, now, ttl)
    && Puts(a.sent, b.sent, ws) && b.node.first == a.node.first + ws
  }

  lemma RetryAt(path: seq<ServerStage>, i: nat, k: KeptId, now: nat, ttl: nat) returns (ws: seq<Wire>)
    requires Sends(path, PHASES, now, ttl) && i < PHASES && PhaseAction(i) == ServerAction.Retry(k)
    ensures Retries(path[i], path[i + 1], k, ws, now, ttl)
  {
    assert PhaseAt(PhaseOf(now, ttl), path, i);
    ServerRetryDoes(path[i].node, k, path[i + 1].node, now, ttl);
    var out := ServerTransmits(path[i].node, ServerAction.Retry(k), now, ttl);
    PutsOut(path[i].sent, path[i + 1].sent, out);
    ws := Wires(out);
  }

  lemma DrainAt(path: seq<ServerStage>, i: nat, l: ListId, now: nat, ttl: nat) returns (ws: seq<Wire>)
    requires Sends(path, PHASES, now, ttl) && i < PHASES && l != Handshakes && PhaseAction(i) == Drain(l)
    ensures Drains(path[i], path[i + 1], l, ws, now, ttl)
  {
    assert PhaseAt(PhaseOf(now, ttl), path, i);
    ServerDrainDoes(path[i].node, l, path[i + 1].node, now, ttl);
    var out := ServerTransmits(path[i].node, Drain(l), now, ttl);
    PutsOut(path[i].sent, path[i + 1].sent, out);
    ws := Wires(out);
  }

  lemma AcceptAt(path: seq<ServerStage>, now: nat, ttl: nat) returns (ws: seq<Wire>)
    requires Sends(path, PHASES, now, ttl)
    ensures Drains(path[3], path[4], Handshakes, ws, now, ttl)
  {
    assert PhaseAt(PhaseOf(now, ttl), path, 3);
    ServerAcceptedDoes(path[3].node, path[4].node, now, ttl);
    var out := ServerTransmits(path[3].node, DrainAccepted, now, ttl);
    PutsOut(path[3].sent, path[4].sent, out);
    ws := Wires(out);
  }

  lemma RetriesDo(s0: ServerStage, s1: ServerStage, s2: ServerStage, s3: ServerStage,
      w1: seq<Wire>, w2: seq<Wire>, w3: seq<Wire>, now: nat, ttl: nat)
    requires Retries(s0, s1, KeptHandshakes, w1, now, ttl)
    requires Retries(s1, s2, KeptData, w2, now, ttl) && Retries(s2, s3, KeptFragments, w3, now, ttl)
    ensures Puts(s0.sent, s3.sent, w1 + w2 + w3) && s3.node.first == s0.node.first
    ensures RetriedAll(s0.node.state.core, s3.node.state.core, w1 + w2 + w3, now, ttl)
  {
    RetriesAll(s0.node.state.core, s1.node.state.core, s2.node.state.core, s3.node.state.core, w1, w2, w3, now, ttl);
    PutsBoth(s0.sent, s1.sent, s2.sent, w1, w2);
    PutsBoth(s0.sent, s2.sent, s3.sent, w1 + w2, w3);
  }

  lemma DrainsDo(s0: ServerStage, s1: ServerStage, s2: ServerStage, s3: ServerStage, s4: ServerStage, s5: ServerStage, s6: ServerStage, s7: ServerStage,
      w1: seq<Wire>, w2: seq<Wire>, w3: seq<Wire>, w4: seq<Wire>, w5: seq<Wire>, w6: seq<Wire>, w7: seq<Wire>, now: nat, ttl: nat)
    requires Drains(s0, s1, Handshakes, w1, now, ttl)
    requires Drains(s1, s2, UnreliableData, w2, now, ttl) && Drains(s2, s3, ReliableData, w3, now, ttl)
    requires Drains(s3, s4, UnreliableFragments, w4, now, ttl) && Drains(s4, s5, ReliableFragments, w5, now, ttl)
    requires Drains(s5, s6, UnreliableHeartbeats, w6, now, ttl) && Drains(s6, s7, ReliableHeartbeats, w7, now, ttl)
    ensures var ws := w1 + w2 + w3 + w4 + w5 + w6 + w7;
      && Puts(s0.sent, s7.sent, ws) && s7.node.first == s0.node.first + ws
      && DrainedAll(s0.node.state.core, s7.node.state.core, ws, now, ttl)
  {
    DrainsAll(s0.node.state.core, s1.node.state.core, s2.node.state.core, s3.node.state.core, s4.node.state.core,
      s5.node.state.core, s6.node.state.core, s7.node.state.core, w1, w2, w3, w4, w5, w6, w7, now, ttl);
    PutsAll(s0.sent, s1.sent, s2.sent, s3.sent, s4.sent, s5.sent, s6.sent, s7.sent, w1, w2, w3, w4, w5, w6, w7);
    RegroupAll(s0.node.first, w1, w2, w3, w4, w5, w6, w7);
  }

  lemma HandshakeRetryAt(path: seq<ServerStage>, now: nat, ttl: nat) returns (ws: seq<Wire>)
    requires Sends(path, PHASES, now, ttl)
    ensures Retries(path[0], path[1], KeptHandshakes, ws, now, ttl)
  {
    ws := RetryAt(path, 0, KeptHandshakes, now, ttl);
  }

  lemma PayloadRetriesAt(path: seq<ServerStage>, now: nat, ttl: nat) returns (ws: seq<Wire>, vs: seq<Wire>)
    requires Sends(path, PHASES, now, ttl)
    ensures Retries(path[1], path[2], KeptData, ws, now, ttl) && Retries(path[2], path[3], KeptFragments, vs, now, ttl)
  {
    ws := RetryAt(path, 1, KeptData, now, ttl);
    vs := RetryAt(path, 2, KeptFragments, now, ttl);
  }

  lemma PathRetries(path: seq<ServerStage>, now: nat, ttl: nat) returns (again: seq<Wire>)
    requires Sends(path, PHASES, now, ttl)
    ensures Puts(path[0].sent, path[3].sent, again) && path[3].node.first == path[0].node.first
    ensures RetriedAll(path[0].node.state.core, path[3].node.state.core, again, now, ttl)
  {
    var w0 := HandshakeRetryAt(path, now, ttl);
    var w1, w2 := PayloadRetriesAt(path, now, ttl);
    RetriesDo(path[0], path[1], path[2], path[3], w0, w1, w2, now, ttl);
    again := w0 + w1 + w2;
  }

  lemma DataAt(path: seq<ServerStage>, now: nat, ttl: nat) returns (ws: seq<Wire>, vs: seq<Wire>)
    requires Sends(path, PHASES, now, ttl)
    ensures Drains(path[4], path[5], UnreliableData, ws, now, ttl) && Drains(path[5], path[6], ReliableData, vs, now, ttl)
  {
    PhaseActions();
    ws := DrainAt(path, 4, UnreliableData, now, ttl);
    vs := DrainAt(path, 5, ReliableData, now, ttl);
  }

  lemma FragmentsAt(path: seq<ServerStage>, now: nat, ttl: nat) returns (ws: seq<Wire>, vs: seq<Wire>)
    requires Sends(path, PHASES, now, ttl)
    ensures Drains(path[6], path[7], UnreliableFragments, ws, now, ttl) && Drains(path[7], path[8], ReliableFragments, vs, now, ttl)
  {
    PhaseActions();
    ws := DrainAt(path, 6, UnreliableFragments, now, ttl);
    vs := DrainAt(path, 7, ReliableFragments, now, ttl);
  }

  lemma HeartbeatsAt(path: seq<ServerStage>, now: nat, ttl: nat) returns (ws: seq<Wire>, vs: seq<Wire>)
    requires Sends(path, PHASES, now, ttl)
    ensures Drains(path[8], path[9], UnreliableHeartbeats, ws, now, ttl) && Drains(path[9], path[10], ReliableHeartbeats, vs, now, ttl)
  {
    PhaseActions();
    ws := DrainAt(path, 8, UnreliableHeartbeats, now, ttl);
    vs := DrainAt(path, 9, ReliableHeartbeats, now, ttl);
  }

  lemma PathDrains(path: seq<ServerStage>, now: nat, ttl: nat) returns (ws: seq<Wire>)
    requires Sends(path, PHASES, now, ttl)
    ensures Puts(path[3].sent, path[10].sent, ws) && path[10].node.first == path[3].node.first + ws
    ensures DrainedAll(path[3].node.state.core, path[10].node.state.core, ws, now, ttl)
  {
    var w3 := AcceptAt(path, now, ttl);
    var w4, w5 := DataAt(path, now, ttl);
    var w6, w7 := FragmentsAt(path, now, ttl);
    var w8, w9 := HeartbeatsAt(path, now, ttl);
    DrainsDo(path[3], path[4], path[5], path[6], path[7], path[8], path[9], path[10], w3, w4, w5, w6, w7, w8, w9, now, ttl);
    ws := w3 + w4 + w5 + w6 + w7 + w8 + w9;
  }

  // The ten phases, whatever the state they start in.
  lemma PollSends(path: seq<ServerStage>, now: nat, ttl: nat)
    requires Sends(path, PHASES, now, ttl)
    ensures |path| == 11 && path[0].sent <= path[10].sent
    ensures PollSent(path[0].node, path[10].node, Wires(path[10].sent[|path[0].sent|..]), now, ttl)
  {
    var again := PathRetries(path, now, ttl);
    var ws := PathDrains(path, now, ttl);
    PutsBoth(path[0].sent, path[3].sent, path[10].sent, again, ws);
    SentInAll(path[0].node.state.core, path[3].node.state.core, path[10].node.state.core, path[3].node.first, again, ws, now, ttl);
  }

  // A datagram too short to decode, or a request once the ids are used up.
  ghost predicate ReceivingPanics(s: ServerState, crc: Checksum, raw: RawPacket, now: nat) {
    match DecodeFor(ForServer, crc, raw, now)
    case Panic => true
    case Ok(p) => ServerService.ReceiveSpec(s, p, now).1.Panic?
    case Err(_) => false
  }

  lemma KeptAreAccepts(s: ServerState)
    requires ServerOk(s)
    ensures KeptAccepts(s.core.kept)
  {
  }
}
