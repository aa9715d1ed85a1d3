// The client's driver: antarc/src/client.rs `poll`, phase by phase, against the steps of a client.
module ClientDriver {
  import opened Packets
  import opened Codec
  import opened Phases
  import opened Polls
  import opened Peers
  import opened Scheduler
  import opened Reliability
  import opened Endpoint
  import opened LocalState
  import opened Discipline
  import opened ClientService
  import opened ClientNodes
  import ClientReceives
  import ServerDriver

  // What each phase before the receive does, in order. Fragments are not retried here.
  const PHASES: nat := 9

  function PhaseAction(i: nat): ClientAction
    requires i < PHASES
  {
    match i
    case 0 => Resend
    case 1 => ClientAction.Retry(KeptData)
    case 2 => DrainRequests
    case 3 => Drain(UnreliableData)
    case 4 => Drain(ReliableData)
    case 5 => Drain(UnreliableFragments)
    case 6 => Drain(ReliableFragments)
    case 7 => Drain(UnreliableHeartbeats)
    case 8 => Drain(ReliableHeartbeats)
  }

  lemma PhaseActions()
    ensures PhaseAction(0) == Resend && PhaseAction(1) == ClientAction.Retry(KeptData) && PhaseAction(2) == DrainRequests
    ensures PhaseAction(3) == Drain(UnreliableData) && PhaseAction(4) == Drain(ReliableData)
    ensures PhaseAction(5) == Drain(UnreliableFragments) && PhaseAction(6) == Drain(ReliableFragments)
    ensures PhaseAction(7) == Drain(UnreliableHeartbeats) && PhaseAction(8) == Drain(ReliableHeartbeats)
  {
  }

  type ClientStage = Stage<ClientNode, Packet<ToSend>>

  // A phase is a step of the client; what it transmits goes to the socket.
  ghost predicate PhaseDoes(a: ClientStage, i: nat, b: ClientStage, now: nat, ttl: nat) {
    && i < PHASES
    && ClientStep(a.node, PhaseAction(i), b.node, now, ttl)
    && b.sent == a.sent + ClientTransmits(a.node, PhaseAction(i), now, ttl)
  }

  ghost function PhaseOf(now: nat, ttl: nat): PhaseRelation<ClientStage> {
    (i: nat, a: ClientStage, b: ClientStage) => PhaseDoes(a, i, b, now, ttl)
  }

  // The first n of them.
  ghost predicate Sends(path: seq<ClientStage>, n: nat, now: nat, ttl: nat) {
    n <= PHASES && InPhases(PhaseOf(now, ttl), path, n)
  }

  lemma OneMore(path: seq<ClientStage>, i: nat, b: ClientStage, now: nat, ttl: nat)
    requires Sends(path, i, now, ttl) && PhaseDoes(path[i], i, b, now, ttl)
    ensures Sends(path + [b], i + 1, now, ttl)
  {
    OnePhaseMore(PhaseOf(now, ttl), path, i, b);
  }

  // The one datagram of a poll: a step of the client, or an error that becomes an event.
  ghost predicate Receives(n: ClientNode, crc: Checksum, raw: RawPacket, n': ClientNode, now: nat, ttl: nat) {
    match DecodeFor(ForClient, crc, raw, now)
    case Ok(p) => ClientStep(n, Receive(p), n', now, ttl)
    case Err(e) => n' == n.(state := n.state.(core := n.state.core.(api := n.state.core.api + [Fail(e)])), phase := Phase.Received)
    case Panic => false
  }

  // Sending all that waits and k packets more overflows no sequence.
  ghost predicate RoomFor(s: ClientState, k: nat) {
    && (forall a :: a in s.requesting ==> s.requesting[a].sequenceTracker + k < U32_BOUND)
    && (forall a :: a in s.awaiting ==> s.awaiting[a].sequenceTracker + k < U32_BOUND)
    && (forall id :: id in s.core.connected ==> s.core.connected[id].sequenceTracker + ServerDriver.Waiting(s.core.lists) + k < U32_BOUND)
  }

  lemma DrainRoom(s: ClientState, l: ListId, now: nat, ttl: nat, k: nat)
    requires l != Handshakes && AllCreatable(s.core.connected, s.core.lists.At(l)) && RoomFor(s, k)
    ensures Room(s.core.connected, s.core.lists.At(l))
    ensures RoomFor(DrainListSpec(s, l, now, ttl).0, k)
  {
    var xs, core' := s.core.lists.At(l), DrainSpec(s.core, l, now, ttl).0;
    assert ServerDriver.Waiting(core'.lists) == ServerDriver.Waiting(s.core.lists) - |xs|;
    forall id | id in s.core.connected ensures Advances(xs, id) <= |xs| { ServerDriver.AdvancesAtMost(xs, id); }
  }

  lemma RetryRoom(s: ClientState, k: KeptId, now: nat, ttl: nat, room: nat)
    requires ClientOk(s) && Shaped(s.core.kept) && k != KeptHandshakes && RoomFor(s, room + 1)
    ensures RoomFor(ClientService.RetrySpec(s, k, now, ttl).0, room)
  {
    RetryOnCore(s, k, now, ttl);
  }

  lemma RequestsRoom(s: ClientState, now: nat, ttl: nat, room: nat)
    requires AllRequestable(s.requesting, s.core.lists.handshakes) && RoomFor(s, room + 1)
    ensures RoomFor(DrainRequestsSpec(s, now, ttl).0, room)
  {
  }

  lemma ResendRoom(s: ClientState, now: nat, ttl: nat, room: nat)
    requires ClientOk(s) && Shaped(s.core.kept) && RoomFor(s, room) && ResendSpec(s, now, ttl).Ok?
    ensures RoomFor(ResendSpec(s, now, ttl).value.0, room)
  {
    ResendingAlwaysFails(s, now, ttl);
    var s' := ResendSpec(s, now, ttl).value.0;
    assert s'.core.connected == s.core.connected && s'.core.lists == s.core.lists;
  }

  lemma ResendFails(s: ClientState, now: nat, ttl: nat)
    requires ClientOk(s) && Shaped(s.core.kept)
    ensures ResendSpec(s, now, ttl).Panic? <==> Late(s.core.kept.handshakes, now)
  {
    ResendingAlwaysFails(s, now, ttl);
  }

  lemma KeptAreRequests(s: ClientState)
    requires ClientOk(s)
    ensures forall i :: 0 <= i < |s.core.kept.handshakes| ==> s.core.kept.handshakes[i].message.ConnectionRequest?
  {
  }

  // The protocol's receive, with the event for an error, is the step.
  lemma ReceivedSpec(n: ClientNode, crc: Checksum, raw: RawPacket, now: nat, ttl: nat)
    requires n.phase == Sending
    ensures var (s', r) := OnReceivedSpec(n.state, crc, raw, now);
      && (r.Panic? <==> DecodeFor(ForClient, crc, raw, now).Panic?)
      && (r.Ok? ==> Receives(n, crc, raw, n.(state := s', phase := Phase.Received), now, ttl))
      && (r.Err? ==> Receives(n, crc, raw, n.(state := s'.(core := s'.core.(api := s'.core.api + [Fail(r.error)])), phase := Phase.Received), now, ttl))
  {
  }

  lemma HearingLeavesKept(s: ClientState, p: Packet<Packets.Received>)
    ensures ClientService.DriverReceive(s, p).core.kept == s.core.kept
  {
  }

  lemma ReceivesLeaveKept(n: ClientNode, crc: Checksum, raw: RawPacket, n': ClientNode, now: nat, ttl: nat)
    requires Receives(n, crc, raw, n', now, ttl)
    ensures n'.state.core.kept == n.state.core.kept
  {
    var decoded := DecodeFor(ForClient, crc, raw, now);
    if decoded.Ok? { HearingLeavesKept(n.state, decoded.value); }
  }

  lemma ReceivesKeeps(n: ClientNode, crc: Checksum, raw: RawPacket, n': ClientNode, now: nat, ttl: nat)
    requires ClientNodeOk(n) && Receives(n, crc, raw, n', now, ttl)
    ensures ClientNodeOk(n')
  {
    var decoded := DecodeFor(ForClient, crc, raw, now);
    if decoded.Ok? {
      ClientReceives.ClientStepKeeps(n, Receive(decoded.value), n', now, ttl);
    } else {
      CoreStepSteady(n.state, n'.state.core);
      QuietKeepsClient(n, n');
    }
  }

  // ---------------------------------------------------------------- the driver, in place

  class AntarcClient {
    const client: Client
    ghost var node: ClientNode
    // What the socket was given to send.
    var outgoing: seq<Packet<ToSend>>

    ghost predicate Coupled()
      reads this, client, client.protocol, client.protocol.scheduler, client.protocol.reliabilityHandler
    {
      node.state == client.View() && ClientNodeOk(node)
    }

    constructor ()
      ensures Coupled() && node == FRESH_CLIENT_NODE
    {
      client := new Client();
      outgoing := [];
      node := FRESH_CLIENT_NODE;
      new;
      FreshClientOk();
    }

    ghost function Now(): ClientStage
      reads this
    {
      Stage(node, outgoing)
    }

    // The first n phases of a poll were done.
    ghost predicate Done(path: seq<ClientStage>, n: nat, now: nat, ttl: nat)
      reads this
    {
      Sends(path, n, now, ttl) && path[n] == Now()
    }

    ghost predicate In(phase: Phase, room: nat)
      reads this, client, client.protocol, client.protocol.scheduler, client.protocol.reliabilityHandler
    {
      Coupled() && node.phase == phase && RoomFor(node.state, room)
    }

    // False stands for the failed `unwrap` of a request that is sent again.
    method PollRetryConnectionRequest(now: nat, ttl: nat) returns (ok: bool)
      requires In(Idle, 2)
      modifies this`node, this`outgoing, client, client.protocol, client.protocol.reliabilityHandler
      ensures !ok <==> Late(old(node).state.core.kept.handshakes, now)
      ensures ok ==> In(Sending, 2) && ClientStep(old(node), Resend, node, now, ttl)
      ensures ok ==> outgoing == old(outgoing) + ClientTransmits(old(node), Resend, now, ttl)
    {
      ListsFacts(node.state.core, ReliableData);
      KeptAreRequests(node.state);
      ResendFails(node.state, now, ttl);
      ghost var was := ResendSpec(node.state, now, ttl);
      if was.Ok? { ResendRoom(node.state, now, ttl, 2); }
      var sent;
      ok, sent := client.PollRetryConnectionRequest(now, ttl);
      if !ok { return; }
      outgoing := outgoing + sent;
      node := node.(state := client.View(), sent := node.sent + (set w | w in Wires(sent)), phase := Sending);
      ResendKeepsClient(old(node), Resend, node, now, ttl);
    }

    method PollRetryDataTransfer(now: nat, ttl: nat)
      requires In(Sending, 2)
      modifies this`node, this`outgoing, client, client.protocol, client.protocol.reliabilityHandler
      ensures In(Sending, 1)
      ensures ClientStep(old(node), ClientAction.Retry(KeptData), node, now, ttl)
      ensures outgoing == old(outgoing) + ClientTransmits(old(node), ClientAction.Retry(KeptData), now, ttl)
    {
      ListsFacts(node.state.core, ReliableData);
      RetryRoom(node.state, KeptData, now, ttl, 1);
      var sent := client.PollRetry(KeptData, now, ttl);
      outgoing := outgoing + sent;
      node := node.(state := client.View(), sent := node.sent + set w | w in Wires(sent));
      RetryKeepsClient(old(node), ClientAction.Retry(KeptData), node, now, ttl);
    }

    method PollConnectionRequest(now: nat, ttl: nat)
      requires In(Sending, 1)
      modifies this`node, this`outgoing, client, client.protocol, client.protocol.scheduler, client.protocol.reliabilityHandler
      ensures In(Sending, 0)
      ensures ClientStep(old(node), DrainRequests, node, now, ttl)
      ensures outgoing == old(outgoing) + ClientTransmits(old(node), DrainRequests, now, ttl)
    {
      CreatingNeverFails(node.state, Handshakes);
      RequestsRoom(node.state, now, ttl, 0);
      var sent := client.PollConnectionRequest(now, ttl);
      outgoing := outgoing + sent;
      node := Transmit(node, client.View(), sent);
      ClientReceives.RequestsKeepClient(old(node), DrainRequests, node, now, ttl);
    }

    // poll_unreliable_data_transfer and the five like it.
    method PollScheduled(l: ListId, now: nat, ttl: nat)
      requires In(Sending, 0) && l != Handshakes
      modifies this`node, this`outgoing, client, client.protocol, client.protocol.scheduler, client.protocol.reliabilityHandler
      ensures In(Sending, 0)
      ensures ClientStep(old(node), Drain(l), node, now, ttl)
      ensures outgoing == old(outgoing) + ClientTransmits(old(node), Drain(l), now, ttl)
    {
      ListsFacts(node.state.core, l);
      CreatingNeverFails(node.state, l);
      DrainRoom(node.state, l, now, ttl, 0);
      var sent := client.PollScheduled(l, now, ttl);
      outgoing := outgoing + sent;
      node := Transmit(node, client.View(), sent);
      DrainKeepsClient(old(node), Drain(l), node, now, ttl);
    }

    // Receive one datagram; an error becomes an event. False when it is too short to decode.
    method OnReceived(crc: Checksum, raw: RawPacket, now: nat, ttl: nat) returns (ok: bool)
      requires Coupled() && node.phase == Sending
      modifies this`node, client, client.protocol
      ensures !ok <==> DecodeFor(ForClient, crc, raw, now).Panic?
      ensures ok ==> Coupled() && Receives(old(node), crc, raw, node, now, ttl) && node.phase == Phase.Received
      ensures ok ==> node.state.core.kept == old(node).state.core.kept
    {
      ReceivedSpec(node, crc, raw, now, ttl);
      var r := client.OnReceived(crc, raw, now);
      if r.Panic? { return false; }
      if r.Err? { client.protocol.Push(Fail(r.error)); }
      node := node.(state := client.View(), phase := Phase.Received);
      ok := true;
      ReceivesKeeps(old(node), crc, raw, node, now, ttl);
      ReceivesLeaveKept(old(node), crc, raw, node, now, ttl);
    }

    // The end of a poll: expiry; the events are handed out.
    method Finish(now: nat, ttl: nat) returns (events: seq<ProtocolEvent>)
      requires Coupled() && node.phase == Phase.Received
      modifies this`node, client.protocol, client.protocol.reliabilityHandler
      ensures Coupled() && node.phase == Idle && ClientStep(old(node), Poll, node, now, ttl)
      ensures events == old(node).state.core.api
    {
      events := client.Poll(now);
      node := node.(state := client.View(), phase := Idle);
      PollKeepsClient(old(node), Poll, node, now, ttl);
    }

    // One poll. First it sends: a late data transfer once more, then everything that was scheduled,
    // list by list, until all lists are empty; what was reliable of it is kept. Then it receives one
    // datagram, whatever it is, and expires. It fails exactly when the newest request kept is late
    // enough to be sent again, or the datagram is too short.
    method PollOnce(crc: Checksum, raw: RawPacket, now: nat, ttl: nat)
        returns (ok: bool, events: seq<ProtocolEvent>, ghost path: seq<ClientStage>)
      requires In(Idle, 2)
      modifies this`node, this`outgoing, client, client.protocol, client.protocol.scheduler, client.protocol.reliabilityHandler
      ensures ok ==> Coupled() && node.phase == Idle
      ensures var late := Late(old(node).state.core.kept.handshakes, now);
        && (!ok <==> late || DecodeFor(ForClient, crc, raw, now).Panic?)
        && (!late ==> Sends(path, PHASES, now, ttl) && path[0] == old(Now()) && path[PHASES].sent == outgoing)
        && (!late ==> old(outgoing) <= outgoing && PollSent(old(node), path[PHASES].node, Wires(outgoing[|old(outgoing)|..]), now, ttl))
      ensures ok ==> Expires(path[PHASES].node.state.core.kept, node.state.core.kept)
      ensures ok ==> exists received ::
        && Receives(path[PHASES].node, crc, raw, received, now, ttl)
        && ClientStep(received, Poll, node, now, ttl)
        && events == received.state.core.api
      ensures var decoded := DecodeFor(ForClient, crc, raw, now);
        ok && decoded.Err? ==> events == old(node).state.core.api + [Fail(decoded.error)]
    {
      events := [];
      ok, path := SendAll(now, ttl);
      if !ok { return; }
      PollSends(path, now, ttl);
      ok, events := Hear(crc, raw, now, ttl);
    }

    // The receiving half.
    method Hear(crc: Checksum, raw: RawPacket, now: nat, ttl: nat) returns (ok: bool, events: seq<ProtocolEvent>)
      requires Coupled() && node.phase == Sending
      modifies this`node, client, client.protocol, client.protocol.reliabilityHandler
      ensures !ok <==> DecodeFor(ForClient, crc, raw, now).Panic?
      ensures ok ==> Coupled() && node.phase == Idle
      ensures ok ==> Expires(old(node).state.core.kept, node.state.core.kept)
      ensures ok ==> exists received ::
        && Receives(old(node), crc, raw, received, now, ttl)
        && ClientStep(received, Poll, node, now, ttl)
        && events == received.state.core.api
      ensures var decoded := DecodeFor(ForClient, crc, raw, now);
        ok && decoded.Err? ==> events == old(node).state.core.api + [Fail(decoded.error)]
    {
      events := [];
      ok := OnReceived(crc, raw, now, ttl);
      if !ok { return; }
      ghost var received := node;
      events := Finish(now, ttl);
      assert Receives(old(node), crc, raw, received, now, ttl);
      PollExpires(received.state.core.kept);
    }

    method SendAll(now: nat, ttl: nat) returns (ok: bool, ghost path: seq<ClientStage>)
      requires In(Idle, 2)
      modifies this`node, this`outgoing, client, client.protocol, client.protocol.scheduler, client.protocol.reliabilityHandler
      ensures !ok <==> Late(old(node).state.core.kept.handshakes, now)
      ensures ok ==> In(Sending, 0) && Done(path, PHASES, now, ttl) && path[0] == old(Now())
    {
      PhaseActions();
      ok, path := SendHandshakes(now, ttl);
      if !ok { return; }
      path := SendPayloads(path, now, ttl);
      path := SendPair(UnreliableHeartbeats, ReliableHeartbeats, path, 7, now, ttl);
    }

    method SendPayloads(ghost before: seq<ClientStage>, now: nat, ttl: nat) returns (ghost path: seq<ClientStage>)
      requires In(Sending, 0) && Done(before, 3, now, ttl)
      modifies this`node, this`outgoing, client, client.protocol, client.protocol.scheduler, client.protocol.reliabilityHandler
      ensures In(Sending, 0) && Done(path, 7, now, ttl) && path[0] == before[0]
    {
      PhaseActions();
      path := SendPair(UnreliableData, ReliableData, before, 3, now, ttl);
      path := SendPair(UnreliableFragments, ReliableFragments, path, 5, now, ttl);
    }

    method SendHandshakes(now: nat, ttl: nat) returns (ok: bool, ghost path: seq<ClientStage>)
      requires In(Idle, 2)
      modifies this`node, this`outgoing, client, client.protocol, client.protocol.scheduler, client.protocol.reliabilityHandler
      ensures !ok <==> Late(old(node).state.core.kept.handshakes, now)
      ensures ok ==> In(Sending, 0) && Done(path, 3, now, ttl) && path[0] == old(Now())
    {
      ok, path := ResendPhase(now, ttl);
      if !ok { return; }
      path := RetryPhase(path, now, ttl);
      path := RequestPhase(path, now, ttl);
    }

    method ResendPhase(now: nat, ttl: nat) returns (ok: bool, ghost path: seq<ClientStage>)
      requires In(Idle, 2)
      modifies this`node, this`outgoing, client, client.protocol, client.protocol.reliabilityHandler
      ensures !ok <==> Late(old(node).state.core.kept.handshakes, now)
      ensures ok ==> In(Sending, 2) && Done(path, 1, now, ttl) && path[0] == old(Now())
    {
      path := [Now()];
      ok := PollRetryConnectionRequest(now, ttl);
      if !ok { return; }
      OneMore(path, 0, Now(), now, ttl);
      path := path + [Now()];
    }

    method RetryPhase(ghost before: seq<ClientStage>, now: nat, ttl: nat) returns (ghost path: seq<ClientStage>)
      requires In(Sending, 2) && Done(before, 1, now, ttl)
      modifies this`node, this`outgoing, client, client.protocol, client.protocol.reliabilityHandler
      ensures In(Sending, 1) && Done(path, 2, now, ttl) && path[0] == before[0]
    {
      PollRetryDataTransfer(now, ttl);
      OneMore(before, 1, Now(), now, ttl);
      path := before + [Now()];
    }

    method RequestPhase(ghost before: seq<ClientStage>, now: nat, ttl: nat) returns (ghost path: seq<ClientStage>)
      requires In(Sending, 1) && Done(before, 2, now, ttl)
      modifies this`node, this`outgoing, client, client.protocol, client.protocol.scheduler, client.protocol.reliabilityHandler
      ensures In(Sending, 0) && Done(path, 3, now, ttl) && path[0] == before[0]
    {
      PollConnectionRequest(now, ttl);
      OneMore(before, 2, Now(), now, ttl);
      path := before + [Now()];
    }

    // The unreliable packets of a kind, then the reliable ones.
    method SendPair(l: ListId, m: ListId, ghost before: seq<ClientStage>, ghost i: nat, now: nat, ttl: nat) returns (ghost path: seq<ClientStage>)
      requires In(Sending, 0) && Done(before, i, now, ttl) && l != Handshakes && m != Handshakes
      requires i + 1 < PHASES && PhaseAction(i) == Drain(l) && PhaseAction(i + 1) == Drain(m)
      modifies this`node, this`outgoing, client, client.protocol, client.protocol.scheduler, client.protocol.reliabilityHandler
      ensures In(Sending, 0) && Done(path, i + 2, now, ttl) && path[0] == before[0]
    {
      path := SendPhase(l, before, i, now, ttl);
      path := SendPhase(m, path, i + 1, now, ttl);
    }

    method SendPhase(l: ListId, ghost before: seq<ClientStage>, ghost i: nat, now: nat, ttl: nat) returns (ghost path: seq<ClientStage>)
      requires In(Sending, 0) && Done(before, i, now, ttl) && l != Handshakes && i < PHASES && PhaseAction(i) == Drain(l)
      modifies this`node, this`outgoing, client, client.protocol, client.protocol.scheduler, client.protocol.reliabilityHandler
      ensures In(Sending, 0) && Done(path, i + 1, now, ttl) && path[0] == before[0]
    {
      PollScheduled(l, now, ttl);
      OneMore(before, i, Now(), now, ttl);
      path := before + [Now()];
    }
  }

  // ---------------------------------------------------------------- what the phases achieve

  // A late data transfer is sent again, then all lists. The newest request kept is dropped.
  ghost predicate PollSent(n: ClientNode, n': ClientNode, all: seq<Wire>, now: nat, ttl: nat) {
    var kept := n.state.core.kept;
    SentAll(n.state.core, Kept(KeptAgain(kept.data, now, ttl), kept.fragments, kept.heartbeats, Front(kept.handshakes)),
      n.first, n'.state.core, n'.first, Again(kept.data, now), all, now, ttl)
  }

  // A phase that drains.
  ghost predicate Drains(a: ClientStage, b: ClientStage, l: ListId, ws: seq<Wire>, now: nat, ttl: nat) {
    && DrainDoes(a.node.state.core, b.node.state.core, l, ws, now, ttl)
    && Puts(a.sent, b.sent, ws) && b.node.first == a.node.first + ws
  }

  lemma DrainAt(path: seq<ClientStage>, i: nat, l: ListId, now: nat, ttl: nat) returns (ws: seq<Wire>)
    requires Sends(path, PHASES, now, ttl) && i < PHASES && l != Handshakes && PhaseAction(i) == Drain(l)
    ensures Drains(path[i], path[i + 1], l, ws, now, ttl)
  {
    assert PhaseAt(PhaseOf(now, ttl), path, i);
    ClientDrainDoes(path[i].node, l, path[i + 1].node, now, ttl);
    var out := ClientTransmits(path[i].node, Drain(l), now, ttl);
    PutsOut(path[i].sent, path[i + 1].sent, out);
    ws := Wires(out);
  }

  lemma RequestsAt(path: seq<ClientStage>, now: nat, ttl: nat) returns (ws: seq<Wire>)
    requires Sends(path, PHASES, now, ttl)
    ensures Drains(path[2], path[3], Handshakes, ws, now, ttl)
  {
    assert PhaseAt(PhaseOf(now, ttl), path, 2);
    ClientRequestsDo(path[2].node, path[3].node, now, ttl);
    var out := ClientTransmits(path[2].node, DrainRequests, now, ttl);
    PutsOut(path[2].sent, path[3].sent, out);
    ws := Wires(out);
  }

  lemma ResendAt(path: seq<ClientStage>, now: nat, ttl: nat)
    requires Sends(path, PHASES, now, ttl) && ClientNodeOk(path[0].node)
    ensures var core, core' := path[0].node.state.core, path[1].node.state.core;
      && core'.lists == core.lists && core'.kept == core.kept.(handshakes := Front(core.kept.handshakes))
      && OnlySequences(core, core')
    ensures path[1].node.first == path[0].node.first && path[1].sent == path[0].sent && ClientNodeOk(path[1].node)
  {
    assert PhaseAt(PhaseOf(now, ttl), path, 0);
    ClientResendDoes(path[0].node, path[1].node, now, ttl);
    ResendKeepsClient(path[0].node, Resend, path[1].node, now, ttl);
  }

  lemma RetryAt(path: seq<ClientStage>, now: nat, ttl: nat) returns (ws: seq<Wire>)
    requires Sends(path, PHASES, now, ttl) && ClientNodeOk(path[1].node)
    ensures RetryDoes(path[1].node.state.core, path[2].node.state.core, KeptData, ws, now, ttl)
    ensures Puts(path[1].sent, path[2].sent, ws) && path[2].node.first == path[1].node.first
  {
    assert PhaseAt(PhaseOf(now, ttl), path, 1);
    ClientRetryDoes(path[1].node, KeptData, path[2].node, now, ttl);
    var out := ClientTransmits(path[1].node, ClientAction.Retry(KeptData), now, ttl);
    PutsOut(path[1].sent, path[2].sent, out);
    ws := Wires(out);
  }

  lemma DrainsDo(s0: ClientStage, s1: ClientStage, s2: ClientStage, s3: ClientStage, s4: ClientStage, s5: ClientStage, s6: ClientStage, s7: ClientStage,
      w1: seq<Wire>, w2: seq<Wire>, w3: seq<Wire>, w4: seq<Wire>, w5: seq<Wire>, w6: seq<Wire>, w7: seq<Wire>, now: nat, ttl: nat)
    requires Drains(s0, s1, Handshakes, w1, now, ttl)
    requires Drains(s1, s2, UnreliableData, w2, now, ttl) && Drains(s2, s3, ReliableData, w3, now, ttl)
    requires Drains(s3, s4, UnreliableFragments, w4, now, ttl) && Drains(s4, s5, ReliableFragments, w5, now, ttl)
    requires Drains(s5, s6, UnreliableHeartbeats, w6, now, ttl) && Drains(s6, s7, ReliableHeartbeats, w7, now, ttl)
    ensures var ws := w1 + w2 + w3 + w4 + w5 + w6 + w7;
      && Puts(s0.sent, s7.sent, ws) && s7.node.first == s0.node.first + ws
      && DrainedAll(s0.node.state.core, s7.node.state.core, ws, now, ttl)
  {
    DrainsAll(s0.node.state.core, s1.node.state.core, s2.node.state.core, s3.node.state.core, s4.node.state.core,
      s5.node.state.core, s6.node.state.core, s7.node.state.core, w1, w2, w3, w4, w5, w6, w7, now, ttl);
    PutsAll(s0.sent, s1.sent, s2.sent, s3.sent, s4.sent, s5.sent, s6.sent, s7.sent, w1, w2, w3, w4, w5, w6, w7);
    RegroupAll(s0.node.first, w1, w2, w3, w4, w5, w6, w7);
  }

  lemma DataAt(path: seq<ClientStage>, now: nat, ttl: nat) returns (ws: seq<Wire>, vs: seq<Wire>)
    requires Sends(path, PHASES, now, ttl)
    ensures Drains(path[3], path[4], UnreliableData, ws, now, ttl) && Drains(path[4], path[5], ReliableData, vs, now, ttl)
  {
    PhaseActions();
    ws := DrainAt(path, 3, UnreliableData, now, ttl);
    vs := DrainAt(path, 4, ReliableData, now, ttl);
  }

  lemma FragmentsAt(path: seq<ClientStage>, now: nat, ttl: nat) returns (ws: seq<Wire>, vs: seq<Wire>)
    requires Sends(path, PHASES, now, ttl)
    ensures Drains(path[5], path[6], UnreliableFragments, ws, now, ttl) && Drains(path[6], path[7], ReliableFragments, vs, now, ttl)
  {
    PhaseActions();
    ws := DrainAt(path, 5, UnreliableFragments, now, ttl);
    vs := DrainAt(path, 6, ReliableFragments, now, ttl);
  }

  lemma HeartbeatsAt(path: seq<ClientStage>, now: nat, ttl: nat) returns (ws: seq<Wire>, vs: seq<Wire>)
    requires Sends(path, PHASES, now, ttl)
    ensures Drains(path[7], path[8], UnreliableHeartbeats, ws, now, ttl) && Drains(path[8], path[9], ReliableHeartbeats, vs, now, ttl)
  {
    PhaseActions();
    ws := DrainAt(path, 7, UnreliableHeartbeats, now, ttl);
    vs := DrainAt(path, 8, ReliableHeartbeats, now, ttl);
  }

  lemma PathRetries(path: seq<ClientStage>, now: nat, ttl: nat) returns (again: seq<Wire>)
    requires Sends(path, PHASES, now, ttl) && ClientNodeOk(path[0].node)
    ensures Puts(path[0].sent, path[2].sent, again) && path[2].node.first == path[0].node.first
    ensures RetriedData(path[0].node.state.core, path[2].node.state.core, again, now, ttl)
  {
    ResendAt(path, now, ttl);
    again := RetryAt(path, now, ttl);
  }

  lemma PathDrains(path: seq<ClientStage>, now: nat, ttl: nat) returns (ws: seq<Wire>)
    requires Sends(path, PHASES, now, ttl)
    ensures Puts(path[2].sent, path[9].sent, ws) && path[9].node.first == path[2].node.first + ws
    ensures DrainedAll(path[2].node.state.core, path[9].node.state.core, ws, now, ttl)
  {
    var w2 := RequestsAt(path, now, ttl);
    var w3, w4 := DataAt(path, now, ttl);
    var w5, w6 := FragmentsAt(path, now, ttl);
    var w7, w8 := HeartbeatsAt(path, now, ttl);
    DrainsDo(path[2], path[3], path[4], path[5], path[6], path[7], path[8], path[9], w2, w3, w4, w5, w6, w7, w8, now, ttl);
    ws := w2 + w3 + w4 + w5 + w6 + w7 + w8;
  }

  // The nine phases, from any state of a client.
  lemma PollSends(path: seq<ClientStage>, now: nat, ttl: nat)
    requires Sends(path, PHASES, now, ttl) && ClientNodeOk(path[0].node)
    ensures |path| == 10 && path[0].sent <= path[9].sent
    ensures PollSent(path[0].node, path[9].node, Wires(path[9].sent[|path[0].sent|..]), now, ttl)
  {
    var again := PathRetries(path, now, ttl);
    var ws := PathDrains(path, now, ttl);
    PutsBoth(path[0].sent, path[2].sent, path[9].sent, again, ws);
    SentInAll(path[0].node.state.core, path[2].node.state.core, path[9].node.state.core, path[2].node.first, again, ws, now, ttl);
  }
}
