// Payloads of one packet, from end to end: what becomes of the data transfers that are delivered.
module DataTransfers {
  import opened Packets
  import opened Peers
  import opened Endpoint
  import opened Discipline
  import opened AntarcSystem
  import opened SystemRuns
  import opened Deliveries
  import opened Origins
  import opened Fragments
  import ServerService
  import ClientService
  import SN = ServerNodes
  import CN = ClientNodes
  import ServerSteps

  // Every data transfer that reaches the server is handed on, and is a payload that was scheduled
  // whole: the sending client's record has it under one operation.
  lemma ServerHandsOnAll(ys: seq<System>, i: nat, from: SocketAddr, w: Wire, now: nat)
    requires IsRun(ys) && i < |ys| && from in ys[i].clients && w in ys[i].clients[from].sent && w.message.DataTransfer?
    ensures var s, p := ys[i].server.state, Delivery(w, from, now);
      && SN.Known(s, w.message.connectionId) && SN.Link(s, w.message.connectionId).address == from
      && ServerService.DriverReceive(s, p, now).core.api == s.core.api + [Delivered(w.message.connectionId, w.message.payload)]
    ensures OriginIs(ys[i].clients[from].state.core.lists, ys[i].clients[from].first, w.packetId, w.message.payload)
  {
    ClientIsSound(ys, i, from);
    WireOfPeer(ys, i, from, w);
    KnownIsHanded(ys[i].server.state, Delivery(w, from, now), now);
    WholeSent(ys[i].clients[from], w);
  }

  lemma WireOfPeer(ys: seq<System>, i: nat, from: SocketAddr, w: Wire)
    requires IsRun(ys) && i < |ys| && from in ys[i].clients && w in ys[i].clients[from].sent && w.message.DataTransfer?
    ensures w in ys[i].clients[from].first
    ensures SN.Known(ys[i].server.state, w.message.connectionId)
    ensures SN.Link(ys[i].server.state, w.message.connectionId).address == from
  {
    EveryState(ys, i);
    assert ClientInv(ys[i], from);
    ServerSteps.SenderFacts(ys[i].server, from, ys[i].clients[from], ys[i].serverAddress, w);
  }

  lemma KnownIsHanded(s: ServerService.ServerState, p: Packet<Received>, now: nat)
    requires p.message.DataTransfer? && SN.Known(s, p.message.connectionId)
    ensures ServerService.DriverReceive(s, p, now).core.api == s.core.api + [Delivered(p.message.connectionId, p.message.payload)]
  {
  }

  lemma WholeSent(c: CN.ClientNode, w: Wire)
    requires OriginsOk(c.state.core.lists, c.first, c.oversized) && w in c.first && w.message.DataTransfer?
    ensures OriginIs(c.state.core.lists, c.first, w.packetId, w.message.payload)
  {
    assert HasOrigin(c.state.core.lists, c.first, c.oversized, w.packetId);
    var payload :| OriginIs(c.state.core.lists, c.first, w.packetId, payload) && Sized(payload, c.oversized);
    WholePayload(payload, w.message);
  }

  // A client hands on the payload of the data transfer it hears at this step.
  ghost predicate HandsOn(ys: seq<System>, steps: seq<Step>, i: nat, a: SocketAddr)
    requires |ys| == |steps| + 1 && i < |steps|
  {
    && steps[i].action.ClientHears? && steps[i].action.to == a
    && steps[i].action.wire.message.DataTransfer?
    && a in ys[i].clients && a in ys[i + 1].clients
    && ys[i + 1].clients[a].state.core.api == ys[i].clients[a].state.core.api
         + [Delivered(steps[i].action.wire.message.connectionId, steps[i].action.wire.message.payload)]
  }

  // Only the packet that connects the client is handed on ...
  lemma HandsOnConnects(ys: seq<System>, steps: seq<Step>, i: nat, a: SocketAddr)
    requires Trace(ys, steps) && i < |steps|
    requires steps[i].action.ClientHears? && steps[i].action.to == a && steps[i].action.wire.message.DataTransfer?
    ensures a in ys[i].clients && a in ys[i + 1].clients
    ensures HandsOn(ys, steps, i, a) <==>
      steps[i].action.wire.message.connectionId !in ys[i].clients[a].state.core.connected && ys[i].serverAddress in ys[i].clients[a].state.awaiting
    ensures HandsOn(ys, steps, i, a) ==> steps[i].action.wire.message.connectionId in ys[i + 1].clients[a].state.core.connected
  {
    assert Follow(ys, steps, i);
    ClientPart(ys[i], steps[i].action, ys[i + 1], steps[i].now);
  }

  // ... so a client hands on one data transfer in its whole life, at most: a connected client
  // takes in the acks of all later ones and drops their payloads.
  lemma OneDataTransferAtMost(ys: seq<System>, steps: seq<Step>, i: nat, j: nat, a: SocketAddr)
    requires Trace(ys, steps) && i < j < |steps| && HandsOn(ys, steps, i, a)
    ensures !HandsOn(ys, steps, j, a)
  {
    TraceIsRun(ys, steps);
    HandsOnConnects(ys, steps, i, a);
    LaterStates(ys, i + 1, j);
    assert ClientGrows(ys[i + 1].clients[a], ys[j].clients[a]);
    NotAwaiting(ys, j, a, steps[i].action.wire.message.connectionId);
    if steps[j].action.ClientHears? && steps[j].action.to == a && steps[j].action.wire.message.DataTransfer? {
      HandsOnConnects(ys, steps, j, a);
    }
  }

  lemma NotAwaiting(ys: seq<System>, i: nat, a: SocketAddr, id: ConnectionId)
    requires IsRun(ys) && i < |ys| && a in ys[i].clients && id in ys[i].clients[a].state.core.connected
    ensures ys[i].serverAddress !in ys[i].clients[a].state.awaiting
  {
    EveryState(ys, i);
    assert ClientInv(ys[i], a);
    assert CN.ConnectedAt(ys[i].clients[a].state, id, ys[i].serverAddress);
  }
}
