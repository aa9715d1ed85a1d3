// Fragments from end to end: what the fragments that one node sends another come to, over a whole
// run in which none is delivered twice.
module Deliveries {
  import opened Packets
  import opened Fragments
  import opened Reassembly
  import opened Peers
  import opened Scheduler
  import opened Endpoint
  import opened LocalState
  import opened Discipline
  import opened Origins
  import opened Reassemblers
  import opened Arrivals
  import opened AntarcSystem
  import opened SystemRuns
  import ServerService
  import ClientService
  import SN = ServerNodes
  import CN = ClientNodes
  import ServerSteps

  // ---------------------------------------------------------------- what is stored, at any time

  // A group in a reassembler: fragments of its sequence that the other side sent, with one total,
  // and fewer than that.
  ghost predicate GroupSound(first: seq<Wire>, a: SocketAddr, oversized: bool, q: Sequence, g: Group) {
    && g != []
    && (forall i :: 0 <= i < |g| ==> g[i].sequence == q && SentTo(first, a, g[i]))
    && (!oversized ==> |g| < g[0].message.total && forall i :: 0 <= i < |g| ==> g[i].message.total == g[0].message.total)
  }

  lemma StoredIsSound(lists: Lists, first: seq<Wire>, a: SocketAddr, oversized: bool, r: Reassembler, q: Sequence)
    requires Stored(first, a, oversized, r) && WellKeyed(r) && Sound(lists, first, oversized) && q in r
    ensures GroupSound(first, a, oversized, q, r[q])
  {
    var g := r[q];
    assert GroupOk(first, a, oversized, g);
    forall i | 0 <= i < |g| ensures SentTo(first, a, g[i]) && (!oversized ==> g[i].message.total == g[0].message.total) {
      assert g[i] in g && g[0] in g;
      if !oversized { SameTotal(lists, first, a, g[0], g[i]); }
    }
  }

  lemma ServerReassemblers(ys: seq<System>, i: nat, id: ConnectionId, q: Sequence)
    requires IsRun(ys) && i < |ys| && id in ys[i].server.state.core.connected
    requires q in ReassemblerOf(ys[i].server.state.core.connected, id)
    ensures var a := ys[i].server.state.core.connected[id].address;
      a in ys[i].clients &&
      GroupSound(ys[i].clients[a].first, ys[i].serverAddress, ys[i].clients[a].oversized, q, ReassemblerOf(ys[i].server.state.core.connected, id)[q])
  {
    EveryState(ys, i);
    var a := ys[i].server.state.core.connected[id].address;
    assert ServerStored(ys[i], id) && ClientInv(ys[i], a) && ClientOrigins(ys[i].clients[a]);
    var c := ys[i].clients[a];
    StoredIsSound(c.state.core.lists, c.first, ys[i].serverAddress, c.oversized, ReassemblerOf(ys[i].server.state.core.connected, id), q);
  }

  lemma ClientReassemblers(ys: seq<System>, i: nat, a: SocketAddr, id: ConnectionId, q: Sequence)
    requires IsRun(ys) && i < |ys| && a in ys[i].clients && id in ys[i].clients[a].state.core.connected
    requires q in ReassemblerOf(ys[i].clients[a].state.core.connected, id)
    ensures GroupSound(ys[i].server.first, a, ys[i].server.oversized, q, ReassemblerOf(ys[i].clients[a].state.core.connected, id)[q])
  {
    EveryState(ys, i);
    assert ClientStored(ys[i], a, id) && ClientInv(ys[i], a);
    var s := ys[i].server;
    StoredIsSound(s.state.core.lists, s.first, a, s.oversized, ReassemblerOf(ys[i].clients[a].state.core.connected, id), q);
  }

  // ---------------------------------------------------------------- a run and its steps

  datatype Step = Step(action: Action, now: nat)

  ghost predicate Follow(ys: seq<System>, steps: seq<Step>, i: nat)
    requires i < |steps| && |ys| == |steps| + 1
  {
    Next(ys[i], steps[i].action, ys[i + 1], steps[i].now)
  }

  ghost predicate Trace(ys: seq<System>, steps: seq<Step>) {
    && |ys| == |steps| + 1
    && Init(ys[0])
    && forall i: nat :: i < |steps| ==> Follow(ys, steps, i)
  }

  lemma TraceIsRun(ys: seq<System>, steps: seq<Step>)
    requires Trace(ys, steps)
    ensures IsRun(ys)
  {
    forall i: nat | i < |ys| - 1 ensures StepAt(ys, i) {
      assert Follow(ys, steps, i);
    }
  }

  // ---------------------------------------------------------------- the server's reassemblers

  // What a step does to the server's reassembler for one peer.
  ghost function ServerEvents(y: System, step: Step, y': System, id: ConnectionId): (es: seq<Event>)
    ensures |es| <= 1
  {
    match step.action
    case ServerHears(from, w) =>
      if w.message.Fragment? && w.message.connectionId == id && id in y'.server.state.core.connected
      then [Arrive(Delivery(w, from, step.now))] else []
    case ServerActs(act) => if act.Poll? then Dropped(ReassemblerOf(y.server.state.core.connected, id), ReassemblerOf(y'.server.state.core.connected, id)) else []
    case _ => []
  }

  ghost function Dropped(r: Reassembler, r': Reassembler): seq<Event> {
    if q: Sequence :| q in r && q !in r' then [Evict(q)] else []
  }

  ghost function ServerStepEvents(ys: seq<System>, steps: seq<Step>, id: ConnectionId): (es: StepEvents)
    requires |ys| == |steps| + 1
    ensures |es| == |steps|
  {
    seq(|steps|, i requires 0 <= i < |steps| => ServerEvents(ys[i], steps[i], ys[i + 1], id))
  }

  ghost function ServerHistory(ys: seq<System>, id: ConnectionId): seq<Reassembler> {
    seq(|ys|, i requires 0 <= i < |ys| => ReassemblerOf(ys[i].server.state.core.connected, id))
  }

  const NO_WIRE := Wire(0, SocketAddr(0, 0), 1, 0, ConnectionRequest)

  function HeardWire(step: Step): Wire {
    match step.action
    case ServerHears(_, w) => w
    case ClientHears(_, w) => w
    case _ => NO_WIRE
  }

  function HeardWires(steps: seq<Step>): seq<Wire> {
    seq(|steps|, i requires 0 <= i < |steps| => HeardWire(steps[i]))
  }

  lemma PollDrops(c: ConnectedPeers, now: nat, c': ConnectedPeers, id: ConnectionId)
    requires ReassemblersKeyed(c) && PolledPeers(c, now, c')
    ensures var r, r' := ReassemblerOf(c, id), ReassemblerOf(c', id); r' == After(r, Dropped(r, r'))
    ensures forall e :: e in Dropped(ReassemblerOf(c, id), ReassemblerOf(c', id)) ==> e.Evict? && e.q in ReassemblerOf(c, id)
  {
    var r, r' := ReassemblerOf(c, id), ReassemblerOf(c', id);
    if id in c && exists q :: q in r && Fresh(r[q], now) && r' == r - {q} {
      var q :| q in r && Fresh(r[q], now) && r' == r - {q};
      assert q in r && q !in r';
      assert Dropped(r, r') == [Evict(q)];
    }
  }

  // A poll of the server, in any run: a peer loses at most one group, whose newest fragment came less
  // than a second before; groups that are older stay, and so does everything else.
  lemma PollDropsYoung(ys: seq<System>, i: nat, polled: ConnectedPeers, now: nat, id: ConnectionId)
    requires IsRun(ys) && i + 1 < |ys| && Next(ys[i], ServerActs(SN.Poll(polled)), ys[i + 1], now)
    ensures var r, r' := ReassemblerOf(ys[i].server.state.core.connected, id), ReassemblerOf(ys[i + 1].server.state.core.connected, id);
      WellKeyed(r) && OneYoungGone(r, now, r')
  {
    EveryState(ys, i);
    ServerPart(ys[i], ServerActs(SN.Poll(polled)), ys[i + 1], now);
    PolledDropsYoung(ys[i].server.state.core.connected, now, ys[i + 1].server.state.core.connected, id);
  }

  lemma PolledDropsYoung(c: ConnectedPeers, now: nat, c': ConnectedPeers, id: ConnectionId)
    requires ReassemblersKeyed(c) && PolledPeers(c, now, c')
    ensures WellKeyed(ReassemblerOf(c, id)) && OneYoungGone(ReassemblerOf(c, id), now, ReassemblerOf(c', id))
  {
    if id in c { EvictsOneYoung(ReassemblerOf(c, id), now, ReassemblerOf(c', id)); }
  }

  ghost predicate ServerExplained(y: System, step: Step, y': System, id: ConnectionId) {
    var r, es := ReassemblerOf(y.server.state.core.connected, id), ServerEvents(y, step, y', id);
    && ReassemblerOf(y'.server.state.core.connected, id) == After(r, es)
    && (es != [] && es[0].Evict? ==> es[0].q in r)
  }

  lemma ServerHearsEvents(y: System, step: Step, y': System, id: ConnectionId)
    requires Inv(y) && Next(y, step.action, y', step.now) && step.action.ServerHears?
    ensures ServerExplained(y, step, y', id)
  {
    var a := step.action;
    NextGrows(y, a, y', step.now);
    ServerPart(y, a, y', step.now);
    ServerTakesIn(y.server.state, Delivery(a.wire, a.from, step.now), step.now);
    TakenInIs(y.server.state.core.connected, y'.server.state.core.connected, Delivery(a.wire, a.from, step.now), id);
  }

  lemma TakenInIs(c: ConnectedPeers, c': ConnectedPeers, p: Packet<Received>, id: ConnectionId)
    requires TakesIn(c, c', p) && (id in c ==> id in c')
    ensures ReassemblerOf(c', id) == if p.message.Fragment? && p.message.connectionId == id && id in c'
      then Absorb(ReassemblerOf(c, id), p).0 else ReassemblerOf(c, id)
  {
  }

  lemma ServerActsEvents(y: System, step: Step, y': System, id: ConnectionId)
    requires Inv(y) && Next(y, step.action, y', step.now) && step.action.ServerActs?
    ensures ServerExplained(y, step, y', id)
  {
    var act := step.action.act;
    ServerPart(y, step.action, y', step.now);
    if act.Poll? {
      PollDrops(y.server.state.core.connected, step.now, y'.server.state.core.connected, id);
    } else {
      ServerLeavesThem(y.server, act, y'.server, step.now, y.ttl);
    }
  }

  lemma ServerStepExplained(y: System, step: Step, y': System, id: ConnectionId)
    requires Inv(y) && Next(y, step.action, y', step.now)
    ensures ServerExplained(y, step, y', id)
  {
    match step.action {
      case ServerHears(_, _) => ServerHearsEvents(y, step, y', id);
      case ServerActs(_) => ServerActsEvents(y, step, y', id);
      case _ => ClientsLeaveServer(y, step, y', id);
    }
  }

  lemma ClientsLeaveServer(y: System, step: Step, y': System, id: ConnectionId)
    requires Next(y, step.action, y', step.now) && (step.action.ClientActs? || step.action.ClientHears?)
    ensures ServerExplained(y, step, y', id)
  {
  }

  lemma ServerEventsAt(ys: seq<System>, steps: seq<Step>, i: nat, id: ConnectionId)
    requires Trace(ys, steps) && i < |steps|
    ensures ServerExplained(ys[i], steps[i], ys[i + 1], id)
  {
    TraceIsRun(ys, steps);
    EveryState(ys, i);
    assert Follow(ys, steps, i);
    ServerStepExplained(ys[i], steps[i], ys[i + 1], id);
  }

  lemma NobodyYet(y: System, id: ConnectionId)
    requires Init(y)
    ensures ReassemblerOf(y.server.state.core.connected, id) == map[]
  {
  }

  lemma ServerExplains(ys: seq<System>, steps: seq<Step>, id: ConnectionId, i: nat)
    requires Trace(ys, steps) && i < |steps|
    ensures Explains(ServerHistory(ys, id), ServerStepEvents(ys, steps, id), i)
  {
    ServerEventsAt(ys, steps, i, id);
    ServerHistoryAt(ys, steps, id, i);
  }

  lemma ServerHistoryAt(ys: seq<System>, steps: seq<Step>, id: ConnectionId, i: nat)
    requires |ys| == |steps| + 1 && i < |steps| && ServerExplained(ys[i], steps[i], ys[i + 1], id)
    ensures Explains(ServerHistory(ys, id), ServerStepEvents(ys, steps, id), i)
  {
    var es := ServerStepEvents(ys, steps, id);
    assert es[i] == ServerEvents(ys[i], steps[i], ys[i + 1], id);
  }

  lemma ServerIsHistory(ys: seq<System>, steps: seq<Step>, id: ConnectionId)
    requires Trace(ys, steps)
    ensures ReassemblerOf(ys[|steps|].server.state.core.connected, id) == Run(Concat(ServerStepEvents(ys, steps, id))).r
    ensures EvictsStored(Concat(ServerStepEvents(ys, steps, id)))
  {
    ServerAllExplained(ys, steps, id);
    HistoryOfSteps(ServerHistory(ys, id), ServerStepEvents(ys, steps, id));
  }

  lemma ServerAllExplained(ys: seq<System>, steps: seq<Step>, id: ConnectionId)
    requires Trace(ys, steps)
    ensures AllExplained(ServerHistory(ys, id), ServerStepEvents(ys, steps, id))
  {
    NobodyYet(ys[0], id);
    forall i: nat | i < |steps| ensures Explains(ServerHistory(ys, id), ServerStepEvents(ys, steps, id), i) {
      ServerExplains(ys, steps, id, i);
    }
  }

  // No fragment reaches the server twice.
  ghost predicate ServerHearsOnce(steps: seq<Step>) {
    forall i, j :: 0 <= i < j < |steps| && steps[i].action.ServerHears? && steps[i].action.wire.message.Fragment? ==>
      steps[i].action != steps[j].action
  }

  lemma PeerIsClient(ys: seq<System>, i: nat, id: ConnectionId)
    requires IsRun(ys) && i < |ys| && id in ys[i].server.state.core.connected
    ensures ys[i].server.state.core.connected[id].address in ys[i].clients
  {
    EveryState(ys, i);
    assert SN.Known(ys[i].server.state, id);
  }

  // The server's events for one peer come from that peer's transmissions.
  lemma ServerSources(ys: seq<System>, steps: seq<Step>, id: ConnectionId, a: SocketAddr)
    requires Trace(ys, steps) && id in ys[|steps|].server.state.core.connected
    requires a == ys[|steps|].server.state.core.connected[id].address && a in ys[|steps|].clients
    ensures Sourced(ys[|steps|].clients[a].first, ys[|steps|].serverAddress, ServerStepEvents(ys, steps, id), HeardWires(steps))
    ensures ServerHearsOnce(steps) ==> Once(ServerStepEvents(ys, steps, id), HeardWires(steps))
  {
    var es := ServerStepEvents(ys, steps, id);
    forall i | Arrives(es, i)
      ensures steps[i].action == ServerHears(a, HeardWires(steps)[i])
      ensures HeardWires(steps)[i] in ys[|steps|].clients[a].first && Carries(HeardWires(steps)[i], ys[|steps|].serverAddress, es[i][0].p)
    {
      FragmentFromPeer(ys, steps, i, id);
    }
  }

  lemma FragmentFromPeer(ys: seq<System>, steps: seq<Step>, i: nat, id: ConnectionId)
    requires Trace(ys, steps) && i < |steps| && id in ys[|steps|].server.state.core.connected
    requires Arrives(ServerStepEvents(ys, steps, id), i)
    ensures var y, w := ys[|steps|], HeardWire(steps[i]); var a := y.server.state.core.connected[id].address;
      && a in y.clients && w in y.clients[a].first && steps[i].action == ServerHears(a, w)
      && Carries(w, y.serverAddress, ServerStepEvents(ys, steps, id)[i][0].p)
  {
    TraceIsRun(ys, steps);
    assert Follow(ys, steps, i);
    var w := steps[i].action.wire;
    SenderOfFragment(ys, i, steps[i].action.from, w);
    LaterStates(ys, i, |steps|);
    PeerKeepsAddress(ys, i, |steps|, id);
  }

  lemma SenderOfFragment(ys: seq<System>, i: nat, from: SocketAddr, w: Wire)
    requires IsRun(ys) && i < |ys| && from in ys[i].clients && w in ys[i].clients[from].sent && w.message.Fragment?
    ensures w in ys[i].clients[from].first
    ensures SN.Known(ys[i].server.state, w.message.connectionId)
    ensures SN.Link(ys[i].server.state, w.message.connectionId).address == from
  {
    EveryState(ys, i);
    assert ClientInv(ys[i], from);
    ServerSteps.SenderFacts(ys[i].server, from, ys[i].clients[from], ys[i].serverAddress, w);
  }

  lemma PeerKeepsAddress(ys: seq<System>, i: nat, j: nat, id: ConnectionId)
    requires IsRun(ys) && i <= j < |ys| && SN.Known(ys[i].server.state, id) && id in ys[j].server.state.core.connected
    ensures ys[j].server.state.core.connected[id].address == SN.Link(ys[i].server.state, id).address
  {
    LaterStates(ys, i, j);
    assert StillKnown(ys[i].server, ys[j].server, id);
  }

  // The events the server pushed for the fragments of one peer.
  ghost function ServerOutputs(ys: seq<System>, steps: seq<Step>, id: ConnectionId): (outs: seq<seq<ProtocolEvent>>)
    requires |ys| == |steps| + 1
    ensures |outs| == |steps|
  {
    var es := ServerStepEvents(ys, steps, id);
    seq(|steps|, i requires 0 <= i < |steps| =>
      if Arrives(es, i) then Pushed(ys[i].server.state.core.api, ys[i + 1].server.state.core.api) else [])
  }

  function Pushed(api: seq<ProtocolEvent>, api': seq<ProtocolEvent>): seq<ProtocolEvent> {
    if |api| <= |api'| then api'[|api|..] else []
  }

  // A step only adds to the events when a fragment arrives; otherwise it delivers nothing for the
  // peer, unless it hears one of the peer's data transfers.
  ghost predicate Accounted(api: seq<ProtocolEvent>, api': seq<ProtocolEvent>, arrives: bool, id: ConnectionId, m: Message) {
    if arrives then api <= api'
    else forall payload :: Delivered(id, payload) in api' ==> Delivered(id, payload) in api || m == DataTransfer(id, payload)
  }

  ghost predicate ServerAccounted(ys: seq<System>, steps: seq<Step>, id: ConnectionId, i: nat)
    requires |ys| == |steps| + 1 && i < |steps|
  {
    Accounted(ys[i].server.state.core.api, ys[i + 1].server.state.core.api,
      Arrives(ServerStepEvents(ys, steps, id), i), id, HeardWire(steps[i]).message)
  }

  lemma ServerFragmentOutput(s: ServerService.ServerState, p: FragmentPacket, now: nat)
    requires p.message.connectionId in ServerService.DriverReceive(s, p, now).core.connected
    ensures ServerService.DriverReceive(s, p, now).core.api
      == s.core.api + Handed(p.message.connectionId, Absorb(ReassemblerOf(s.core.connected, p.message.connectionId), p).1)
  {
    var heard := ServerService.Hear(s, p.message.connectionId, p);
    if heard.Some? {
      assert ReassemblerOf(heard.value.core.connected, p.message.connectionId) == ReassemblerOf(s.core.connected, p.message.connectionId);
    }
  }

  lemma ServerReceiveAccounted(s: ServerService.ServerState, p: Packet<Received>, now: nat, id: ConnectionId)
    requires !(p.message.Fragment? && p.message.connectionId == id && id in ServerService.DriverReceive(s, p, now).core.connected)
    ensures Accounted(s.core.api, ServerService.DriverReceive(s, p, now).core.api, false, id, p.message)
  {
    if p.message.Fragment? {
      OtherFragmentOutput(s, p, now, id);
    } else if p.message.ConnectionRequest? {
      RequestOutput(s, p, now);
    }
  }

  lemma OtherFragmentOutput(s: ServerService.ServerState, p: FragmentPacket, now: nat, id: ConnectionId)
    requires p.message.connectionId != id || id !in ServerService.DriverReceive(s, p, now).core.connected
    ensures Accounted(s.core.api, ServerService.DriverReceive(s, p, now).core.api, false, id, p.message)
  {
  }

  lemma RequestOutput(s: ServerService.ServerState, p: Packet<Received>, now: nat)
    requires p.message.ConnectionRequest?
    ensures forall e :: e in ServerService.DriverReceive(s, p, now).core.api ==> e in s.core.api || e.Fail?
  {
  }

  ghost predicate ServerPushes(y: System, step: Step, y': System, id: ConnectionId) {
    StepPushes(y.server.state.core.api, y'.server.state.core.api, ServerEvents(y, step, y', id),
      ReassemblerOf(y.server.state.core.connected, id), id, HeardWire(step).message)
  }

  ghost predicate StepPushes(api: seq<ProtocolEvent>, api': seq<ProtocolEvent>, es: seq<Event>, r: Reassembler, id: ConnectionId, m: Message) {
    && Accounted(api, api', es != [] && es[0].Arrive?, id, m)
    && (es != [] && es[0].Arrive? ==> Pushed(api, api') == Handed(id, Absorb(r, es[0].p).1))
  }

  lemma ServerStepAccounted(y: System, step: Step, y': System, id: ConnectionId)
    requires Inv(y) && Next(y, step.action, y', step.now)
    ensures ServerPushes(y, step, y', id)
  {
    match step.action {
      case ServerHears(_, _) => ServerHearsPushes(y, step, y', id);
      case ServerActs(_) => ServerActsPushes(y, step, y', id);
      case _ => ClientsPushElsewhere(y, step, y', id);
    }
  }

  lemma ServerHearsPushes(y: System, step: Step, y': System, id: ConnectionId)
    requires Next(y, step.action, y', step.now) && step.action.ServerHears?
    ensures ServerPushes(y, step, y', id)
  {
    var w, p := step.action.wire, Delivery(step.action.wire, step.action.from, step.now);
    ServerPart(y, step.action, y', step.now);
    if w.message.Fragment? && w.message.connectionId == id && id in y'.server.state.core.connected {
      ServerFragmentOutput(y.server.state, p, step.now);
    } else {
      ServerReceiveAccounted(y.server.state, p, step.now, id);
    }
  }

  lemma ServerActsPushes(y: System, step: Step, y': System, id: ConnectionId)
    requires Next(y, step.action, y', step.now) && step.action.ServerActs?
    ensures ServerPushes(y, step, y', id)
  {
    ServerPart(y, step.action, y', step.now);
    ServerPushesNothing(y.server, step.action.act, y'.server, step.now, y.ttl);
    assert forall e :: e in ServerEvents(y, step, y', id) ==> e.Evict?;
  }

  lemma ClientsPushElsewhere(y: System, step: Step, y': System, id: ConnectionId)
    requires Next(y, step.action, y', step.now) && (step.action.ClientActs? || step.action.ClientHears?)
    ensures ServerPushes(y, step, y', id)
  {
  }

  lemma ServerPushesNothing(n: SN.ServerNode, a: SN.ServerAction, n': SN.ServerNode, now: nat, ttl: nat)
    requires SN.ServerStep(n, a, n', now, ttl) && !a.Receive?
    ensures forall e :: e in n'.state.core.api ==> e in n.state.core.api
  {
  }

  lemma ServerAccountedAt(ys: seq<System>, steps: seq<Step>, id: ConnectionId, i: nat)
    requires Trace(ys, steps) && i < |steps|
    ensures ServerAccounted(ys, steps, id, i)
    ensures Tells(ServerHistory(ys, id), ServerStepEvents(ys, steps, id), ServerOutputs(ys, steps, id), id, i)
  {
    ServerPushesAt(ys, steps, id, i);
    ServerTold(ys, steps, id, i);
  }

  lemma ServerPushesAt(ys: seq<System>, steps: seq<Step>, id: ConnectionId, i: nat)
    requires Trace(ys, steps) && i < |steps|
    ensures ServerPushes(ys[i], steps[i], ys[i + 1], id)
  {
    TraceIsRun(ys, steps);
    EveryState(ys, i);
    assert Follow(ys, steps, i);
    ServerStepAccounted(ys[i], steps[i], ys[i + 1], id);
  }

  lemma ServerTold(ys: seq<System>, steps: seq<Step>, id: ConnectionId, i: nat)
    requires |ys| == |steps| + 1 && i < |steps| && ServerPushes(ys[i], steps[i], ys[i + 1], id)
    ensures ServerAccounted(ys, steps, id, i)
    ensures Tells(ServerHistory(ys, id), ServerStepEvents(ys, steps, id), ServerOutputs(ys, steps, id), id, i)
  {
  }

  // What the server hands out for one peer's fragments over a run is exactly the groups given out.
  lemma ServerHandsOut(ys: seq<System>, steps: seq<Step>, id: ConnectionId)
    requires Trace(ys, steps)
    ensures Concat(ServerOutputs(ys, steps, id)) == HandedOut(id, Run(Concat(ServerStepEvents(ys, steps, id))).fired)
    ensures forall i: nat :: i < |steps| ==> ServerAccounted(ys, steps, id, i)
  {
    var rs, es, outs := ServerHistory(ys, id), ServerStepEvents(ys, steps, id), ServerOutputs(ys, steps, id);
    ServerAllExplained(ys, steps, id);
    forall i: nat | i < |steps| ensures ServerAccounted(ys, steps, id, i) && Tells(rs, es, outs, id, i) {
      ServerAccountedAt(ys, steps, id, i);
    }
    HandsOutFired(rs, es, outs, id);
  }

  // Fragments from a client to the server, from end to end: what is stored, what was given out and
  // what that is worth, exactly, duplicates or not; and what holds besides without duplicates.
  lemma ServerReassembly(ys: seq<System>, steps: seq<Step>, id: ConnectionId)
    requires Trace(ys, steps)
    requires var y := ys[|steps|]; id in y.server.state.core.connected
    requires var y := ys[|steps|]; var a := y.server.state.core.connected[id].address; a in y.clients ==> !y.clients[a].oversized
    ensures var y := ys[|steps|]; var a, events := y.server.state.core.connected[id].address, Concat(ServerStepEvents(ys, steps, id));
      && a in y.clients
      && ReassemblerOf(y.server.state.core.connected, id) == Run(events).r
      && Concat(ServerOutputs(ys, steps, id)) == HandedOut(id, Run(events).fired)
      && GivesOutExactly(y.clients[a].state.core.lists, y.clients[a].first, y.serverAddress, events)
      && (ServerHearsOnce(steps) ==> ReassemblesWell(y.clients[a].state.core.lists, y.clients[a].first, y.serverAddress, events))
  {
    var y, n := ys[|steps|], |steps|;
    TraceIsRun(ys, steps);
    PeerIsClient(ys, n, id);
    ServerIsHistory(ys, steps, id);
    ServerHandsOut(ys, steps, id);
    var a, es := y.server.state.core.connected[id].address, ServerStepEvents(ys, steps, id);
    ServerSources(ys, steps, id, a);
    var ws := SourcedArrivals(y.clients[a].first, y.serverAddress, es, HeardWires(steps));
    ClientIsSound(ys, n, a);
    ArrivalsGiveOut(y.clients[a].state.core.lists, y.clients[a].first, y.serverAddress, Concat(es), ws);
    if ServerHearsOnce(steps) {
      ArrivalsReassemble(y.clients[a].state.core.lists, y.clients[a].first, y.serverAddress, Concat(es), ws);
    }
  }

  lemma ClientIsSound(ys: seq<System>, i: nat, a: SocketAddr)
    requires IsRun(ys) && i < |ys| && a in ys[i].clients
    ensures Sound(ys[i].clients[a].state.core.lists, ys[i].clients[a].first, ys[i].clients[a].oversized)
    ensures Sound(ys[i].server.state.core.lists, ys[i].server.first, ys[i].server.oversized)
  {
    EveryState(ys, i);
    assert ClientInv(ys[i], a) && ClientOrigins(ys[i].clients[a]);
  }

  // ---------------------------------------------------------------- a client's reassembler

  ghost function ClientEvents(step: Step, y': System, a: SocketAddr, id: ConnectionId): (es: seq<Event>)
    ensures |es| <= 1
  {
    match step.action
    case ClientHears(to, w) =>
      if to == a && a in y'.clients && w.message.Fragment? && w.message.connectionId == id && id in y'.clients[a].state.core.connected
      then [Arrive(Delivery(w, y'.serverAddress, step.now))] else []
    case _ => []
  }

  ghost function ClientStepEvents(ys: seq<System>, steps: seq<Step>, a: SocketAddr, id: ConnectionId): (es: StepEvents)
    requires |ys| == |steps| + 1
    ensures |es| == |steps|
  {
    seq(|steps|, i requires 0 <= i < |steps| => ClientEvents(steps[i], ys[i + 1], a, id))
  }

  function ConnectedOf(y: System, a: SocketAddr): ConnectedPeers {
    if a in y.clients then y.clients[a].state.core.connected else map[]
  }

  ghost function ClientHistory(ys: seq<System>, a: SocketAddr, id: ConnectionId): seq<Reassembler> {
    seq(|ys|, i requires 0 <= i < |ys| => ReassemblerOf(ConnectedOf(ys[i], a), id))
  }

  ghost predicate ClientExplained(y: System, step: Step, y': System, a: SocketAddr, id: ConnectionId) {
    ReassemblerOf(ConnectedOf(y', a), id) == After(ReassemblerOf(ConnectedOf(y, a), id), ClientEvents(step, y', a, id))
  }

  lemma ClientHearsEvents(y: System, step: Step, y': System, a: SocketAddr, id: ConnectionId)
    requires Inv(y) && Next(y, step.action, y', step.now) && step.action.ClientHears? && step.action.to == a
    ensures ClientExplained(y, step, y', a, id)
  {
    var w := step.action.wire;
    NextGrows(y, step.action, y', step.now);
    ClientHeard(y, a, w, y', step.now);
    assert ClientGrows(y.clients[a], y'.clients[a]);
    TakenInIs(ConnectedOf(y, a), ConnectedOf(y', a), Delivery(w, y.serverAddress, step.now), id);
    assert y'.serverAddress == y.serverAddress;
  }

  lemma ClientStepExplained(y: System, step: Step, y': System, a: SocketAddr, id: ConnectionId)
    requires Inv(y) && Next(y, step.action, y', step.now)
    ensures ClientExplained(y, step, y', a, id)
  {
    match step.action {
      case ClientHears(to, _) => if to == a { ClientHearsEvents(y, step, y', a, id); } else { OthersLeaveClient(y, step, y', a, id); }
      case ClientActs(c, _) => if c == a { ClientActsEvents(y, step, y', a, id); } else { OthersLeaveClient(y, step, y', a, id); }
      case _ => ServerLeavesClient(y, step, y', a, id);
    }
  }

  lemma ClientActsEvents(y: System, step: Step, y': System, a: SocketAddr, id: ConnectionId)
    requires Inv(y) && Next(y, step.action, y', step.now) && step.action.ClientActs? && step.action.client == a
    ensures ClientExplained(y, step, y', a, id)
  {
    ClientActed(y, a, step.action.action, y', step.now);
  }

  lemma ServerLeavesClient(y: System, step: Step, y': System, a: SocketAddr, id: ConnectionId)
    requires Next(y, step.action, y', step.now) && (step.action.ServerActs? || step.action.ServerHears?)
    ensures ClientExplained(y, step, y', a, id)
  {
  }

  lemma OthersLeaveClient(y: System, step: Step, y': System, a: SocketAddr, id: ConnectionId)
    requires Next(y, step.action, y', step.now) && (step.action.ClientActs? || step.action.ClientHears?) && ClientOf(step.action) != a
    ensures ClientExplained(y, step, y', a, id)
  {
  }

  lemma ClientEventsAt(ys: seq<System>, steps: seq<Step>, i: nat, a: SocketAddr, id: ConnectionId)
    requires Trace(ys, steps) && i < |steps|
    ensures ClientExplained(ys[i], steps[i], ys[i + 1], a, id)
  {
    TraceIsRun(ys, steps);
    EveryState(ys, i);
    assert Follow(ys, steps, i);
    ClientStepExplained(ys[i], steps[i], ys[i + 1], a, id);
  }

  lemma ClientFresh(y: System, a: SocketAddr, id: ConnectionId)
    requires Init(y)
    ensures ReassemblerOf(ConnectedOf(y, a), id) == map[]
  {
  }

  lemma ClientExplains(ys: seq<System>, steps: seq<Step>, a: SocketAddr, id: ConnectionId, i: nat)
    requires Trace(ys, steps) && i < |steps|
    ensures Explains(ClientHistory(ys, a, id), ClientStepEvents(ys, steps, a, id), i)
  {
    ClientEventsAt(ys, steps, i, a, id);
  }

  lemma ClientIsHistory(ys: seq<System>, steps: seq<Step>, a: SocketAddr, id: ConnectionId)
    requires Trace(ys, steps)
    ensures ReassemblerOf(ConnectedOf(ys[|steps|], a), id) == Run(Concat(ClientStepEvents(ys, steps, a, id))).r
    ensures EvictsStored(Concat(ClientStepEvents(ys, steps, a, id)))
  {
    ClientAllExplained(ys, steps, a, id);
    HistoryOfSteps(ClientHistory(ys, a, id), ClientStepEvents(ys, steps, a, id));
  }

  lemma ClientAllExplained(ys: seq<System>, steps: seq<Step>, a: SocketAddr, id: ConnectionId)
    requires Trace(ys, steps)
    ensures AllExplained(ClientHistory(ys, a, id), ClientStepEvents(ys, steps, a, id))
  {
    ClientFresh(ys[0], a, id);
    forall i: nat | i < |steps| ensures Explains(ClientHistory(ys, a, id), ClientStepEvents(ys, steps, a, id), i) {
      ClientExplains(ys, steps, a, id, i);
    }
  }

  // No fragment reaches a client twice.
  ghost predicate ClientsHearOnce(steps: seq<Step>) {
    forall i, j :: 0 <= i < j < |steps| && steps[i].action.ClientHears? && steps[i].action.wire.message.Fragment? ==>
      steps[i].action != steps[j].action
  }

  lemma FragmentFromServer(ys: seq<System>, steps: seq<Step>, i: nat, a: SocketAddr, id: ConnectionId)
    requires Trace(ys, steps) && i < |steps| && Arrives(ClientStepEvents(ys, steps, a, id), i)
    ensures var w := HeardWire(steps[i]);
      && w in ys[|steps|].server.first && steps[i].action == ClientHears(a, w)
      && Carries(w, a, ClientStepEvents(ys, steps, a, id)[i][0].p)
  {
    TraceIsRun(ys, steps);
    assert Follow(ys, steps, i);
    ServerRecordsAll(ys, i, HeardWire(steps[i]));
    LaterStates(ys, i, |steps|);
  }

  lemma ServerRecordsAll(ys: seq<System>, i: nat, w: Wire)
    requires IsRun(ys) && i < |ys| && w in ys[i].server.sent
    ensures w in ys[i].server.first
  {
    EveryState(ys, i);
  }

  lemma ClientSources(ys: seq<System>, steps: seq<Step>, a: SocketAddr, id: ConnectionId)
    requires Trace(ys, steps)
    ensures Sourced(ys[|steps|].server.first, a, ClientStepEvents(ys, steps, a, id), HeardWires(steps))
    ensures ClientsHearOnce(steps) ==> Once(ClientStepEvents(ys, steps, a, id), HeardWires(steps))
  {
    var es := ClientStepEvents(ys, steps, a, id);
    forall i | Arrives(es, i)
      ensures steps[i].action == ClientHears(a, HeardWires(steps)[i])
      ensures HeardWires(steps)[i] in ys[|steps|].server.first && Carries(HeardWires(steps)[i], a, es[i][0].p)
    {
      FragmentFromServer(ys, steps, i, a, id);
    }
  }

  function ApiOf(y: System, a: SocketAddr): seq<ProtocolEvent> {
    if a in y.clients then y.clients[a].state.core.api else []
  }

  // The events a client pushed for the server's fragments.
  ghost function ClientOutputs(ys: seq<System>, steps: seq<Step>, a: SocketAddr, id: ConnectionId): (outs: seq<seq<ProtocolEvent>>)
    requires |ys| == |steps| + 1
    ensures |outs| == |steps|
  {
    var es := ClientStepEvents(ys, steps, a, id);
    seq(|steps|, i requires 0 <= i < |steps| => if Arrives(es, i) then Pushed(ApiOf(ys[i], a), ApiOf(ys[i + 1], a)) else [])
  }

  ghost predicate ClientAccounted(ys: seq<System>, steps: seq<Step>, a: SocketAddr, id: ConnectionId, i: nat)
    requires |ys| == |steps| + 1 && i < |steps|
  {
    Accounted(ApiOf(ys[i], a), ApiOf(ys[i + 1], a), Arrives(ClientStepEvents(ys, steps, a, id), i), id, HeardWire(steps[i]).message)
  }

  lemma ClientReceiveAccounted(s: ClientService.ClientState, p: Packet<Received>, id: ConnectionId)
    ensures var s' := ClientService.DriverReceive(s, p);
      if p.message.Fragment? && p.message.connectionId == id && id in s'.core.connected
      then s'.core.api == s.core.api + Handed(id, Absorb(ReassemblerOf(s.core.connected, id), p).1)
      else Accounted(s.core.api, s'.core.api, false, id, p.message)
  {
    if !p.message.ConnectionRequest? {
      var heard := ClientService.Hear(s, p.message.connectionId, p);
      if heard.Some? {
        assert ReassemblerOf(heard.value.core.connected, id) == ReassemblerOf(s.core.connected, id);
      }
    }
  }

  lemma ClientPushesNothing(n: CN.ClientNode, a: CN.ClientAction, n': CN.ClientNode, now: nat, ttl: nat)
    requires CN.ClientNodeOk(n) && CN.ClientStep(n, a, n', now, ttl) && !a.Receive?
    ensures forall e :: e in n'.state.core.api ==> e in n.state.core.api
  {
    if a.Retry? { CN.RetryOnCore(n.state, a.kept, now, ttl); }
  }

  ghost predicate ClientPushes(y: System, step: Step, y': System, a: SocketAddr, id: ConnectionId) {
    StepPushes(ApiOf(y, a), ApiOf(y', a), ClientEvents(step, y', a, id), ReassemblerOf(ConnectedOf(y, a), id), id, HeardWire(step).message)
  }

  lemma ClientStepAccounted(y: System, step: Step, y': System, a: SocketAddr, id: ConnectionId)
    requires Inv(y) && Next(y, step.action, y', step.now)
    ensures ClientPushes(y, step, y', a, id)
  {
    if (step.action.ClientActs? || step.action.ClientHears?) && ClientOf(step.action) == a {
      ThisClientAccounted(y, step, y', a, id);
    } else {
      OtherStepAccounted(y, step, y', a, id);
    }
  }

  lemma OtherStepAccounted(y: System, step: Step, y': System, a: SocketAddr, id: ConnectionId)
    requires Next(y, step.action, y', step.now)
    requires step.action.ClientActs? || step.action.ClientHears? ==> ClientOf(step.action) != a
    ensures ClientPushes(y, step, y', a, id)
  {
    assert ApiOf(y', a) == ApiOf(y, a);
  }

  lemma ThisClientAccounted(y: System, step: Step, y': System, a: SocketAddr, id: ConnectionId)
    requires Inv(y) && Next(y, step.action, y', step.now)
    requires (step.action.ClientActs? || step.action.ClientHears?) && ClientOf(step.action) == a
    ensures ClientPushes(y, step, y', a, id)
  {
    if step.action.ClientHears? {
      ClientHearsPushes(y, step, y', a, id);
    } else {
      ClientActsPushes(y, step, y', a, id);
    }
  }

  lemma ClientHearsPushes(y: System, step: Step, y': System, a: SocketAddr, id: ConnectionId)
    requires Next(y, step.action, y', step.now) && step.action.ClientHears? && step.action.to == a
    ensures ClientPushes(y, step, y', a, id)
  {
    ClientPart(y, step.action, y', step.now);
    ClientReceiveAccounted(y.clients[a].state, Delivery(step.action.wire, y.serverAddress, step.now), id);
  }

  lemma ClientActsPushes(y: System, step: Step, y': System, a: SocketAddr, id: ConnectionId)
    requires Inv(y) && Next(y, step.action, y', step.now) && step.action.ClientActs? && step.action.client == a
    ensures ClientPushes(y, step, y', a, id)
  {
    ClientPart(y, step.action, y', step.now);
    assert ClientInv(y, a);
    ClientPushesNothing(y.clients[a], step.action.action, y'.clients[a], step.now, y.ttl);
  }

  lemma ClientAccountedAt(ys: seq<System>, steps: seq<Step>, a: SocketAddr, id: ConnectionId, i: nat)
    requires Trace(ys, steps) && i < |steps|
    ensures ClientAccounted(ys, steps, a, id, i)
    ensures Tells(ClientHistory(ys, a, id), ClientStepEvents(ys, steps, a, id), ClientOutputs(ys, steps, a, id), id, i)
  {
    ClientPushesAt(ys, steps, a, id, i);
    ClientTold(ys, steps, a, id, i);
  }

  lemma ClientPushesAt(ys: seq<System>, steps: seq<Step>, a: SocketAddr, id: ConnectionId, i: nat)
    requires Trace(ys, steps) && i < |steps|
    ensures ClientPushes(ys[i], steps[i], ys[i + 1], a, id)
  {
    TraceIsRun(ys, steps);
    EveryState(ys, i);
    assert Follow(ys, steps, i);
    ClientStepAccounted(ys[i], steps[i], ys[i + 1], a, id);
  }

  lemma ClientTold(ys: seq<System>, steps: seq<Step>, a: SocketAddr, id: ConnectionId, i: nat)
    requires |ys| == |steps| + 1 && i < |steps| && ClientPushes(ys[i], steps[i], ys[i + 1], a, id)
    ensures ClientAccounted(ys, steps, a, id, i)
    ensures Tells(ClientHistory(ys, a, id), ClientStepEvents(ys, steps, a, id), ClientOutputs(ys, steps, a, id), id, i)
  {
  }

  // What a client hands out for the server's fragments over a run is exactly the groups given out.
  lemma ClientHandsOut(ys: seq<System>, steps: seq<Step>, a: SocketAddr, id: ConnectionId)
    requires Trace(ys, steps)
    ensures Concat(ClientOutputs(ys, steps, a, id)) == HandedOut(id, Run(Concat(ClientStepEvents(ys, steps, a, id))).fired)
    ensures forall i: nat :: i < |steps| ==> ClientAccounted(ys, steps, a, id, i)
  {
    var rs, es, outs := ClientHistory(ys, a, id), ClientStepEvents(ys, steps, a, id), ClientOutputs(ys, steps, a, id);
    ClientAllExplained(ys, steps, a, id);
    forall i: nat | i < |steps| ensures ClientAccounted(ys, steps, a, id, i) && Tells(rs, es, outs, id, i) {
      ClientAccountedAt(ys, steps, a, id, i);
    }
    HandsOutFired(rs, es, outs, id);
  }

  // Fragments from the server to a client, from end to end. A client evicts nothing.
  lemma ClientReassembly(ys: seq<System>, steps: seq<Step>, a: SocketAddr, id: ConnectionId)
    requires Trace(ys, steps) && a in ys[|steps|].clients && !ys[|steps|].server.oversized
    ensures var y, events := ys[|steps|], Concat(ClientStepEvents(ys, steps, a, id));
      && ReassemblerOf(y.clients[a].state.core.connected, id) == Run(events).r
      && Concat(ClientOutputs(ys, steps, a, id)) == HandedOut(id, Run(events).fired)
      && GivesOutExactly(y.server.state.core.lists, y.server.first, a, events)
      && (ClientsHearOnce(steps) ==> ReassemblesWell(y.server.state.core.lists, y.server.first, a, events))
      && forall q: Sequence :: Evict(q) !in events
  {
    var y, es := ys[|steps|], ClientStepEvents(ys, steps, a, id);
    TraceIsRun(ys, steps);
    ClientIsHistory(ys, steps, a, id);
    ClientHandsOut(ys, steps, a, id);
    ClientSources(ys, steps, a, id);
    var ws := SourcedArrivals(y.server.first, a, es, HeardWires(steps));
    ClientIsSound(ys, |steps|, a);
    ArrivalsGiveOut(y.server.state.core.lists, y.server.first, a, Concat(es), ws);
    if ClientsHearOnce(steps) {
      ArrivalsReassemble(y.server.state.core.lists, y.server.first, a, Concat(es), ws);
    }
    ClientEvictsNothing(ys, steps, a, id);
  }

  lemma ClientEvictsNothing(ys: seq<System>, steps: seq<Step>, a: SocketAddr, id: ConnectionId)
    requires |ys| == |steps| + 1
    ensures forall q: Sequence :: Evict(q) !in Concat(ClientStepEvents(ys, steps, a, id))
  {
    NothingEvicted(ClientStepEvents(ys, steps, a, id));
  }

  lemma {:induction false} NothingEvicted(es: StepEvents)
    requires forall i, k :: 0 <= i < |es| && 0 <= k < |es[i]| ==> es[i][k].Arrive?
    ensures forall e :: e in Concat(es) ==> e.Arrive?
    decreases |es|
  {
    if es != [] {
      NothingEvicted(es[..|es| - 1]);
    }
  }
}
