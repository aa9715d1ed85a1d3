// What becomes of reliable packets over a whole run of the system: reliability.rs, and the services'
// own handlers for connection requests and connection accepted packets.
module Accounts {
  import opened Packets
  import opened Peers
  import opened Scheduler
  import opened Reliability
  import opened Endpoint
  import opened LocalState
  import opened Discipline
  import opened Outbox
  import opened Arrivals
  import opened AntarcSystem
  import opened SystemRuns
  import opened Deliveries
  import ServerService
  import ClientService
  import SN = ServerNodes
  import CN = ClientNodes

  // The reliable packets a step sends, first or again, those it takes out for a retry, and those
  // it lets expire.
  datatype Flow = Flow(sent: seq<SentPacket>, popped: seq<SentPacket>, expired: seq<SentPacket>)

  const NO_FLOW := Flow([], [], [])

  ghost predicate Balances(kept: Kept, flow: Flow, kept': Kept) {
    kept'.Held() + multiset(flow.popped) + multiset(flow.expired) == kept.Held() + multiset(flow.sent)
  }

  lemma AppendAccount(k: Kept, id: KeptId, ps: seq<SentPacket>)
    ensures k.Append(id, ps).Held() == k.Held() + multiset(ps)
  {
    assert multiset(k.At(id) + ps) == multiset(k.At(id)) + multiset(ps);
  }

  function PoppedBy(kept: Kept, k: KeptId): seq<SentPacket> {
    var ps := kept.At(k);
    if ps == [] then [] else [ps[|ps| - 1]]
  }

  // What a step does to the kept packets: nothing, keep more, retry one, or let some expire.
  ghost predicate KeptStep(kept: Kept, flow: Flow, kept': Kept) {
    || (flow == NO_FLOW && kept' == kept)
    || (exists k :: flow == NO_FLOW.(sent := flow.sent) && kept' == kept.Append(k, flow.sent))
    || (exists k, now :: flow == Flow(flow.sent, PoppedBy(kept, k), []) && kept' == Retried(kept, k, now).0.Append(k, flow.sent))
    || (flow == NO_FLOW.(expired := ExpiredPackets(kept)) && kept' == Expired(kept))
  }

  lemma KeptStepBalances(kept: Kept, flow: Flow, kept': Kept)
    requires KeptStep(kept, flow, kept')
    ensures Balances(kept, flow, kept')
  {
    if k :| flow == NO_FLOW.(sent := flow.sent) && kept' == kept.Append(k, flow.sent) {
      AppendAccount(kept, k, flow.sent);
    } else if k, now: nat :| flow == Flow(flow.sent, PoppedBy(kept, k), []) && kept' == Retried(kept, k, now).0.Append(k, flow.sent) {
      RetryAccount(kept, k, now);
      AppendAccount(Retried(kept, k, now).0, k, flow.sent);
    } else if kept' == Expired(kept) && flow == NO_FLOW.(expired := ExpiredPackets(kept)) {
      ExpiryAccount(kept);
    }
  }

  // ---------------------------------------------------------------- the server

  ghost function ServerFlow(n: SN.ServerNode, a: SN.ServerAction, now: nat, ttl: nat): Flow {
    var s := n.state;
    match a
    case Drain(l) =>
      if l.IsReliable() && AllCreatable(s.core.connected, s.core.lists.At(l))
      then NO_FLOW.(sent := AllSent(DrainSpec(s.core, l, now, ttl).1, now, ttl)) else NO_FLOW
    case DrainAccepted =>
      if ServerService.AllAcceptable(s.awaiting, s.core.lists.handshakes)
      then NO_FLOW.(sent := AllSent(ServerService.DrainAcceptedSpec(s, now, ttl).1, now, ttl)) else NO_FLOW
    case Retry(k) =>
      if Shaped(s.core.kept) && ServerService.KeptAccepts(s.core.kept)
      then Flow(AllSent(ServerService.RetrySpec(s, k, now, ttl).1, now, ttl), PoppedBy(s.core.kept, k), []) else NO_FLOW
    case Poll(_) => NO_FLOW.(expired := ExpiredPackets(s.core.kept))
    case _ => NO_FLOW
  }

  lemma ServerStepKept(n: SN.ServerNode, a: SN.ServerAction, n': SN.ServerNode, now: nat, ttl: nat)
    requires SN.ServerNodeOk(n) && SN.ServerStep(n, a, n', now, ttl)
    ensures KeptStep(n.state.core.kept, ServerFlow(n, a, now, ttl), n'.state.core.kept)
  {
    match a {
      case Drain(l) => ServerDrainKept(n, l, n', now, ttl);
      case DrainAccepted =>
        assert n'.state.core.kept == n.state.core.kept.Append(KeptHandshakes, ServerFlow(n, a, now, ttl).sent);
      case Retry(k) => ServerRetryKept(n, k, n', now, ttl);
      case Receive(p) => ServerReceiveKeeps(n.state, p, now);
      case _ =>
    }
  }

  lemma ServerDrainKept(n: SN.ServerNode, l: ListId, n': SN.ServerNode, now: nat, ttl: nat)
    requires SN.ServerStep(n, SN.Drain(l), n', now, ttl)
    ensures KeptStep(n.state.core.kept, ServerFlow(n, SN.Drain(l), now, ttl), n'.state.core.kept)
  {
    if l.IsReliable() {
      assert n'.state.core.kept == n.state.core.kept.Append(KeptList(l), ServerFlow(n, SN.Drain(l), now, ttl).sent);
    }
  }

  // A retry: the newest kept packet goes, and comes back when it is sent.
  lemma ServerRetryKept(n: SN.ServerNode, k: KeptId, n': SN.ServerNode, now: nat, ttl: nat)
    requires SN.ServerStep(n, SN.ServerAction.Retry(k), n', now, ttl)
    ensures KeptStep(n.state.core.kept, ServerFlow(n, SN.ServerAction.Retry(k), now, ttl), n'.state.core.kept)
  {
    var s := n.state;
    var ps, r := s.core.kept.At(k), Retried(s.core.kept, k, now).1;
    assert ps != [] ==> KeptFor(ps[|ps| - 1].message) == k;
    var sent := ServerFlow(n, SN.ServerAction.Retry(k), now, ttl).sent;
    assert sent == if r.Some? then [MarkSent(r.value, now, ttl)] else [];
    AppendNone(Retried(s.core.kept, k, now).0, k);
    assert n'.state.core.kept == Retried(s.core.kept, k, now).0.Append(k, sent);
  }

  lemma AppendNone(kept: Kept, k: KeptId)
    ensures kept.Append(k, []) == kept
  {
    assert kept.At(k) + [] == kept.At(k);
  }

  lemma ServerReceiveKeeps(s: ServerService.ServerState, p: Packet<Received>, now: nat)
    ensures ServerService.DriverReceive(s, p, now).core.kept == s.core.kept
  {
  }

  // All that flows was on the wire.
  lemma ServerFlowIsSent(n: SN.ServerNode, a: SN.ServerAction, n': SN.ServerNode, now: nat, ttl: nat)
    requires SN.ServerStep(n, a, n', now, ttl)
    ensures forall p :: p in ServerFlow(n, a, now, ttl).sent ==> WireOfSent(p) in n'.sent
  {
    match a {
      case Drain(l) => AllSentWires(DrainSpec(n.state.core, l, now, ttl).1, now, ttl);
      case DrainAccepted => AllSentWires(ServerService.DrainAcceptedSpec(n.state, now, ttl).1, now, ttl);
      case Retry(k) => AllSentWires(ServerService.RetrySpec(n.state, k, now, ttl).1, now, ttl);
      case _ =>
    }
  }

  // ---------------------------------------------------------------- a client

  ghost function ClientFlow(n: CN.ClientNode, a: CN.ClientAction, now: nat, ttl: nat): Flow {
    var s := n.state;
    match a
    case Drain(l) =>
      if l.IsReliable() && AllCreatable(s.core.connected, s.core.lists.At(l))
      then NO_FLOW.(sent := AllSent(DrainSpec(s.core, l, now, ttl).1, now, ttl)) else NO_FLOW
    case DrainRequests =>
      if ClientService.AllRequestable(s.requesting, s.core.lists.handshakes)
      then NO_FLOW.(sent := AllSent(ClientService.DrainRequestsSpec(s, now, ttl).1, now, ttl)) else NO_FLOW
    case Retry(k) =>
      if Shaped(s.core.kept) && k != KeptHandshakes
      then Flow(AllSent(ClientService.RetrySpec(s, k, now, ttl).1, now, ttl), PoppedBy(s.core.kept, k), []) else NO_FLOW
    case Resend => NO_FLOW.(popped := PoppedBy(s.core.kept, KeptHandshakes))
    case Poll => NO_FLOW.(expired := ExpiredPackets(s.core.kept))
    case _ => NO_FLOW
  }

  lemma ClientStepKept(n: CN.ClientNode, a: CN.ClientAction, n': CN.ClientNode, now: nat, ttl: nat)
    requires CN.ClientNodeOk(n) && CN.ClientStep(n, a, n', now, ttl)
    ensures KeptStep(n.state.core.kept, ClientFlow(n, a, now, ttl), n'.state.core.kept)
  {
    match a {
      case Drain(l) => ClientDrainKept(n, l, n', now, ttl);
      case DrainRequests =>
        assert n'.state.core.kept == n.state.core.kept.Append(KeptHandshakes, ClientFlow(n, a, now, ttl).sent);
      case Retry(k) => ClientRetryKept(n, k, n', now, ttl);
      case Resend => ClientResendKept(n, n', now, ttl);
      case Receive(p) => ClientReceiveKeeps(n.state, p);
      case _ =>
    }
  }

  lemma ClientDrainKept(n: CN.ClientNode, l: ListId, n': CN.ClientNode, now: nat, ttl: nat)
    requires CN.ClientStep(n, CN.Drain(l), n', now, ttl)
    ensures KeptStep(n.state.core.kept, ClientFlow(n, CN.Drain(l), now, ttl), n'.state.core.kept)
  {
    if l.IsReliable() {
      assert n'.state.core.kept == n.state.core.kept.Append(KeptList(l), ClientFlow(n, CN.Drain(l), now, ttl).sent);
    }
  }

  lemma ClientRetryKept(n: CN.ClientNode, k: KeptId, n': CN.ClientNode, now: nat, ttl: nat)
    requires CN.ClientNodeOk(n) && CN.ClientStep(n, CN.ClientAction.Retry(k), n', now, ttl)
    ensures KeptStep(n.state.core.kept, ClientFlow(n, CN.ClientAction.Retry(k), now, ttl), n'.state.core.kept)
  {
    var s := n.state;
    var ps, r := s.core.kept.At(k), Retried(s.core.kept, k, now).1;
    assert ps != [] ==> KeptFor(ps[|ps| - 1].message) == k;
    var sent := ClientFlow(n, CN.ClientAction.Retry(k), now, ttl).sent;
    assert sent == if r.Some? then [MarkSent(r.value, now, ttl)] else [];
    CN.RetryOnCore(s, k, now, ttl);
    AppendNone(Retried(s.core.kept, k, now).0, k);
    assert n'.state.core.kept == Retried(s.core.kept, k, now).0.Append(k, sent);
  }

  lemma ClientResendKept(n: CN.ClientNode, n': CN.ClientNode, now: nat, ttl: nat)
    requires CN.ClientNodeOk(n) && CN.ClientStep(n, CN.Resend, n', now, ttl)
    ensures KeptStep(n.state.core.kept, ClientFlow(n, CN.Resend, now, ttl), n'.state.core.kept)
  {
    CN.ResendingAlwaysFails(n.state, now, ttl);
    AppendNone(Retried(n.state.core.kept, KeptHandshakes, now).0, KeptHandshakes);
    assert n'.state.core.kept == Retried(n.state.core.kept, KeptHandshakes, now).0.Append(KeptHandshakes, []);
  }

  lemma ClientReceiveKeeps(s: ClientService.ClientState, p: Packet<Received>)
    ensures ClientService.DriverReceive(s, p).core.kept == s.core.kept
  {
  }

  lemma ClientFlowIsSent(n: CN.ClientNode, a: CN.ClientAction, n': CN.ClientNode, now: nat, ttl: nat)
    requires CN.ClientStep(n, a, n', now, ttl)
    ensures forall p :: p in ClientFlow(n, a, now, ttl).sent ==> WireOfSent(p) in n'.sent
  {
    match a {
      case Drain(l) => AllSentWires(DrainSpec(n.state.core, l, now, ttl).1, now, ttl);
      case DrainRequests => AllSentWires(ClientService.DrainRequestsSpec(n.state, now, ttl).1, now, ttl);
      case Retry(k) => AllSentWires(ClientService.RetrySpec(n.state, k, now, ttl).1, now, ttl);
      case _ =>
    }
  }

  // ---------------------------------------------------------------- over a run

  ghost predicate BalancesAt(ks: seq<Kept>, flows: seq<Flow>, i: nat)
    requires |ks| == |flows| + 1 && i < |flows|
  {
    Balances(ks[i], flows[i], ks[i + 1])
  }

  function Sents(flows: seq<Flow>): seq<SentPacket> {
    if flows == [] then [] else Sents(flows[..|flows| - 1]) + flows[|flows| - 1].sent
  }

  function Poppeds(flows: seq<Flow>): seq<SentPacket> {
    if flows == [] then [] else Poppeds(flows[..|flows| - 1]) + flows[|flows| - 1].popped
  }

  function Expireds(flows: seq<Flow>): seq<SentPacket> {
    if flows == [] then [] else Expireds(flows[..|flows| - 1]) + flows[|flows| - 1].expired
  }

  lemma {:induction false} BalancesInAll(ks: seq<Kept>, flows: seq<Flow>)
    requires |ks| == |flows| + 1 && ks[0] == NOTHING_KEPT
    requires forall i: nat :: i < |flows| ==> BalancesAt(ks, flows, i)
    ensures ks[|flows|].Held() + multiset(Poppeds(flows)) + multiset(Expireds(flows)) == multiset(Sents(flows))
    decreases |flows|
  {
    if flows != [] {
      var n := |flows| - 1;
      var ks', flows' := ks[..n + 1], flows[..n];
      forall i: nat | i < n ensures BalancesAt(ks', flows', i) {
        assert BalancesAt(ks, flows, i);
      }
      BalancesInAll(ks', flows');
      assert BalancesAt(ks, flows, n);
      var f := flows[n];
      Joined(Poppeds(flows'), f.popped);
      Joined(Expireds(flows'), f.expired);
      Joined(Sents(flows'), f.sent);
      OneMoreFlow(ks[n].Held(), ks[n + 1].Held(), multiset(Poppeds(flows')), multiset(Expireds(flows')), multiset(Sents(flows')), f);
    }
  }

  lemma Joined(ps: seq<SentPacket>, qs: seq<SentPacket>)
    ensures multiset(ps + qs) == multiset(ps) + multiset(qs)
  {
  }

  lemma OneMoreFlow(held: multiset<SentPacket>, held': multiset<SentPacket>, popped: multiset<SentPacket>,
      expired: multiset<SentPacket>, sent: multiset<SentPacket>, f: Flow)
    requires held + popped + expired == sent
    requires held' + multiset(f.popped) + multiset(f.expired) == held + multiset(f.sent)
    ensures held' + (popped + multiset(f.popped)) + (expired + multiset(f.expired)) == sent + multiset(f.sent)
  {
    forall p: SentPacket
      ensures held'[p] + (popped[p] + multiset(f.popped)[p]) + (expired[p] + multiset(f.expired)[p]) == sent[p] + multiset(f.sent)[p]
    {
      assert (held + popped + expired)[p] == sent[p];
      assert (held' + multiset(f.popped) + multiset(f.expired))[p] == (held + multiset(f.sent))[p];
    }
  }

  ghost function ServerStepFlow(y: System, step: Step): Flow {
    if step.action.ServerActs? then ServerFlow(y.server, step.action.act, step.now, y.ttl) else NO_FLOW
  }

  ghost function ServerFlows(ys: seq<System>, steps: seq<Step>): seq<Flow>
    requires |ys| == |steps| + 1
  {
    seq(|steps|, i requires 0 <= i < |steps| => ServerStepFlow(ys[i], steps[i]))
  }

  function ServerKepts(ys: seq<System>): seq<Kept> {
    seq(|ys|, i requires 0 <= i < |ys| => ys[i].server.state.core.kept)
  }

  lemma ServerStepIn(y: System, step: Step, y': System)
    requires Inv(y) && Next(y, step.action, y', step.now)
    ensures KeptStep(y.server.state.core.kept, ServerStepFlow(y, step), y'.server.state.core.kept)
    ensures forall p :: p in ServerStepFlow(y, step).sent ==> WireOfSent(p) in y'.server.sent
  {
    var a := step.action;
    if a.ServerActs? || a.ServerHears? {
      ServerPart(y, a, y', step.now);
      ServerStepKept(y.server, ServerActionOf(a, step.now), y'.server, step.now, y.ttl);
      ServerFlowIsSent(y.server, ServerActionOf(a, step.now), y'.server, step.now, y.ttl);
    } else {
      ClientPart(y, a, y', step.now);
    }
  }

  lemma ServerBalancesAt(ys: seq<System>, steps: seq<Step>, i: nat)
    requires Trace(ys, steps) && i < |steps|
    ensures Balances(ys[i].server.state.core.kept, ServerStepFlow(ys[i], steps[i]), ys[i + 1].server.state.core.kept)
    ensures forall p :: p in ServerStepFlow(ys[i], steps[i]).sent ==> WireOfSent(p) in ys[i + 1].server.sent
  {
    TraceIsRun(ys, steps);
    EveryState(ys, i);
    assert Follow(ys, steps, i);
    ServerStepIn(ys[i], steps[i], ys[i + 1]);
    KeptStepBalances(ys[i].server.state.core.kept, ServerStepFlow(ys[i], steps[i]), ys[i + 1].server.state.core.kept);
  }

  lemma NothingKeptYet(y: System)
    requires Init(y)
    ensures y.server.state.core.kept == NOTHING_KEPT
    ensures forall a :: a in y.clients ==> y.clients[a].state.core.kept == NOTHING_KEPT
  {
  }

  // Over any run: the reliable packets the server sent, first and repeated transmissions alike,
  // are those it keeps, those it took out to retry them, and those it let expire.
  lemma ServerAccount(ys: seq<System>, steps: seq<Step>)
    requires Trace(ys, steps)
    ensures var flows := ServerFlows(ys, steps);
      ys[|steps|].server.state.core.kept.Held() + multiset(Poppeds(flows)) + multiset(Expireds(flows)) == multiset(Sents(flows))
    ensures forall i: nat, p :: i < |steps| && p in ServerStepFlow(ys[i], steps[i]).sent ==> WireOfSent(p) in ys[i + 1].server.sent
  {
    ServerBalance(ys, steps);
    forall i: nat, p | i < |steps| && p in ServerStepFlow(ys[i], steps[i]).sent
      ensures WireOfSent(p) in ys[i + 1].server.sent
    {
      ServerBalancesAt(ys, steps, i);
    }
  }

  lemma ServerBalance(ys: seq<System>, steps: seq<Step>)
    requires Trace(ys, steps)
    ensures var flows := ServerFlows(ys, steps);
      ys[|steps|].server.state.core.kept.Held() + multiset(Poppeds(flows)) + multiset(Expireds(flows)) == multiset(Sents(flows))
  {
    var ks, flows := ServerKepts(ys), ServerFlows(ys, steps);
    NothingKeptYet(ys[0]);
    forall i: nat | i < |flows| ensures BalancesAt(ks, flows, i) {
      ServerBalancedAt(ys, steps, i);
    }
    BalancesInAll(ks, flows);
  }

  lemma ServerBalancedAt(ys: seq<System>, steps: seq<Step>, i: nat)
    requires Trace(ys, steps) && i < |steps|
    ensures BalancesAt(ServerKepts(ys), ServerFlows(ys, steps), i)
  {
    ServerBalancesAt(ys, steps, i);
  }

  ghost function ClientStepFlow(y: System, step: Step, c: SocketAddr): Flow {
    if step.action.ClientActs? && step.action.client == c && c in y.clients
    then ClientFlow(y.clients[c], step.action.action, step.now, y.ttl) else NO_FLOW
  }

  ghost function ClientFlows(ys: seq<System>, steps: seq<Step>, c: SocketAddr): seq<Flow>
    requires |ys| == |steps| + 1
  {
    seq(|steps|, i requires 0 <= i < |steps| => ClientStepFlow(ys[i], steps[i], c))
  }

  function KeptOf(y: System, c: SocketAddr): Kept {
    if c in y.clients then y.clients[c].state.core.kept else NOTHING_KEPT
  }

  function ClientKepts(ys: seq<System>, c: SocketAddr): seq<Kept> {
    seq(|ys|, i requires 0 <= i < |ys| => KeptOf(ys[i], c))
  }

  lemma ClientStepIn(y: System, step: Step, y': System, c: SocketAddr)
    requires Inv(y) && Next(y, step.action, y', step.now)
    ensures KeptStep(KeptOf(y, c), ClientStepFlow(y, step, c), KeptOf(y', c))
    ensures forall p :: p in ClientStepFlow(y, step, c).sent ==> c in y'.clients && WireOfSent(p) in y'.clients[c].sent
  {
    var a := step.action;
    if (a.ClientActs? || a.ClientHears?) && ClientOf(a) == c {
      ThisClientIn(y, step, y', c);
    } else {
      OtherStepIn(y, step, y', c);
    }
  }

  lemma ThisClientIn(y: System, step: Step, y': System, c: SocketAddr)
    requires Inv(y) && Next(y, step.action, y', step.now)
    requires (step.action.ClientActs? || step.action.ClientHears?) && ClientOf(step.action) == c
    ensures KeptStep(KeptOf(y, c), ClientStepFlow(y, step, c), KeptOf(y', c))
    ensures forall p :: p in ClientStepFlow(y, step, c).sent ==> c in y'.clients && WireOfSent(p) in y'.clients[c].sent
  {
    var action := ClientActionOf(y, step.action, step.now);
    ClientPart(y, step.action, y', step.now);
    assert ClientInv(y, c);
    ClientStepKept(y.clients[c], action, y'.clients[c], step.now, y.ttl);
    ClientFlowIsSent(y.clients[c], action, y'.clients[c], step.now, y.ttl);
  }

  lemma OtherStepIn(y: System, step: Step, y': System, c: SocketAddr)
    requires Next(y, step.action, y', step.now)
    requires step.action.ClientActs? || step.action.ClientHears? ==> ClientOf(step.action) != c
    ensures ClientStepFlow(y, step, c) == NO_FLOW && KeptOf(y', c) == KeptOf(y, c)
  {
  }

  lemma ClientBalancesAt(ys: seq<System>, steps: seq<Step>, c: SocketAddr, i: nat)
    requires Trace(ys, steps) && i < |steps|
    ensures Balances(KeptOf(ys[i], c), ClientStepFlow(ys[i], steps[i], c), KeptOf(ys[i + 1], c))
    ensures forall p :: p in ClientStepFlow(ys[i], steps[i], c).sent ==> c in ys[i + 1].clients && WireOfSent(p) in ys[i + 1].clients[c].sent
  {
    TraceIsRun(ys, steps);
    EveryState(ys, i);
    assert Follow(ys, steps, i);
    ClientStepIn(ys[i], steps[i], ys[i + 1], c);
    KeptStepBalances(KeptOf(ys[i], c), ClientStepFlow(ys[i], steps[i], c), KeptOf(ys[i + 1], c));
  }

  // The same for each client.
  lemma ClientAccount(ys: seq<System>, steps: seq<Step>, c: SocketAddr)
    requires Trace(ys, steps) && c in ys[|steps|].clients
    ensures var flows := ClientFlows(ys, steps, c);
      ys[|steps|].clients[c].state.core.kept.Held() + multiset(Poppeds(flows)) + multiset(Expireds(flows)) == multiset(Sents(flows))
    ensures forall i: nat, p :: i < |steps| && p in ClientStepFlow(ys[i], steps[i], c).sent ==>
      c in ys[i + 1].clients && WireOfSent(p) in ys[i + 1].clients[c].sent
  {
    ClientBalance(ys, steps, c);
    forall i: nat, p | i < |steps| && p in ClientStepFlow(ys[i], steps[i], c).sent
      ensures c in ys[i + 1].clients && WireOfSent(p) in ys[i + 1].clients[c].sent
    {
      ClientBalancesAt(ys, steps, c, i);
    }
  }

  lemma ClientBalance(ys: seq<System>, steps: seq<Step>, c: SocketAddr)
    requires Trace(ys, steps)
    ensures var flows := ClientFlows(ys, steps, c);
      KeptOf(ys[|steps|], c).Held() + multiset(Poppeds(flows)) + multiset(Expireds(flows)) == multiset(Sents(flows))
  {
    var ks, flows := ClientKepts(ys, c), ClientFlows(ys, steps, c);
    NothingKeptYet(ys[0]);
    forall i: nat | i < |flows| ensures BalancesAt(ks, flows, i) {
      ClientBalancedAt(ys, steps, c, i);
    }
    BalancesInAll(ks, flows);
  }

  lemma ClientBalancedAt(ys: seq<System>, steps: seq<Step>, c: SocketAddr, i: nat)
    requires Trace(ys, steps) && i < |steps|
    ensures BalancesAt(ClientKepts(ys, c), ClientFlows(ys, steps, c), i)
  {
    ClientBalancesAt(ys, steps, c, i);
  }
}
