// Every step of a node, whatever it receives, stamps new packets with fresh ids and keeps the
// origin of all packets.
module OriginSteps {
  import opened Packets
  import opened Fragments
  import opened Peers
  import opened Scheduler
  import opened Reliability
  import opened Endpoint
  import opened LocalState
  import opened Discipline
  import opened Outbox
  import opened Origins
  import ServerService
  import ClientService
  import SN = ServerNodes
  import SR = ServerReceives
  import CN = ClientNodes
  import CR = ClientReceives

  ghost predicate ServerMoves(n: SN.ServerNode, n': SN.ServerNode, payload: Bytes) {
    && Moves(n.state.core, n'.state.core, n.first, n'.first)
    && Fills(n.state.core.lists, n'.state.core.lists, payload)
    && Sized(payload, n'.oversized)
    && (n.oversized ==> n'.oversized)
  }

  lemma ServerDrainMoves(n: SN.ServerNode, l: ListId, n': SN.ServerNode, now: nat, ttl: nat)
    requires SN.ServerStep(n, SN.Drain(l), n', now, ttl)
    ensures ServerMoves(n, n', [])
  {
    var core := n.state.core;
    var (core', out) := DrainSpec(core, l, now, ttl);
    DrainedListed(core.connected, core.lists.At(l), now);
    DrainMoves(core, core', n.first, l, Wires(out));
  }

  lemma ServerAcceptedMoves(n: SN.ServerNode, n': SN.ServerNode, now: nat, ttl: nat)
    requires SN.ServerNodeOk(n) && SN.ServerStep(n, SN.DrainAccepted, n', now, ttl)
    ensures ServerMoves(n, n', [])
  {
    SN.AcceptedDisciplined(n.state, now, ttl);
    DrainMoves(n.state.core, n'.state.core, n.first, Handshakes, Wires(ServerService.DrainAcceptedSpec(n.state, now, ttl).1));
  }

  lemma ServerRetryMoves(n: SN.ServerNode, a: SN.ServerAction, n': SN.ServerNode, now: nat, ttl: nat)
    requires SN.ServerNodeOk(n) && SN.ServerStep(n, a, n', now, ttl) && a.Retry?
    ensures ServerMoves(n, n', [])
  {
    SN.RetryKeepsServer(n, a, n', now, ttl);
    QuietMoves(n.state.core, n'.state.core, n.first);
  }

  lemma ServerReceiveMoves(n: SN.ServerNode, a: SN.ServerAction, n': SN.ServerNode, now: nat, ttl: nat)
    requires SN.ServerNodeOk(n) && SN.ServerStep(n, a, n', now, ttl) && a.Receive?
    ensures ServerMoves(n, n', [])
  {
    var s, s', p := n.state, n'.state, a.packet;
    if p.message.ConnectionRequest? {
      SR.RequestOutcome(s, p, now);
      if s'.core.lists == s.core.lists {
        QuietMoves(s.core, s'.core, n.first);
      } else {
        StampOneMoves(s.core, s'.core, n.first, Scheduled(s.core.packetIdTracker, p.delivery.address, now, ConnectionAccepted(s.connectionIdTracker)));
      }
    } else if p.message.ForConnected() {
      SR.ConnectedReceive(s, p, now);
      QuietMoves(s.core, s'.core, n.first);
    } else {
      QuietMoves(s.core, s'.core, n.first);
    }
  }

  lemma ServerStepMoves(n: SN.ServerNode, a: SN.ServerAction, n': SN.ServerNode, now: nat, ttl: nat) returns (payload: Bytes)
    requires SN.ServerNodeOk(n) && SN.ServerStep(n, a, n', now, ttl)
    ensures ServerMoves(n, n', payload)
  {
    var core, core' := n.state.core, n'.state.core;
    payload := [];
    match a {
      case Schedule(reliability, sendTo, data, order) =>
        payload := if ScheduleSpec(core, reliability, sendTo, data, order, now).1.Ok? then data else [];
        ScheduleMoves(core, n.first, reliability, sendTo, data, order, now);
      case SendHeartbeat(reliability, sendTo, order) => HeartbeatMoves(core, n.first, reliability, sendTo, order, now);
      case Drain(l) => ServerDrainMoves(n, l, n', now, ttl);
      case DrainAccepted => ServerAcceptedMoves(n, n', now, ttl);
      case Retry(_) => ServerRetryMoves(n, a, n', now, ttl);
      case Receive(_) => ServerReceiveMoves(n, a, n', now, ttl);
      case Poll(_) => QuietMoves(core, core', n.first);
    }
  }

  ghost predicate ClientMoves(n: CN.ClientNode, n': CN.ClientNode, payload: Bytes) {
    && Moves(n.state.core, n'.state.core, n.first, n'.first)
    && Fills(n.state.core.lists, n'.state.core.lists, payload)
    && Sized(payload, n'.oversized)
    && (n.oversized ==> n'.oversized)
  }

  lemma ClientDrainMoves(n: CN.ClientNode, l: ListId, n': CN.ClientNode, now: nat, ttl: nat)
    requires CN.ClientStep(n, CN.Drain(l), n', now, ttl)
    ensures ClientMoves(n, n', [])
  {
    var core := n.state.core;
    var (core', out) := DrainSpec(core, l, now, ttl);
    DrainedListed(core.connected, core.lists.At(l), now);
    DrainMoves(core, core', n.first, l, Wires(out));
  }

  lemma ConnectMoves(n: CN.ClientNode, address: SocketAddr, n': CN.ClientNode, now: nat, ttl: nat)
    requires CN.ClientStep(n, CN.Connect(address), n', now, ttl)
    ensures ClientMoves(n, n', [])
  {
  }

  lemma ClientRetryMoves(n: CN.ClientNode, k: KeptId, n': CN.ClientNode, now: nat, ttl: nat)
    requires CN.ClientNodeOk(n) && CN.ClientStep(n, CN.Retry(k), n', now, ttl)
    ensures ClientMoves(n, n', [])
  {
    CN.RetryOnCore(n.state, k, now, ttl);
    CoreRetryKeeps(n.state.core, n.first, k, now, ttl);
    QuietMoves(n.state.core, n'.state.core, n.first);
  }

  lemma RequestsMove(n: CN.ClientNode, n': CN.ClientNode, now: nat, ttl: nat)
    requires CN.ClientStep(n, CN.DrainRequests, n', now, ttl)
    ensures ClientMoves(n, n', [])
  {
    RequestsListed(n.state, now, ttl);
    DrainMoves(n.state.core, n'.state.core, n.first, Handshakes, Wires(ClientService.DrainRequestsSpec(n.state, now, ttl).1));
  }

  lemma ClientStepMoves(n: CN.ClientNode, a: CN.ClientAction, n': CN.ClientNode, now: nat, ttl: nat) returns (payload: Bytes)
    requires CN.ClientNodeOk(n) && CN.ClientStep(n, a, n', now, ttl)
    ensures ClientMoves(n, n', payload)
  {
    var core, core' := n.state.core, n'.state.core;
    payload := [];
    match a {
      case Connect(address) => ConnectMoves(n, address, n', now, ttl);
      case Schedule(reliability, sendTo, data, order) =>
        payload := if ScheduleSpec(core, reliability, sendTo, data, order, now).1.Ok? then data else [];
        ScheduleMoves(core, n.first, reliability, sendTo, data, order, now);
      case SendHeartbeat(reliability, sendTo, order) => HeartbeatMoves(core, n.first, reliability, sendTo, order, now);
      case Resend =>
        CN.ResendingAlwaysFails(n.state, now, ttl);
        QuietMoves(core, core', n.first);
      case Retry(k) => ClientRetryMoves(n, k, n', now, ttl);
      case DrainRequests => RequestsMove(n, n', now, ttl);
      case Drain(l) => ClientDrainMoves(n, l, n', now, ttl);
      case Receive(p) =>
        CR.ReceiveOutcome(n.state, p);
        QuietMoves(core, core', n.first);
      case Poll => QuietMoves(core, core', n.first);
    }
  }

  lemma RequestsListed(s: ClientService.ClientState, now: nat, ttl: nat)
    requires ClientService.AllRequestable(s.requesting, s.core.lists.handshakes)
    ensures forall w :: w in Wires(ClientService.DrainRequestsSpec(s, now, ttl).1) ==>
      exists x :: x in s.core.lists.At(Handshakes) && x.packetId == w.packetId && x.message == w.message
  {
  }

  // The origins are kept by all steps.
  lemma ServerStepKeepsOrigins(n: SN.ServerNode, a: SN.ServerAction, n': SN.ServerNode, now: nat, ttl: nat)
    requires SN.ServerNodeOk(n) && SN.ServerStep(n, a, n', now, ttl)
    requires OriginsOk(n.state.core.lists, n.first, n.oversized)
    ensures OriginsOk(n'.state.core.lists, n'.first, n'.oversized)
  {
    var payload := ServerStepMoves(n, a, n', now, ttl);
    MovesKeepOrigins(n.state.core, n'.state.core, n.first, n'.first, n.oversized, n'.oversized, payload);
  }

  lemma ClientStepKeepsOrigins(n: CN.ClientNode, a: CN.ClientAction, n': CN.ClientNode, now: nat, ttl: nat)
    requires CN.ClientNodeOk(n) && CN.ClientStep(n, a, n', now, ttl)
    requires OriginsOk(n.state.core.lists, n.first, n.oversized)
    ensures OriginsOk(n'.state.core.lists, n'.first, n'.oversized)
  {
    var payload := ClientStepMoves(n, a, n', now, ttl);
    MovesKeepOrigins(n.state.core, n'.state.core, n.first, n'.first, n.oversized, n'.oversized, payload);
  }
}
