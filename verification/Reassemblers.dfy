// What the reassemblers of connected peers hold, over whole runs of the system: the `reassembler`
// maps of server/service.rs, client/service.rs and peers.rs.
module Reassemblers {
  import opened Packets
  import opened Fragments
  import opened Reassembly
  import opened Peers
  import opened Scheduler
  import opened Reliability
  import opened Endpoint
  import opened LocalState
  import opened Discipline
  import opened Outbox
  import opened Origins
  import ServerService
  import ClientService
  import SN = ServerNodes
  import CN = ClientNodes

  // A fragment that was sent to this address.
  ghost predicate SentTo(first: seq<Wire>, a: SocketAddr, p: FragmentPacket) {
    exists w :: w in first && Carries(w, a, p)
  }

  ghost predicate Carries(w: Wire, a: SocketAddr, p: FragmentPacket) {
    w.address == a && w.sequence == p.sequence && w.message == p.message
  }

  ghost predicate GroupOk(first: seq<Wire>, a: SocketAddr, oversized: bool, g: Group) {
    && g != []
    && (forall p :: p in g ==> SentTo(first, a, p))
    && (!oversized ==> |g| < g[0].message.total)
  }

  ghost predicate Stored(first: seq<Wire>, a: SocketAddr, oversized: bool, r: Reassembler) {
    forall q :: q in r ==> GroupOk(first, a, oversized, r[q])
  }

  ghost predicate Within(r': Reassembler, r: Reassembler) {
    forall q :: q in r' ==> q in r && r'[q] == r[q]
  }

  lemma StoredGrows(first: seq<Wire>, first': seq<Wire>, a: SocketAddr, oversized: bool, oversized': bool, r: Reassembler, r': Reassembler)
    requires Stored(first, a, oversized, r) && Within(r', r)
    requires first <= first' && (oversized ==> oversized')
    ensures Stored(first', a, oversized', r')
  {
  }

  // Two fragments under one sequence to one address belong to one group.
  lemma SameSequenceSameGroup(first: seq<Wire>, v: Wire, w: Wire)
    requires Disciplined(first) && v in first && w in first
    requires v.address == w.address && v.sequence == w.sequence
    ensures v.packetId == w.packetId
    ensures v == w || InOrder(v.message, w.message) || InOrder(w.message, v.message)
  {
  }

  // A sender's fragments, as long as no index or total overflowed its byte.
  ghost predicate Sound(lists: Lists, first: seq<Wire>, oversized: bool) {
    OriginsOk(lists, first, oversized) && (!oversized ==> Disciplined(first))
  }

  lemma SentFragment(lists: Lists, first: seq<Wire>, w: Wire)
    requires Sound(lists, first, false) && w in first && w.message.Fragment?
    ensures w.message.index < w.message.total && w.message.total >= 2
  {
    assert HasOrigin(lists, first, false, w.packetId);
    var payload :| OriginIs(lists, first, w.packetId, payload) && Sized(payload, false);
    ChunkIndex(payload, w.message);
  }

  lemma SameTotal(lists: Lists, first: seq<Wire>, a: SocketAddr, p: FragmentPacket, q: FragmentPacket)
    requires Sound(lists, first, false) && SentTo(first, a, p) && SentTo(first, a, q) && p.sequence == q.sequence
    ensures p.message.total == q.message.total >= 2
  {
    var v :| v in first && Carries(v, a, p);
    var w :| w in first && Carries(w, a, q);
    SameSequenceSameGroup(first, v, w);
    SentFragment(lists, first, v);
  }

  // Taking in one more fragment, be it a repeated one, leaves every group short of its total.
  lemma AbsorbKeepsStored(lists: Lists, first: seq<Wire>, a: SocketAddr, oversized: bool, r: Reassembler, p: FragmentPacket)
    requires WellKeyed(r) && Stored(first, a, oversized, r) && SentTo(first, a, p) && Sound(lists, first, oversized)
    ensures Stored(first, a, oversized, Absorb(r, p).0)
  {
    var r' := Absorb(r, p).0;
    if p.sequence in r' {
      if p.sequence in r {
        var g := r[p.sequence];
        assert GroupOk(first, a, oversized, g) && g[0] in g;
        if !oversized { SameTotal(lists, first, a, g[0], p); }
        assert GroupOk(first, a, oversized, g + [p]);
      } else {
        if !oversized { SameTotal(lists, first, a, p, p); }
        assert GroupOk(first, a, oversized, [p]);
      }
    }
  }

  // ---------------------------------------------------------------- what a step does to them

  function ReassemblerOf(c: ConnectedPeers, id: ConnectionId): Reassembler {
    if id in c then c[id].connection.reassembler else map[]
  }

  // Nothing is taken in.
  ghost predicate Shrinks(c: ConnectedPeers, c': ConnectedPeers) {
    forall id :: id in c' ==> Within(ReassemblerOf(c', id), ReassemblerOf(c, id))
  }

  ghost predicate Unchanged(c: ConnectedPeers, c': ConnectedPeers) {
    forall id :: ReassemblerOf(c', id) == ReassemblerOf(c, id)
  }

  ghost predicate TakesIn(c: ConnectedPeers, c': ConnectedPeers, p: Packet<Received>) {
    forall id :: id in c' ==>
      ReassemblerOf(c', id) == if p.message.Fragment? && p.message.connectionId == id then Absorb(ReassemblerOf(c, id), p).0 else ReassemblerOf(c, id)
  }

  lemma DrainLeavesThem(core: Core, l: ListId, now: nat, ttl: nat)
    requires AllCreatable(core.connected, core.lists.At(l))
    ensures Unchanged(core.connected, DrainSpec(core, l, now, ttl).0.connected)
  {
  }

  lemma RetryLeavesThem(core: Core, first: seq<Wire>, k: KeptId, now: nat, ttl: nat)
    requires CoreOk(core) && k != KeptHandshakes && KeptSent(core.kept, first) && PendingOk(core, first)
    ensures Unchanged(core.connected, CoreRetry(core, k, now, ttl).0.connected)
  {
    CoreRetryKeeps(core, first, k, now, ttl);
  }

  lemma ServerRetryLeavesThem(n: SN.ServerNode, k: KeptId, n': SN.ServerNode, now: nat, ttl: nat)
    requires SN.ServerNodeOk(n) && SN.ServerStep(n, SN.Retry(k), n', now, ttl)
    ensures Unchanged(n.state.core.connected, n'.state.core.connected)
  {
    if k != KeptHandshakes {
      assert ServerService.RetrySpec(n.state, k, now, ttl).0 == n.state.(core := CoreRetry(n.state.core, k, now, ttl).0);
      RetryLeavesThem(n.state.core, n.first, k, now, ttl);
    }
  }

  // Only polls and received fragments change a reassembler.
  lemma ServerLeavesThem(n: SN.ServerNode, a: SN.ServerAction, n': SN.ServerNode, now: nat, ttl: nat)
    requires SN.ServerNodeOk(n) && SN.ServerStep(n, a, n', now, ttl) && !a.Receive? && !a.Poll?
    ensures Unchanged(n.state.core.connected, n'.state.core.connected)
  {
    match a {
      case Drain(l) => DrainLeavesThem(n.state.core, l, now, ttl);
      case Retry(k) => ServerRetryLeavesThem(n, k, n', now, ttl);
      case _ => ServerLeavesConnected(n, a, n', now, ttl);
    }
  }

  lemma ServerLeavesConnected(n: SN.ServerNode, a: SN.ServerAction, n': SN.ServerNode, now: nat, ttl: nat)
    requires SN.ServerStep(n, a, n', now, ttl) && !a.Receive? && !a.Drain? && !a.Retry? && !a.Poll?
    ensures n'.state.core.connected == n.state.core.connected
  {
  }

  lemma ServerShrinks(n: SN.ServerNode, a: SN.ServerAction, n': SN.ServerNode, now: nat, ttl: nat)
    requires SN.ServerNodeOk(n) && SN.ServerStep(n, a, n', now, ttl) && !a.Receive?
    ensures Shrinks(n.state.core.connected, n'.state.core.connected)
  {
    if !a.Poll? { ServerLeavesThem(n, a, n', now, ttl); }
  }

  lemma ClientLeavesConnected(n: CN.ClientNode, a: CN.ClientAction, n': CN.ClientNode, now: nat, ttl: nat)
    requires CN.ClientStep(n, a, n', now, ttl) && !a.Receive? && !a.Drain? && !a.Retry?
    ensures n'.state.core.connected == n.state.core.connected
  {
  }

  lemma ClientRetryLeavesThem(n: CN.ClientNode, k: KeptId, n': CN.ClientNode, now: nat, ttl: nat)
    requires CN.ClientNodeOk(n) && CN.ClientStep(n, CN.Retry(k), n', now, ttl)
    ensures Unchanged(n.state.core.connected, n'.state.core.connected)
  {
    CN.RetryOnCore(n.state, k, now, ttl);
    RetryLeavesThem(n.state.core, n.first, k, now, ttl);
  }

  // A client never evicts anything.
  lemma ClientLeavesThem(n: CN.ClientNode, a: CN.ClientAction, n': CN.ClientNode, now: nat, ttl: nat)
    requires CN.ClientNodeOk(n) && CN.ClientStep(n, a, n', now, ttl) && !a.Receive?
    ensures Unchanged(n.state.core.connected, n'.state.core.connected)
  {
    match a {
      case Drain(l) => DrainLeavesThem(n.state.core, l, now, ttl);
      case Retry(k) => ClientRetryLeavesThem(n, k, n', now, ttl);
      case _ => ClientLeavesConnected(n, a, n', now, ttl);
    }
  }

  lemma ServerTakesIn(s: ServerService.ServerState, p: Packet<Received>, now: nat)
    ensures TakesIn(s.core.connected, ServerService.DriverReceive(s, p, now).core.connected, p)
  {
    if p.message.ForConnected() {
      HeardTakesIn(s, p, now);
    } else {
      assert ServerService.DriverReceive(s, p, now).core.connected == s.core.connected;
    }
  }

  lemma HeardTakesIn(s: ServerService.ServerState, p: Packet<Received>, now: nat)
    requires p.message.ForConnected()
    ensures TakesIn(s.core.connected, ServerService.DriverReceive(s, p, now).core.connected, p)
  {
    var heard := ServerService.Hear(s, p.message.connectionId, p);
    if heard.Some? {
      var c := heard.value.core.connected;
      assert forall id :: ReassemblerOf(c, id) == ReassemblerOf(s.core.connected, id);
    }
  }

  lemma ClientTakesIn(s: ClientService.ClientState, p: Packet<Received>)
    ensures TakesIn(s.core.connected, ClientService.DriverReceive(s, p).core.connected, p)
  {
    if !p.message.ConnectionRequest? {
      var heard := ClientService.Hear(s, p.message.connectionId, p);
      if heard.Some? {
        var c := heard.value.core.connected;
        assert forall id :: ReassemblerOf(c, id) == ReassemblerOf(s.core.connected, id);
      }
    }
  }
}
