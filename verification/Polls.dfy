// What the sending half of a driver's poll achieves, in terms of what was scheduled and kept before
// it: antarc/src/server.rs and antarc/src/client.rs `poll`, antarc/src/lib.rs `poll_*`.
module Polls {
  import opened Packets
  import opened Peers
  import opened Scheduler
  import opened Reliability
  import opened Endpoint
  import opened Discipline
  import opened Outbox
  import ServerService
  import ClientService
  import SN = ServerNodes
  import CN = ClientNodes
  import LocalState

  // One transmission for each scheduled packet, in order; to a connected peer it acks what was last
  // heard from that peer.
  ghost predicate SendsEach(c: ConnectedPeers, xs: seq<Scheduled>, ws: seq<Wire>) {
    && |ws| == |xs|
    && forall i :: 0 <= i < |xs| ==>
      && ws[i].packetId == xs[i].packetId && ws[i].address == xs[i].address && ws[i].message == xs[i].message
      && (xs[i].message.ForConnected() && xs[i].message.connectionId in c ==> ws[i].ack == c[xs[i].message.connectionId].remoteAck)
  }

  // Beside the lists, sending changes nothing but the sequences the connected peers are at: not what
  // was heard from them, not the events, not the packet ids.
  ghost predicate OnlySequences(core: Core, core': Core) {
    && OnlyTrackersRise(core.connected, core'.connected)
    && core'.api == core.api && core'.packetIdTracker == core.packetIdTracker
  }

  lemma SendsBoth(c: ConnectedPeers, xs: seq<Scheduled>, ws: seq<Wire>, ys: seq<Scheduled>, vs: seq<Wire>)
    requires SendsEach(c, xs, ws) && SendsEach(c, ys, vs)
    ensures SendsEach(c, xs + ys, ws + vs)
  {
  }

  lemma SendsAsBefore(c: ConnectedPeers, c': ConnectedPeers, xs: seq<Scheduled>, ws: seq<Wire>)
    requires OnlyTrackersRise(c, c') && SendsEach(c', xs, ws)
    ensures SendsEach(c, xs, ws)
  {
  }

  // A retry of a kept list: the newest packet goes out again if it is late, and stays the newest
  // with a new time; if it is not late it is dropped.
  predicate Late(ps: seq<SentPacket>, now: nat) {
    ps != [] && ps[|ps| - 1].delivery.time + now > 1_000_000_000_000
  }

  function Again(ps: seq<SentPacket>, now: nat): seq<Wire> {
    if Late(ps, now) then
      var p := ps[|ps| - 1];
      [Wire(p.delivery.id, p.delivery.address, p.sequence, p.ack, p.message)]
    else []
  }

  function KeptAgain(ps: seq<SentPacket>, now: nat, ttl: nat): seq<SentPacket> {
    if ps == [] then []
    else
      var p := ps[|ps| - 1];
      ps[..|ps| - 1]
      + if Late(ps, now) then [Packet(Sent(p.delivery.id, ttl, now, p.delivery.address), p.sequence, p.ack, p.message)] else []
  }

  // One kept packet more for each of these, in order.
  ghost predicate KeepsEach(before: seq<SentPacket>, xs: seq<Scheduled>, after: seq<SentPacket>, now: nat, ttl: nat) {
    && |after| == |before| + |xs| && before <= after
    && forall i :: 0 <= i < |xs| ==>
      && after[|before| + i].delivery == Sent(xs[i].packetId, ttl, now, xs[i].address)
      && after[|before| + i].message == xs[i].message
  }

  // ---------------------------------------------------------------- what one phase does

  ghost predicate RetryDoes(core: Core, core': Core, k: KeptId, ws: seq<Wire>, now: nat, ttl: nat) {
    && core'.lists == core.lists
    && core'.kept == core.kept.Set(k, KeptAgain(core.kept.At(k), now, ttl))
    && ws == Again(core.kept.At(k), now)
    && OnlySequences(core, core')
  }

  ghost predicate DrainDoes(core: Core, core': Core, l: ListId, ws: seq<Wire>, now: nat, ttl: nat) {
    && core'.lists == core.lists.Set(l, [])
    && SendsEach(core.connected, core.lists.At(l), ws)
    && OnlySequences(core, core')
    && (forall k :: k != KeptList(l) || !l.IsReliable() ==> core'.kept.At(k) == core.kept.At(k))
    && (l.IsReliable() ==> KeepsEach(core.kept.At(KeptList(l)), core.lists.At(l), core'.kept.At(KeptList(l)), now, ttl))
  }

  lemma DrainedSends(c: ConnectedPeers, xs: seq<Scheduled>, now: nat)
    requires AllCreatable(c, xs)
    ensures SendsEach(c, xs, Wires(Drained(c, xs, now)))
  {
  }

  lemma AdvancedOnly(c: ConnectedPeers, xs: seq<Scheduled>)
    ensures OnlyTrackersRise(c, Advanced(c, xs))
  {
  }

  lemma KeepsSent(c: ConnectedPeers, before: seq<SentPacket>, xs: seq<Scheduled>, now: nat, ttl: nat)
    requires AllCreatable(c, xs)
    ensures KeepsEach(before, xs, before + AllSent(Drained(c, xs, now), now, ttl), now, ttl)
  {
  }

  lemma DrainKeeps(core: Core, l: ListId, now: nat, ttl: nat)
    requires AllCreatable(core.connected, core.lists.At(l)) && l.IsReliable()
    ensures var core' := DrainSpec(core, l, now, ttl).0;
      KeepsEach(core.kept.At(KeptList(l)), core.lists.At(l), core'.kept.At(KeptList(l)), now, ttl)
  {
    var xs := core.lists.At(l);
    AppendedAt(core.kept, KeptList(l), AllSent(Drained(core.connected, xs, now), now, ttl));
    KeepsSent(core.connected, core.kept.At(KeptList(l)), xs, now, ttl);
  }

  lemma AppendedAt(kept: Kept, k: KeptId, ps: seq<SentPacket>)
    ensures kept.Append(k, ps).At(k) == kept.At(k) + ps
  {
  }

  lemma DrainSends(core: Core, l: ListId, now: nat, ttl: nat)
    requires AllCreatable(core.connected, core.lists.At(l))
    ensures var (core', out) := DrainSpec(core, l, now, ttl); DrainDoes(core, core', l, Wires(out), now, ttl)
  {
    DrainedSends(core.connected, core.lists.At(l), now);
    AdvancedOnly(core.connected, core.lists.At(l));
    if l.IsReliable() { DrainKeeps(core, l, now, ttl); }
  }

  lemma RetriedIs(kept: Kept, k: KeptId, now: nat, ttl: nat)
    ensures var (kept', r) := Retried(kept, k, now);
      && (r.Some? <==> Late(kept.At(k), now))
      && (r.Some? ==> Again(kept.At(k), now) == [WireOf(r.value)])
      && kept'.At(k) + (if r.Some? then [MarkSent(r.value, now, ttl)] else []) == KeptAgain(kept.At(k), now, ttl)
      && kept'.Set(k, KeptAgain(kept.At(k), now, ttl)) == kept.Set(k, KeptAgain(kept.At(k), now, ttl))
  {
  }

  // ---------------------------------------------------------------- the server's phases

  // What a step transmits.
  ghost function ServerTransmits(n: SN.ServerNode, a: SN.ServerAction, now: nat, ttl: nat): seq<Packet<ToSend>> {
    var s := n.state;
    match a
    case Drain(l) => if AllCreatable(s.core.connected, s.core.lists.At(l)) then DrainSpec(s.core, l, now, ttl).1 else []
    case DrainAccepted =>
      if ServerService.AllAcceptable(s.awaiting, s.core.lists.handshakes) then ServerService.DrainAcceptedSpec(s, now, ttl).1 else []
    case Retry(k) =>
      if Shaped(s.core.kept) && ServerService.KeptAccepts(s.core.kept) then ServerService.RetrySpec(s, k, now, ttl).1 else []
    case _ => []
  }

  // A packet sent again uses up a sequence of its peer once more, unless it is a fragment before the
  // last, though it carries its old one. No other peer changes.
  lemma RetryBumpsOne(s: ServerService.ServerState, k: KeptId, now: nat, ttl: nat)
    requires Shaped(s.core.kept) && ServerService.KeptAccepts(s.core.kept)
    ensures var c, c' := s.core.connected, ServerService.RetrySpec(s, k, now, ttl).0.core.connected;
      var ps := s.core.kept.At(k);
      && c'.Keys == c.Keys
      && forall id :: id in c ==> c'[id] == c[id].(sequenceTracker := c[id].sequenceTracker +
           if Late(ps, now) && k != KeptHandshakes && MovesOn(ps[|ps| - 1].message, id) then 1 else 0)
  {
  }

  predicate MovesOn(m: Message, id: ConnectionId) {
    && !m.ConnectionRequest? && m.connectionId == id
    && (m.Fragment? ==> m.index == if m.total == 0 then 255 else m.total - 1)
  }

  lemma ServerRetryDoes(n: SN.ServerNode, k: KeptId, n': SN.ServerNode, now: nat, ttl: nat)
    requires SN.ServerStep(n, SN.ServerAction.Retry(k), n', now, ttl)
    ensures RetryDoes(n.state.core, n'.state.core, k, Wires(ServerTransmits(n, SN.ServerAction.Retry(k), now, ttl)), now, ttl)
    ensures n'.first == n.first
  {
    var s := n.state;
    var ps, r := s.core.kept.At(k), Retried(s.core.kept, k, now).1;
    assert ps != [] ==> KeptFor(ps[|ps| - 1].message) == k;
    RetriedIs(s.core.kept, k, now, ttl);
    RetryBumpsOne(s, k, now, ttl);
    var out := ServerTransmits(n, SN.ServerAction.Retry(k), now, ttl);
    assert out == if r.Some? then [r.value] else [];
    assert Wires(out) == Again(ps, now);
    if r.Some? {
      assert n'.state.core.kept == Retried(s.core.kept, k, now).0.Append(k, [MarkSent(r.value, now, ttl)]);
    }
  }

  lemma ServerDrainDoes(n: SN.ServerNode, l: ListId, n': SN.ServerNode, now: nat, ttl: nat)
    requires SN.ServerStep(n, SN.Drain(l), n', now, ttl)
    ensures DrainDoes(n.state.core, n'.state.core, l, Wires(ServerTransmits(n, SN.Drain(l), now, ttl)), now, ttl)
    ensures n'.first == n.first + Wires(ServerTransmits(n, SN.Drain(l), now, ttl))
  {
    DrainSends(n.state.core, l, now, ttl);
  }

  lemma ServerAcceptedDoes(n: SN.ServerNode, n': SN.ServerNode, now: nat, ttl: nat)
    requires SN.ServerStep(n, SN.DrainAccepted, n', now, ttl)
    ensures DrainDoes(n.state.core, n'.state.core, Handshakes, Wires(ServerTransmits(n, SN.DrainAccepted, now, ttl)), now, ttl)
    ensures n'.first == n.first + Wires(ServerTransmits(n, SN.DrainAccepted, now, ttl))
  {
    var out := ServerTransmits(n, SN.DrainAccepted, now, ttl);
    assert n'.state.core.kept.At(KeptHandshakes) == n.state.core.kept.At(KeptHandshakes) + AllSent(out, now, ttl);
  }

  // The answer carries the awaiting peer's next sequence and acks its request; the sequence is used
  // up by that. No other awaiting peer changes.
  lemma AnswersStamp(s: ServerService.ServerState, now: nat, ttl: nat)
    requires ServerService.AllAcceptable(s.awaiting, s.core.lists.handshakes)
    ensures var (s', out) := ServerService.DrainAcceptedSpec(s, now, ttl); var ws := Wires(out);
      && s'.awaiting.Keys == s.awaiting.Keys
      && (forall i :: 0 <= i < |ws| ==>
            var id := ws[i].message.connectionId;
            && ws[i].sequence == s.awaiting[id].sequenceTracker && ws[i].ack == s.awaiting[id].remoteAck
            && s'.awaiting[id] == s.awaiting[id].(sequenceTracker := s.awaiting[id].sequenceTracker + 1))
      && (forall id :: id in s.awaiting && ConnectionAccepted(id) !in Messages(ws) ==> s'.awaiting[id] == s.awaiting[id])
  {
    var (s', out) := ServerService.DrainAcceptedSpec(s, now, ttl);
    var xs, ws := s.core.lists.handshakes, Wires(out);
    forall i | 0 <= i < |ws| ensures ServerService.Accepts(xs, ws[i].message.connectionId) {
      assert xs[i].message == ws[i].message;
    }
    forall id | id in s.awaiting && ServerService.Accepts(xs, id) ensures ConnectionAccepted(id) in Messages(ws) {
      var i :| 0 <= i < |xs| && xs[i].message == ConnectionAccepted(id);
      assert ws[i].message == ConnectionAccepted(id);
    }
  }

  ghost function Messages(ws: seq<Wire>): set<Message> {
    set w | w in ws :: w.message
  }

  // ---------------------------------------------------------------- the client's phases

  ghost function ClientTransmits(n: CN.ClientNode, a: CN.ClientAction, now: nat, ttl: nat): seq<Packet<ToSend>> {
    var s := n.state;
    match a
    case Drain(l) => if AllCreatable(s.core.connected, s.core.lists.At(l)) then ClientService.DrainListSpec(s, l, now, ttl).1 else []
    case DrainRequests =>
      if ClientService.AllRequestable(s.requesting, s.core.lists.handshakes) then ClientService.DrainRequestsSpec(s, now, ttl).1 else []
    case Resend =>
      if Shaped(s.core.kept) && ClientService.ResendSpec(s, now, ttl).Ok? then ClientService.ResendSpec(s, now, ttl).value.1 else []
    case Retry(k) => if Shaped(s.core.kept) && k != KeptHandshakes then ClientService.RetrySpec(s, k, now, ttl).1 else []
    case _ => []
  }

  lemma ClientRetryDoes(n: CN.ClientNode, k: KeptId, n': CN.ClientNode, now: nat, ttl: nat)
    requires CN.ClientOk(n.state) && CN.ClientStep(n, CN.ClientAction.Retry(k), n', now, ttl)
    ensures RetryDoes(n.state.core, n'.state.core, k, Wires(ClientTransmits(n, CN.ClientAction.Retry(k), now, ttl)), now, ttl)
    ensures n'.first == n.first
  {
    var s := n.state;
    var ps, r := s.core.kept.At(k), Retried(s.core.kept, k, now).1;
    assert ps != [] ==> KeptFor(ps[|ps| - 1].message) == k;
    RetriedIs(s.core.kept, k, now, ttl);
    CN.RetryOnCore(s, k, now, ttl);
    var out := ClientTransmits(n, CN.ClientAction.Retry(k), now, ttl);
    assert out == if r.Some? then [r.value] else [];
    assert Wires(out) == Again(ps, now);
    if r.Some? {
      assert n'.state.core.kept == Retried(s.core.kept, k, now).0.Append(k, [MarkSent(r.value, now, ttl)]);
    }
  }

  lemma ClientDrainDoes(n: CN.ClientNode, l: ListId, n': CN.ClientNode, now: nat, ttl: nat)
    requires CN.ClientStep(n, CN.Drain(l), n', now, ttl)
    ensures DrainDoes(n.state.core, n'.state.core, l, Wires(ClientTransmits(n, CN.Drain(l), now, ttl)), now, ttl)
    ensures n'.first == n.first + Wires(ClientTransmits(n, CN.Drain(l), now, ttl))
  {
    DrainSends(n.state.core, l, now, ttl);
  }

  lemma RequestsDo(s: ClientService.ClientState, now: nat, ttl: nat)
    requires ClientService.AllRequestable(s.requesting, s.core.lists.handshakes)
    ensures var (s', out) := ClientService.DrainRequestsSpec(s, now, ttl); DrainDoes(s.core, s'.core, Handshakes, Wires(out), now, ttl)
  {
    var (s', out) := ClientService.DrainRequestsSpec(s, now, ttl);
    assert s'.core.kept.At(KeptHandshakes) == s.core.kept.At(KeptHandshakes) + AllSent(out, now, ttl);
  }

  lemma ClientRequestsDo(n: CN.ClientNode, n': CN.ClientNode, now: nat, ttl: nat)
    requires CN.ClientStep(n, CN.DrainRequests, n', now, ttl)
    ensures DrainDoes(n.state.core, n'.state.core, Handshakes, Wires(ClientTransmits(n, CN.DrainRequests, now, ttl)), now, ttl)
    ensures n'.first == n.first + Wires(ClientTransmits(n, CN.DrainRequests, now, ttl))
  {
    RequestsDo(n.state, now, ttl);
  }

  // Every requesting peer awaits from then on, one sequence after the one its request carried.
  ghost predicate NowAwaits(s: ClientService.ClientState, s': ClientService.ClientState, a: SocketAddr, ws: seq<Wire>)
    requires a in s.requesting
  {
    var peer := s.requesting[a];
    && a in s'.awaiting
    && s'.awaiting[a] == Peer(peer.sequenceTracker + 1, peer.remoteAck, peer.localAck, peer.address, s'.awaiting[a].connection)
    && exists w :: w in ws && w.address == a && w.message == ConnectionRequest
         && w.sequence == peer.sequenceTracker && w.ack == peer.remoteAck
  }

  lemma RequestsMove(s: ClientService.ClientState, now: nat, ttl: nat)
    requires CN.ClientOk(s) && ClientService.AllRequestable(s.requesting, s.core.lists.handshakes)
    ensures var (s', out) := ClientService.DrainRequestsSpec(s, now, ttl);
      && s'.requesting == map[] && s'.awaiting.Keys == s.awaiting.Keys + s.requesting.Keys
      && (forall a :: a in s.requesting ==> NowAwaits(s, s', a, Wires(out)))
      && (forall a :: a in s.awaiting ==> s'.awaiting[a] == s.awaiting[a])
  {
    var (s', out) := ClientService.DrainRequestsSpec(s, now, ttl);
    var xs, ws := s.core.lists.handshakes, Wires(out);
    forall a | a in s.requesting ensures NowAwaits(s, s', a, ws) {
      var i :| 0 <= i < |xs| && xs[i].address == a;
      assert ws[i].address == a && ws[i] in ws;
    }
  }

  function Front(ps: seq<SentPacket>): seq<SentPacket> {
    if ps == [] then [] else ps[..|ps| - 1]
  }

  // A request that is not late is dropped; a late one would have panicked. Nothing is sent again.
  lemma ClientResendDoes(n: CN.ClientNode, n': CN.ClientNode, now: nat, ttl: nat)
    requires CN.ClientOk(n.state) && CN.ClientStep(n, CN.Resend, n', now, ttl)
    ensures n'.state.core.lists == n.state.core.lists && OnlySequences(n.state.core, n'.state.core) && n'.first == n.first
    ensures n'.state.core.kept == n.state.core.kept.(handshakes := Front(n.state.core.kept.handshakes))
    ensures ClientTransmits(n, CN.Resend, now, ttl) == []
  {
    CN.ResendingAlwaysFails(n.state, now, ttl);
  }

  // ---------------------------------------------------------------- all phases together

  // Everything that was scheduled, in the order in which a poll sends it.
  function InPollOrder(lists: Lists): seq<Scheduled> {
    lists.handshakes + lists.unreliableData + lists.reliableData + lists.unreliableFragments + lists.reliableFragments
    + lists.unreliableHeartbeats + lists.reliableHeartbeats
  }

  // A sending half: the lists are empty, what was in them has been sent for the first time in this
  // order after what was sent again, and exactly what was reliable of it is kept.
  ghost predicate SentAll(core: Core, kept: Kept, first: seq<Wire>, core': Core, first': seq<Wire>, again: seq<Wire>, all: seq<Wire>, now: nat, ttl: nat) {
    && core'.lists == Lists([], [], [], [], [], [], [])
    && |again| <= |all| && all[..|again|] == again
    && first' == first + all[|again|..]
    && SendsEach(core.connected, InPollOrder(core.lists), all[|again|..])
    && OnlySequences(core, core')
    && KeepsAll(core.lists, kept, core'.kept, now, ttl)
  }

  ghost predicate KeepsAll(lists: Lists, kept: Kept, kept': Kept, now: nat, ttl: nat) {
    && KeepsEach(kept.handshakes, lists.handshakes, kept'.handshakes, now, ttl)
    && KeepsEach(kept.data, lists.reliableData, kept'.data, now, ttl)
    && KeepsEach(kept.fragments, lists.reliableFragments, kept'.fragments, now, ttl)
    && KeepsEach(kept.heartbeats, lists.reliableHeartbeats, kept'.heartbeats, now, ttl)
  }

  // Its two parts: the retries, of which the client has one, and the drains.
  ghost predicate RetriedAll(core: Core, core': Core, again: seq<Wire>, now: nat, ttl: nat) {
    var kept := core.kept;
    && core'.lists == core.lists
    && core'.kept == Kept(KeptAgain(kept.data, now, ttl), KeptAgain(kept.fragments, now, ttl), kept.heartbeats, KeptAgain(kept.handshakes, now, ttl))
    && again == Again(kept.handshakes, now) + Again(kept.data, now) + Again(kept.fragments, now)
    && OnlySequences(core, core')
  }

  ghost predicate RetriedData(core: Core, core': Core, again: seq<Wire>, now: nat, ttl: nat) {
    && core'.lists == core.lists
    && core'.kept == core.kept.(handshakes := Front(core.kept.handshakes), data := KeptAgain(core.kept.data, now, ttl))
    && again == Again(core.kept.data, now)
    && OnlySequences(core, core')
  }

  ghost predicate DrainedAll(core: Core, core': Core, ws: seq<Wire>, now: nat, ttl: nat) {
    && core'.lists == Lists([], [], [], [], [], [], [])
    && SendsEach(core.connected, InPollOrder(core.lists), ws)
    && OnlySequences(core, core')
    && KeepsAll(core.lists, core.kept, core'.kept, now, ttl)
  }

  lemma RetriesAll(c0: Core, c1: Core, c2: Core, c3: Core, w1: seq<Wire>, w2: seq<Wire>, w3: seq<Wire>, now: nat, ttl: nat)
    requires RetryDoes(c0, c1, KeptHandshakes, w1, now, ttl)
    requires RetryDoes(c1, c2, KeptData, w2, now, ttl) && RetryDoes(c2, c3, KeptFragments, w3, now, ttl)
    ensures RetriedAll(c0, c3, w1 + w2 + w3, now, ttl)
  {
  }

  lemma SentInAll(core: Core, between: Core, core': Core, first: seq<Wire>, again: seq<Wire>, ws: seq<Wire>, now: nat, ttl: nat)
    requires DrainedAll(between, core', ws, now, ttl) && OnlySequences(core, between) && between.lists == core.lists
    ensures SentAll(core, between.kept, first, core', first + ws, again, again + ws, now, ttl)
  {
    assert (again + ws)[|again|..] == ws;
    SendsAsBefore(core.connected, between.connected, InPollOrder(core.lists), ws);
  }

  // The end of a poll: the oldest data transfer kept goes, or else the oldest fragment, and the
  // oldest handshake packet, whatever the time.
  function Rest(ps: seq<SentPacket>): seq<SentPacket> {
    if ps == [] then [] else ps[1..]
  }

  ghost predicate Expires(kept: Kept, kept': Kept) {
    && kept'.heartbeats == kept.heartbeats && kept'.handshakes == Rest(kept.handshakes)
    && if kept.data == [] then kept'.data == [] && kept'.fragments == Rest(kept.fragments)
       else kept'.data == Rest(kept.data) && kept'.fragments == kept.fragments
  }

  lemma PollExpires(kept: Kept)
    ensures Expires(kept, Expired(kept))
  {
  }

  // The seven lists, drained in this order.
  lemma DrainsAll(c0: Core, c1: Core, c2: Core, c3: Core, c4: Core, c5: Core, c6: Core, c7: Core,
      w1: seq<Wire>, w2: seq<Wire>, w3: seq<Wire>, w4: seq<Wire>, w5: seq<Wire>, w6: seq<Wire>, w7: seq<Wire>, now: nat, ttl: nat)
    requires DrainDoes(c0, c1, Handshakes, w1, now, ttl)
    requires DrainDoes(c1, c2, UnreliableData, w2, now, ttl) && DrainDoes(c2, c3, ReliableData, w3, now, ttl)
    requires DrainDoes(c3, c4, UnreliableFragments, w4, now, ttl) && DrainDoes(c4, c5, ReliableFragments, w5, now, ttl)
    requires DrainDoes(c5, c6, UnreliableHeartbeats, w6, now, ttl) && DrainDoes(c6, c7, ReliableHeartbeats, w7, now, ttl)
    ensures DrainedAll(c0, c7, w1 + w2 + w3 + w4 + w5 + w6 + w7, now, ttl)
  {
    SendsFromStart(c0, c1, c2, c3, c4, c5, c6, c7, w1, w2, w3, w4, w5, w6, w7, now, ttl);
    SendsInOrder(c0.connected, c0.lists, w1, w2, w3, w4, w5, w6, w7);
    KeptStages(c0, c1, c2, c3, c4, c5, c6, c7, w1, w2, w3, w4, w5, w6, w7, now, ttl);
  }

  lemma ListsInTurn(l0: Lists, l1: Lists, l2: Lists, l3: Lists, l4: Lists, l5: Lists, l6: Lists, l7: Lists)
    requires l1 == l0.Set(Handshakes, []) && l2 == l1.Set(UnreliableData, []) && l3 == l2.Set(ReliableData, [])
    requires l4 == l3.Set(UnreliableFragments, []) && l5 == l4.Set(ReliableFragments, [])
    requires l6 == l5.Set(UnreliableHeartbeats, []) && l7 == l6.Set(ReliableHeartbeats, [])
    ensures l0.At(Handshakes) == l0.handshakes && l7 == Lists([], [], [], [], [], [], [])
    ensures l1.At(UnreliableData) == l0.unreliableData && l2.At(ReliableData) == l0.reliableData
    ensures l3.At(UnreliableFragments) == l0.unreliableFragments && l4.At(ReliableFragments) == l0.reliableFragments
    ensures l5.At(UnreliableHeartbeats) == l0.unreliableHeartbeats && l6.At(ReliableHeartbeats) == l0.reliableHeartbeats
  {
  }

  lemma PeersInTurn(c0: Core, c1: Core, c2: Core, c3: Core, c4: Core, c5: Core, c6: Core, c7: Core)
    requires OnlySequences(c0, c1) && OnlySequences(c1, c2) && OnlySequences(c2, c3) && OnlySequences(c3, c4)
    requires OnlySequences(c4, c5) && OnlySequences(c5, c6) && OnlySequences(c6, c7)
    ensures OnlySequences(c0, c2) && OnlySequences(c0, c3) && OnlySequences(c0, c4)
    ensures OnlySequences(c0, c5) && OnlySequences(c0, c6) && OnlySequences(c0, c7)
  {
  }

  lemma SendsFromStart(c0: Core, c1: Core, c2: Core, c3: Core, c4: Core, c5: Core, c6: Core, c7: Core,
      w1: seq<Wire>, w2: seq<Wire>, w3: seq<Wire>, w4: seq<Wire>, w5: seq<Wire>, w6: seq<Wire>, w7: seq<Wire>, now: nat, ttl: nat)
    requires DrainDoes(c0, c1, Handshakes, w1, now, ttl)
    requires DrainDoes(c1, c2, UnreliableData, w2, now, ttl) && DrainDoes(c2, c3, ReliableData, w3, now, ttl)
    requires DrainDoes(c3, c4, UnreliableFragments, w4, now, ttl) && DrainDoes(c4, c5, ReliableFragments, w5, now, ttl)
    requires DrainDoes(c5, c6, UnreliableHeartbeats, w6, now, ttl) && DrainDoes(c6, c7, ReliableHeartbeats, w7, now, ttl)
    ensures OnlySequences(c0, c7) && c7.lists == Lists([], [], [], [], [], [], [])
    ensures SendsEach(c0.connected, c0.lists.handshakes, w1)
    ensures SendsEach(c0.connected, c0.lists.unreliableData, w2) && SendsEach(c0.connected, c0.lists.reliableData, w3)
    ensures SendsEach(c0.connected, c0.lists.unreliableFragments, w4) && SendsEach(c0.connected, c0.lists.reliableFragments, w5)
    ensures SendsEach(c0.connected, c0.lists.unreliableHeartbeats, w6) && SendsEach(c0.connected, c0.lists.reliableHeartbeats, w7)
  {
    ListsInTurn(c0.lists, c1.lists, c2.lists, c3.lists, c4.lists, c5.lists, c6.lists, c7.lists);
    PeersInTurn(c0, c1, c2, c3, c4, c5, c6, c7);
    var c, l := c0.connected, c0.lists;
    SendsAsBefore(c, c1.connected, l.unreliableData, w2);
    SendsAsBefore(c, c2.connected, l.reliableData, w3);
    SendsAsBefore(c, c3.connected, l.unreliableFragments, w4);
    SendsAsBefore(c, c4.connected, l.reliableFragments, w5);
    SendsAsBefore(c, c5.connected, l.unreliableHeartbeats, w6);
    SendsAsBefore(c, c6.connected, l.reliableHeartbeats, w7);
  }

  lemma SendsInOrder(c: ConnectedPeers, l: Lists, w1: seq<Wire>, w2: seq<Wire>, w3: seq<Wire>, w4: seq<Wire>, w5: seq<Wire>, w6: seq<Wire>, w7: seq<Wire>)
    requires SendsEach(c, l.handshakes, w1) && SendsEach(c, l.unreliableData, w2) && SendsEach(c, l.reliableData, w3)
    requires SendsEach(c, l.unreliableFragments, w4) && SendsEach(c, l.reliableFragments, w5)
    requires SendsEach(c, l.unreliableHeartbeats, w6) && SendsEach(c, l.reliableHeartbeats, w7)
    ensures SendsEach(c, InPollOrder(l), w1 + w2 + w3 + w4 + w5 + w6 + w7)
  {
    SendsBoth(c, l.handshakes, w1, l.unreliableData, w2);
    SendsBoth(c, l.handshakes + l.unreliableData, w1 + w2, l.reliableData, w3);
    SendsBoth(c, l.handshakes + l.unreliableData + l.reliableData, w1 + w2 + w3, l.unreliableFragments, w4);
    SendsBoth(c, l.handshakes + l.unreliableData + l.reliableData + l.unreliableFragments, w1 + w2 + w3 + w4, l.reliableFragments, w5);
    SendsBoth(c, l.handshakes + l.unreliableData + l.reliableData + l.unreliableFragments + l.reliableFragments, w1 + w2 + w3 + w4 + w5,
      l.unreliableHeartbeats, w6);
    SendsBoth(c, l.handshakes + l.unreliableData + l.reliableData + l.unreliableFragments + l.reliableFragments + l.unreliableHeartbeats,
      w1 + w2 + w3 + w4 + w5 + w6, l.reliableHeartbeats, w7);
  }

  lemma KeptStages(c0: Core, c1: Core, c2: Core, c3: Core, c4: Core, c5: Core, c6: Core, c7: Core,
      w1: seq<Wire>, w2: seq<Wire>, w3: seq<Wire>, w4: seq<Wire>, w5: seq<Wire>, w6: seq<Wire>, w7: seq<Wire>, now: nat, ttl: nat)
    requires DrainDoes(c0, c1, Handshakes, w1, now, ttl)
    requires DrainDoes(c1, c2, UnreliableData, w2, now, ttl) && DrainDoes(c2, c3, ReliableData, w3, now, ttl)
    requires DrainDoes(c3, c4, UnreliableFragments, w4, now, ttl) && DrainDoes(c4, c5, ReliableFragments, w5, now, ttl)
    requires DrainDoes(c5, c6, UnreliableHeartbeats, w6, now, ttl) && DrainDoes(c6, c7, ReliableHeartbeats, w7, now, ttl)
    ensures KeepsAll(c0.lists, c0.kept, c7.kept, now, ttl)
  {
    assert c7.kept.handshakes == c7.kept.At(KeptHandshakes) == c1.kept.At(KeptHandshakes);
    assert c7.kept.data == c7.kept.At(KeptData) == c3.kept.At(KeptData) && c2.kept.At(KeptData) == c0.kept.At(KeptData);
    assert c7.kept.fragments == c7.kept.At(KeptFragments) == c5.kept.At(KeptFragments) && c4.kept.At(KeptFragments) == c0.kept.At(KeptFragments);
    assert c7.kept.heartbeats == c7.kept.At(KeptHeartbeats) && c6.kept.At(KeptHeartbeats) == c0.kept.At(KeptHeartbeats);
  }

  lemma Regroup(start: seq<Wire>, a: seq<Wire>, b: seq<Wire>)
    ensures (start + a) + b == start + (a + b)
  {
  }

  lemma RegroupAll(start: seq<Wire>, w1: seq<Wire>, w2: seq<Wire>, w3: seq<Wire>, w4: seq<Wire>, w5: seq<Wire>, w6: seq<Wire>, w7: seq<Wire>)
    ensures start + w1 + w2 + w3 + w4 + w5 + w6 + w7 == start + (w1 + w2 + w3 + w4 + w5 + w6 + w7)
  {
    Regroup(start, w1, w2);
    Regroup(start, w1 + w2, w3);
    Regroup(start, w1 + w2 + w3, w4);
    Regroup(start, w1 + w2 + w3 + w4, w5);
    Regroup(start, w1 + w2 + w3 + w4 + w5, w6);
    Regroup(start, w1 + w2 + w3 + w4 + w5 + w6, w7);
  }

  // The socket was given these, one after the other.
  ghost predicate Puts(sent: seq<Packet<ToSend>>, sent': seq<Packet<ToSend>>, ws: seq<Wire>) {
    sent <= sent' && Wires(sent'[|sent|..]) == ws
  }

  lemma PutsBoth(s0: seq<Packet<ToSend>>, s1: seq<Packet<ToSend>>, s2: seq<Packet<ToSend>>, ws: seq<Wire>, vs: seq<Wire>)
    requires Puts(s0, s1, ws) && Puts(s1, s2, vs)
    ensures Puts(s0, s2, ws + vs)
  {
    assert s2[|s0|..] == s1[|s0|..] + s2[|s1|..];
  }

  lemma PutsAll(s0: seq<Packet<ToSend>>, s1: seq<Packet<ToSend>>, s2: seq<Packet<ToSend>>, s3: seq<Packet<ToSend>>,
      s4: seq<Packet<ToSend>>, s5: seq<Packet<ToSend>>, s6: seq<Packet<ToSend>>, s7: seq<Packet<ToSend>>,
      w1: seq<Wire>, w2: seq<Wire>, w3: seq<Wire>, w4: seq<Wire>, w5: seq<Wire>, w6: seq<Wire>, w7: seq<Wire>)
    requires Puts(s0, s1, w1) && Puts(s1, s2, w2) && Puts(s2, s3, w3) && Puts(s3, s4, w4)
    requires Puts(s4, s5, w5) && Puts(s5, s6, w6) && Puts(s6, s7, w7)
    ensures Puts(s0, s7, w1 + w2 + w3 + w4 + w5 + w6 + w7)
  {
    PutsBoth(s0, s1, s2, w1, w2);
    PutsBoth(s0, s2, s3, w1 + w2, w3);
    PutsBoth(s0, s3, s4, w1 + w2 + w3, w4);
    PutsBoth(s0, s4, s5, w1 + w2 + w3 + w4, w5);
    PutsBoth(s0, s5, s6, w1 + w2 + w3 + w4 + w5, w6);
    PutsBoth(s0, s6, s7, w1 + w2 + w3 + w4 + w5 + w6, w7);
  }

  lemma PutsOut(sent: seq<Packet<ToSend>>, sent': seq<Packet<ToSend>>, out: seq<Packet<ToSend>>)
    requires sent' == sent + out
    ensures Puts(sent, sent', Wires(out))
  {
    assert sent'[|sent|..] == out;
  }
}
