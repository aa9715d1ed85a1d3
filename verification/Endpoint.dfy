// What a server and a client share: Protocol<S> (lib.rs) over a service's connected peers,
// scheduler and reliability handler, and the driver loops that send (antarc/src/lib.rs).
module Endpoint {
  import opened Packets
  import opened Fragments
  import opened Reassembly
  import opened Peers
  import opened Scheduler
  import opened Reliability

  datatype SendTo = Single(connectionId: ConnectionId) | Broadcast

  datatype Core = Core(packetIdTracker: nat, connected: ConnectedPeers, lists: Lists, kept: Kept, api: seq<ProtocolEvent>)

  const FRESH_CORE := Core(0, map[], NO_LISTS, NOTHING_KEPT, [])

  // The order in which the hash map yields its keys: each once. It does not change while the
  // map does not.
  ghost predicate IterationOrder(connected: ConnectedPeers, order: seq<ConnectionId>) {
    && (forall id :: id in order <==> id in connected)
    && (forall i, j :: 0 <= i < j < |order| ==> order[i] != order[j])
  }

  // ---------------------------------------------------------------- scheduling

  function Targets(sendTo: SendTo, order: seq<ConnectionId>): seq<ConnectionId> {
    match sendTo
    case Single(id) => [id]
    case Broadcast => order
  }

  predicate AllIn(targets: seq<ConnectionId>, connected: ConnectedPeers) {
    forall i :: 0 <= i < |targets| ==> targets[i] in connected
  }

  function PayloadItem(connected: ConnectedPeers, id: ConnectionId, chunks: seq<Bytes>, index: nat, packetId: nat, now: nat): Scheduled
    requires id in connected && index < |chunks|
  {
    Scheduled(packetId, connected[id].address, now, PayloadMessage(id, chunks[index], index, |chunks|))
  }

  // One chunk for every target, in order.
  function Row(connected: ConnectedPeers, targets: seq<ConnectionId>, chunks: seq<Bytes>, index: nat, packetId: nat, now: nat): (row: seq<Scheduled>)
    requires AllIn(targets, connected) && index < |chunks|
    ensures |row| == |targets|
  {
    seq(|targets|, j requires 0 <= j < |targets| => PayloadItem(connected, targets[j], chunks, index, packetId, now))
  }

  // The first n chunks for every target.
  function Rows(connected: ConnectedPeers, targets: seq<ConnectionId>, chunks: seq<Bytes>, n: nat, packetId: nat, now: nat): (rows: seq<Scheduled>)
    requires (n > 0 ==> AllIn(targets, connected)) && n <= |chunks|
  {
    if n == 0 then []
    else Rows(connected, targets, chunks, n - 1, packetId, now) + Row(connected, targets, chunks, n - 1, packetId, now)
  }

  ghost function ScheduleSpec(core: Core, reliability: ReliabilityType, sendTo: SendTo, payload: Bytes, order: seq<ConnectionId>, now: nat): (Core, Outcome<nat>)
    requires IterationOrder(core.connected, order)
  {
    assert forall i :: 0 <= i < |order| ==> order[i] in order;
    var chunks, targets := Chunks(payload), Targets(sendTo, order);
    if core.connected == map[] then (core, Err(NoPeersConnected))
    else if chunks == [] then (core.(packetIdTracker := core.packetIdTracker + 1), Ok(core.packetIdTracker + 1))
    else if sendTo.Single? && sendTo.connectionId !in core.connected then (core, Err(ScheduledNotConnected(sendTo.connectionId)))
    else
      var rows := Rows(core.connected, targets, chunks, |chunks|, core.packetIdTracker, now);
      (core.(packetIdTracker := core.packetIdTracker + 1,
             lists := core.lists.Append(PayloadList(reliability, |chunks|), rows)),
       Ok(core.packetIdTracker + 1))
  }

  function HeartbeatRow(connected: ConnectedPeers, targets: seq<ConnectionId>, packetId: nat, now: nat): (row: seq<Scheduled>)
    requires AllIn(targets, connected)
    ensures |row| == |targets|
  {
    seq(|targets|, j requires 0 <= j < |targets| => Scheduled(packetId, connected[targets[j]].address, now, Heartbeat(targets[j])))
  }

  ghost function HeartbeatSpec(core: Core, reliability: ReliabilityType, sendTo: SendTo, order: seq<ConnectionId>, now: nat): (Core, Outcome<nat>)
    requires IterationOrder(core.connected, order)
  {
    assert forall i :: 0 <= i < |order| ==> order[i] in order;
    var targets := Targets(sendTo, order);
    if core.connected == map[] then (core, Err(NoPeersConnected))
    else if sendTo.Single? && sendTo.connectionId !in core.connected then (core, Err(ScheduledNotConnected(sendTo.connectionId)))
    else
      (core.(packetIdTracker := core.packetIdTracker + 1,
             lists := core.lists.Append(HeartbeatList(reliability), HeartbeatRow(core.connected, targets, core.packetIdTracker, now))),
       Ok(core.packetIdTracker + 1))
  }

  // ---------------------------------------------------------------- creating and sending

  // A scheduled packet that `create_*` can make: its peer is connected.
  predicate Creatable(connected: ConnectedPeers, x: Scheduled) {
    x.message.ForConnected() && x.message.connectionId in connected
  }

  predicate AllCreatable(connected: ConnectedPeers, xs: seq<Scheduled>) {
    forall i :: 0 <= i < |xs| ==> Creatable(connected, xs[i])
  }

  function Create(connected: ConnectedPeers, x: Scheduled, now: nat): Packet<ToSend>
    requires Creatable(connected, x)
  {
    var peer := connected[x.message.connectionId];
    x.IntoPacket(peer.sequenceTracker, peer.remoteAck, now)
  }

  // Server::sent_data_transfer, sent_fragment and sent_heartbeat.
  function SentSpec(core: Core, p: Packet<ToSend>, reliable: bool, now: nat, ttl: nat): Core
    requires p.message.ForConnected()
  {
    var id := p.message.connectionId;
    var core' := if id in core.connected && p.message.Advances()
                 then core.(connected := core.connected[id := core.connected[id].Bump()]) else core;
    if reliable then core'.(kept := core'.kept.Append(KeptFor(p.message), [MarkSent(p, now, ttl)])) else core'
  }

  // How many of these, sent to this peer, advance its sequence tracker.
  function Advances(xs: seq<Scheduled>, id: ConnectionId): nat {
    if xs == [] then 0
    else
      var x := xs[|xs| - 1];
      Advances(xs[..|xs| - 1], id)
      + if x.message.ForConnected() && x.message.connectionId == id && x.message.Advances() then 1 else 0
  }

  // The packets a drained list becomes: each peer's sequence runs on from its tracker, one step
  // for each earlier packet to that peer that advances it.
  function Drained(connected: ConnectedPeers, xs: seq<Scheduled>, now: nat): (out: seq<Packet<ToSend>>)
    requires AllCreatable(connected, xs)
    ensures |out| == |xs|
  {
    seq(|xs|, i requires 0 <= i < |xs| =>
      var peer := connected[xs[i].message.connectionId];
      xs[i].IntoPacket(peer.sequenceTracker + Advances(xs[..i], xs[i].message.connectionId), peer.remoteAck, now))
  }

  function Advanced(connected: ConnectedPeers, xs: seq<Scheduled>): ConnectedPeers {
    map id | id in connected ::
      connected[id].(sequenceTracker := connected[id].sequenceTracker + Advances(xs, id))
  }

  function AllSent(out: seq<Packet<ToSend>>, now: nat, ttl: nat): seq<SentPacket> {
    seq(|out|, i requires 0 <= i < |out| => MarkSent(out[i], now, ttl))
  }

  predicate HoldsAll(l: ListId, xs: seq<Scheduled>) {
    forall i :: 0 <= i < |xs| ==> l.Holds(xs[i].message)
  }

  function KeptList(l: ListId): KeptId {
    match l
    case ReliableData => KeptData
    case UnreliableData => KeptData
    case ReliableFragments => KeptFragments
    case UnreliableFragments => KeptFragments
    case ReliableHeartbeats => KeptHeartbeats
    case UnreliableHeartbeats => KeptHeartbeats
    case Handshakes => KeptHandshakes
  }

  // The core after these items of list l were created, sent and marked as sent.
  function AfterSending(core: Core, l: ListId, xs: seq<Scheduled>, now: nat, ttl: nat): Core
    requires AllCreatable(core.connected, xs)
  {
    core.(connected := Advanced(core.connected, xs),
          kept := if l.IsReliable() then core.kept.Append(KeptList(l), AllSent(Drained(core.connected, xs, now), now, ttl))
                  else core.kept)
  }

  // A whole `poll_*` loop of the driver.
  function DrainSpec(core: Core, l: ListId, now: nat, ttl: nat): (Core, seq<Packet<ToSend>>)
    requires AllCreatable(core.connected, core.lists.At(l))
  {
    var xs := core.lists.At(l);
    (AfterSending(core.(lists := core.lists.Set(l, [])), l, xs, now, ttl), Drained(core.connected, xs, now))
  }

  lemma AdvancesOneMore(xs: seq<Scheduled>, n: nat, id: ConnectionId)
    requires n < |xs|
    ensures Advances(xs[..n + 1], id) == Advances(xs[..n], id)
      + if xs[n].message.ForConnected() && xs[n].message.connectionId == id && xs[n].message.Advances() then 1 else 0
  {
    assert xs[..n + 1][..n] == xs[..n];
  }

  lemma {:induction false} AdvancesMonotone(xs: seq<Scheduled>, n: nat, id: ConnectionId)
    requires n <= |xs|
    ensures Advances(xs[..n], id) <= Advances(xs, id)
  {
    if n < |xs| {
      AdvancesMonotone(xs[..|xs| - 1], n, id);
      assert xs[..|xs| - 1][..n] == xs[..n];
    } else {
      assert xs[..n] == xs;
    }
  }

  lemma DrainedOneMore(connected: ConnectedPeers, xs: seq<Scheduled>, n: nat, now: nat)
    requires n < |xs| && AllCreatable(connected, xs)
    ensures Creatable(connected, xs[n]) && AllCreatable(connected, xs[..n]) && AllCreatable(connected, xs[..n + 1])
    ensures Drained(connected, xs[..n + 1], now)
      == Drained(connected, xs[..n], now) + [Create(Advanced(connected, xs[..n]), xs[n], now)]
  {
    forall i | 0 <= i < n ensures Drained(connected, xs[..n + 1], now)[i] == Drained(connected, xs[..n], now)[i] {
      DrainedPrefix(connected, xs, n, now, i);
    }
    DrainedLast(connected, xs, n, now);
  }

  lemma DrainedPrefix(connected: ConnectedPeers, xs: seq<Scheduled>, n: nat, now: nat, i: nat)
    requires i < n < |xs| && AllCreatable(connected, xs[..n]) && AllCreatable(connected, xs[..n + 1])
    ensures Drained(connected, xs[..n + 1], now)[i] == Drained(connected, xs[..n], now)[i]
  {
    assert xs[..n + 1][..i] == xs[..n][..i];
  }

  lemma DrainedLast(connected: ConnectedPeers, xs: seq<Scheduled>, n: nat, now: nat)
    requires n < |xs| && AllCreatable(connected, xs[..n + 1]) && Creatable(connected, xs[n])
    ensures Drained(connected, xs[..n + 1], now)[n] == Create(Advanced(connected, xs[..n]), xs[n], now)
  {
    assert xs[..n + 1][..n] == xs[..n];
  }

  lemma AdvancedOneMore(connected: ConnectedPeers, xs: seq<Scheduled>, n: nat)
    requires n < |xs| && Creatable(connected, xs[n])
    ensures var id := xs[n].message.connectionId; var c := Advanced(connected, xs[..n]);
      Advanced(connected, xs[..n + 1]) == if xs[n].message.Advances() then c[id := c[id].Bump()] else c
  {
    var id, c := xs[n].message.connectionId, Advanced(connected, xs[..n]);
    var c' := if xs[n].message.Advances() then c[id := c[id].Bump()] else c;
    forall k | k in connected ensures Advanced(connected, xs[..n + 1])[k] == c'[k] {
      AdvancesOneMore(xs, n, k);
    }
    assert c'.Keys == connected.Keys;
  }

  // Creating and sending one more item is one more step of the closed form.
  lemma SendOneMore(core: Core, l: ListId, xs: seq<Scheduled>, n: nat, now: nat, ttl: nat)
    requires n < |xs| && AllCreatable(core.connected, xs) && l.Holds(xs[n].message) && !l.Handshakes?
    ensures AllCreatable(core.connected, xs[..n]) && AllCreatable(core.connected, xs[..n + 1])
    ensures var core' := AfterSending(core, l, xs[..n], now, ttl);
      && Creatable(core'.connected, xs[n])
      && var p := Create(core'.connected, xs[n], now);
      && Drained(core.connected, xs[..n + 1], now) == Drained(core.connected, xs[..n], now) + [p]
      && SentSpec(core', p, l.IsReliable(), now, ttl) == AfterSending(core, l, xs[..n + 1], now, ttl)
  {
    DrainedOneMore(core.connected, xs, n, now);
    AdvancedOneMore(core.connected, xs, n);
    var p := Create(Advanced(core.connected, xs[..n]), xs[n], now);
    var before, after := Drained(core.connected, xs[..n], now), Drained(core.connected, xs[..n + 1], now);
    assert AllSent(after, now, ttl) == AllSent(before, now, ttl) + [MarkSent(p, now, ttl)];
    var kept := core.kept.At(KeptList(l));
    assert kept + AllSent(after, now, ttl) == kept + AllSent(before, now, ttl) + [MarkSent(p, now, ttl)];
    assert KeptFor(p.message) == KeptList(l);
  }

  lemma NothingSent(core: Core, l: ListId, now: nat, ttl: nat)
    ensures AfterSending(core, l, [], now, ttl) == core
  {
    assert Advanced(core.connected, []) == core.connected;
    assert core.kept.At(KeptList(l)) + [] == core.kept.At(KeptList(l));
  }

  // No `checked_add` on a 32-bit sequence fails.
  predicate Room(connected: ConnectedPeers, xs: seq<Scheduled>) {
    forall id :: id in connected ==> connected[id].sequenceTracker + Advances(xs, id) < U32_BOUND
  }

  lemma RoomForOneMore(connected: ConnectedPeers, xs: seq<Scheduled>, n: nat)
    requires n < |xs| && Room(connected, xs) && Creatable(connected, xs[n])
    ensures var tracker := Advanced(connected, xs[..n])[xs[n].message.connectionId].sequenceTracker;
      tracker + (if xs[n].message.Advances() then 1 else 0) < U32_BOUND
  {
    AdvancesMonotone(xs, n + 1, xs[n].message.connectionId);
    AdvancesOneMore(xs, n, xs[n].message.connectionId);
  }

  lemma AppendTwice(lists: Lists, l: ListId, xs: seq<Scheduled>, ys: seq<Scheduled>)
    ensures lists.Append(l, xs).Append(l, ys) == lists.Append(l, xs + ys)
  {
    assert lists.At(l) + xs + ys == lists.At(l) + (xs + ys);
  }

  lemma OrderInConnected(connected: ConnectedPeers, order: seq<ConnectionId>)
    requires IterationOrder(connected, order)
    ensures AllIn(order, connected)
  {
  }

  lemma AppendNothing(lists: Lists, l: ListId)
    ensures lists.Append(l, []) == lists
  {
    assert lists.At(l) + [] == lists.At(l);
  }

  // A connected peer takes in a fragment; a full group becomes an event.
  function TakeFragment(core: Core, p: FragmentPacket): Core
    requires p.message.connectionId in core.connected
  {
    var id := p.message.connectionId;
    var peer := core.connected[id];
    var (reassembler, full) := Absorb(peer.connection.reassembler, p);
    var core' := core.(connected := core.connected[id := peer.(connection := peer.connection.(reassembler := reassembler))]);
    if full.Some? then core'.(api := core'.api + [Delivered(id, DeliveredPayload(full.value))]) else core'
  }

  // Each kept list holds its own kind, as its type has it in the source.
  predicate Shaped(kept: Kept) {
    forall k, i {:trigger kept.At(k)[i]} :: 0 <= i < |kept.At(k)| ==> KeptFor(kept.At(k)[i].message) == k
  }

  // ---------------------------------------------------------------- the shared state, in place

  class Protocol {
    var packetIdTracker: nat
    var connected: ConnectedPeers
    var api: seq<ProtocolEvent>
    const scheduler: SchedulerLists
    const reliabilityHandler: ReliabilityHandler

    function View(): Core
      reads this, scheduler, reliabilityHandler
    {
      Core(packetIdTracker, connected, scheduler.View(), reliabilityHandler.View(), api)
    }

    constructor ()
      ensures View() == FRESH_CORE
      ensures fresh(scheduler) && fresh(reliabilityHandler)
    {
      packetIdTracker := 0;
      connected := map[];
      api := [];
      scheduler := new SchedulerLists();
      reliabilityHandler := new ReliabilityHandler();
    }

    method Schedule(reliability: ReliabilityType, sendTo: SendTo, payload: Bytes, order: seq<ConnectionId>, now: nat)
        returns (r: Outcome<nat>)
      requires IterationOrder(connected, order)
      modifies this, scheduler
      ensures (View(), r) == ScheduleSpec(old(View()), reliability, sendTo, payload, order, now)
    {
      r := ScheduleHelper(reliability, sendTo, payload, order, now);
      if r.Ok? {
        packetIdTracker := packetIdTracker + 1;
      }
    }

    method ScheduleHelper(reliability: ReliabilityType, sendTo: SendTo, payload: Bytes, order: seq<ConnectionId>, now: nat)
        returns (r: Outcome<nat>)
      requires IterationOrder(connected, order)
      modifies scheduler
      ensures r == if connected == map[] then Err(NoPeersConnected)
                   else if Chunks(payload) != [] && !Reachable(sendTo)
                     then Err(ScheduledNotConnected(sendTo.connectionId))
                   else Ok(packetIdTracker + 1)
      ensures r.Ok? && Chunks(payload) != [] ==>
        && AllIn(Targets(sendTo, order), connected)
        && scheduler.View() == old(scheduler.View()).Append(PayloadList(reliability, |Chunks(payload)|),
             Rows(connected, Targets(sendTo, order), Chunks(payload), |Chunks(payload)|, packetIdTracker, now))
      ensures (r.Ok? && Chunks(payload) != []) || scheduler.View() == old(scheduler.View())
    {
      if connected == map[] { return Err(NoPeersConnected); }
      var fragments := Chunks(payload);
      ghost var before, l := scheduler.View(), PayloadList(reliability, |fragments|);
      OrderInConnected(connected, order);
      AppendNothing(before, l);
      var fragmentIndex := 0;
      while fragmentIndex < |fragments|
        invariant 0 <= fragmentIndex <= |fragments|
        invariant fragmentIndex > 0 ==> Reachable(sendTo)
        invariant fragmentIndex > 0 ==> AllIn(Targets(sendTo, order), connected)
        invariant scheduler.View()
          == before.Append(l, Rows(connected, Targets(sendTo, order), fragments, fragmentIndex, packetIdTracker, now))
      {
        var ok := ScheduleNext(sendTo, order, reliability, fragments, fragmentIndex, now, before);
        if !ok { return Err(ScheduledNotConnected(sendTo.connectionId)); }
        fragmentIndex := fragmentIndex + 1;
      }
      r := Ok(packetIdTracker + 1);
    }

    predicate Reachable(sendTo: SendTo)
      reads this`connected
    {
      sendTo.Single? ==> sendTo.connectionId in connected
    }

    // One chunk for the peer, or for every peer; false for a single peer that is not connected.
    method ScheduleNext(sendTo: SendTo, order: seq<ConnectionId>, reliability: ReliabilityType, fragments: seq<Bytes>, index: nat, now: nat, ghost before: Lists)
        returns (ok: bool)
      requires AllIn(order, connected) && index < |fragments|
      requires index > 0 ==> AllIn(Targets(sendTo, order), connected)
      requires scheduler.View() == before.Append(PayloadList(reliability, |fragments|),
        Rows(connected, Targets(sendTo, order), fragments, index, packetIdTracker, now))
      modifies scheduler
      ensures ok == Reachable(sendTo)
      ensures !ok ==> scheduler.View() == old(scheduler.View())
      ensures ok ==> AllIn(Targets(sendTo, order), connected)
      ensures ok ==> scheduler.View() == before.Append(PayloadList(reliability, |fragments|),
        Rows(connected, Targets(sendTo, order), fragments, index + 1, packetIdTracker, now))
    {
      ghost var l := PayloadList(reliability, |fragments|);
      match sendTo {
        case Single(connectionId) =>
          if connectionId !in connected { return false; }
          ScheduleChunk(connectionId, reliability, fragments, index, now);
          assert Row(connected, [connectionId], fragments, index, packetIdTracker, now)
            == [PayloadItem(connected, connectionId, fragments, index, packetIdTracker, now)];
        case Broadcast =>
          BroadcastChunk(order, reliability, fragments, index, now);
      }
      ghost var targets := Targets(sendTo, order);
      AppendTwice(before, l, Rows(connected, targets, fragments, index, packetIdTracker, now),
                  Row(connected, targets, fragments, index, packetIdTracker, now));
      ok := true;
    }

    method ScheduleChunk(connectionId: ConnectionId, reliability: ReliabilityType, fragments: seq<Bytes>, index: nat, now: nat)
      requires connectionId in connected && index < |fragments|
      modifies scheduler
      ensures scheduler.View() == old(scheduler.View()).Append(PayloadList(reliability, |fragments|),
        [PayloadItem(connected, connectionId, fragments, index, packetIdTracker, now)])
    {
      scheduler.ScheduleForConnectedPeer(connected[connectionId].address, fragments[index], reliability,
        connectionId, packetIdTracker, now, index, |fragments|);
    }

    method BroadcastChunk(order: seq<ConnectionId>, reliability: ReliabilityType, fragments: seq<Bytes>, index: nat, now: nat)
      requires AllIn(order, connected) && index < |fragments|
      modifies scheduler
      ensures scheduler.View() == old(scheduler.View()).Append(PayloadList(reliability, |fragments|),
        Row(connected, order, fragments, index, packetIdTracker, now))
    {
      ghost var before, l := scheduler.View(), PayloadList(reliability, |fragments|);
      ghost var row := Row(connected, order, fragments, index, packetIdTracker, now);
      assert before.At(l) + row[..0] == before.At(l);
      var j := 0;
      while j < |order|
        invariant 0 <= j <= |order|
        invariant scheduler.View() == before.Append(l, row[..j])
      {
        ScheduleChunk(order[j], reliability, fragments, index, now);
        AppendTwice(before, l, row[..j], [row[j]]);
        assert row[..j + 1] == row[..j] + [row[j]];
        j := j + 1;
      }
      assert row[..j] == row;
    }

    method SendHeartbeat(reliability: ReliabilityType, sendTo: SendTo, order: seq<ConnectionId>, now: nat)
        returns (r: Outcome<nat>)
      requires IterationOrder(connected, order)
      modifies this, scheduler
      ensures (View(), r) == HeartbeatSpec(old(View()), reliability, sendTo, order, now)
    {
      if connected == map[] { return Err(NoPeersConnected); }
      match sendTo {
        case Single(connectionId) =>
          if connectionId !in connected { return Err(ScheduledNotConnected(connectionId)); }
          HeartbeatFor(connectionId, reliability, now);
          assert HeartbeatRow(connected, [connectionId], packetIdTracker, now)
            == [Scheduled(packetIdTracker, connected[connectionId].address, now, Heartbeat(connectionId))];
        case Broadcast =>
          OrderInConnected(connected, order);
          BroadcastHeartbeat(order, reliability, now);
      }
      r := Ok(packetIdTracker + 1);
      packetIdTracker := packetIdTracker + 1;
    }

    method HeartbeatFor(connectionId: ConnectionId, reliability: ReliabilityType, now: nat)
      requires connectionId in connected
      modifies scheduler
      ensures scheduler.View() == old(scheduler.View()).Append(HeartbeatList(reliability),
        [Scheduled(packetIdTracker, connected[connectionId].address, now, Heartbeat(connectionId))])
    {
      scheduler.HeartbeatForConnectedPeer(connected[connectionId].address, reliability, connectionId, packetIdTracker, now);
    }

    method BroadcastHeartbeat(order: seq<ConnectionId>, reliability: ReliabilityType, now: nat)
      requires AllIn(order, connected)
      modifies scheduler
      ensures scheduler.View() == old(scheduler.View()).Append(HeartbeatList(reliability),
        HeartbeatRow(connected, order, packetIdTracker, now))
    {
      ghost var before, l := scheduler.View(), HeartbeatList(reliability);
      ghost var row := HeartbeatRow(connected, order, packetIdTracker, now);
      assert before.At(l) + row[..0] == before.At(l);
      var j := 0;
      while j < |order|
        invariant 0 <= j <= |order|
        invariant scheduler.View() == before.Append(l, row[..j])
      {
        HeartbeatFor(order[j], reliability, now);
        AppendTwice(before, l, row[..j], [row[j]]);
        assert row[..j + 1] == row[..j] + [row[j]];
        j := j + 1;
      }
      assert row[..j] == row;
    }

    // The six `create_*` functions, whose bodies are the same.
    method CreatePacket(scheduled: Scheduled, now: nat) returns (p: Packet<ToSend>)
      requires Creatable(connected, scheduled)
      ensures p == Create(connected, scheduled, now)
    {
      var peer := connected[scheduled.message.connectionId];
      p := scheduled.IntoPacket(peer.sequenceTracker, peer.remoteAck, now);
    }

    // The service's `sent_data_transfer`, `sent_fragment` or `sent_heartbeat`, on the connected peers.
    method SentPacket(p: Packet<ToSend>, reliable: bool, now: nat, ttl: nat)
      requires p.message.ForConnected()
      requires p.message.Advances() && p.message.connectionId in connected ==>
        connected[p.message.connectionId].sequenceTracker + 1 < U32_BOUND
      modifies this`connected, reliabilityHandler
      ensures View() == SentSpec(old(View()), p, reliable, now, ttl)
    {
      var sent := MarkSent(p, now, ttl);
      var connectionId := sent.message.connectionId;
      var advances := sent.message.Fragment? ==> sent.message.index == (sent.message.total + 0xFF) % 0x100;
      if advances && connectionId in connected {
        connected := connected[connectionId := connected[connectionId].Bump()];
      }
      if reliable {
        reliabilityHandler.Push(sent);
      }
    }

    // A `poll_*` loop of the driver on a service that marks packets as sent the way the server
    // does: take the whole list, then create, send and mark each.
    method PollScheduled(l: ListId, now: nat, ttl: nat) returns (sent: seq<Packet<ToSend>>)
      requires !l.Handshakes?
      requires var xs := scheduler.View().At(l);
        AllCreatable(connected, xs) && HoldsAll(l, xs) && Room(connected, xs)
      modifies this, scheduler, reliabilityHandler
      ensures (View(), sent) == DrainSpec(old(View()), l, now, ttl)
    {
      var scheduled := scheduler.Drain(l);
      ghost var before := View();
      sent := [];
      NothingSent(before, l, now, ttl);
      assert scheduled[..0] == [];
      var i := 0;
      while i < |scheduled|
        invariant 0 <= i <= |scheduled|
        invariant AllCreatable(before.connected, scheduled[..i])
        invariant View() == AfterSending(before, l, scheduled[..i], now, ttl)
        invariant sent == Drained(before.connected, scheduled[..i], now)
      {
        var packet := SendNext(before, l, scheduled, i, now, ttl);
        sent := sent + [packet];
        i := i + 1;
      }
      assert scheduled[..i] == scheduled;
    }

    method SendNext(ghost before: Core, l: ListId, scheduled: seq<Scheduled>, i: nat, now: nat, ttl: nat) returns (packet: Packet<ToSend>)
      requires !l.Handshakes? && i < |scheduled|
      requires AllCreatable(before.connected, scheduled) && HoldsAll(l, scheduled) && Room(before.connected, scheduled)
      requires AllCreatable(before.connected, scheduled[..i])
      requires View() == AfterSending(before, l, scheduled[..i], now, ttl)
      modifies this`connected, reliabilityHandler
      ensures AllCreatable(before.connected, scheduled[..i + 1])
      ensures View() == AfterSending(before, l, scheduled[..i + 1], now, ttl)
      ensures Drained(before.connected, scheduled[..i + 1], now) == Drained(before.connected, scheduled[..i], now) + [packet]
    {
      SendOneMore(before, l, scheduled, i, now, ttl);
      RoomForOneMore(before.connected, scheduled, i);
      packet := CreatePacket(scheduled[i], now);
      SentPacket(packet, l.IsReliable(), now, ttl);
    }

    // Both services on a fragment: store it, and turn a full group into an event.
    method TakeIn(p: FragmentPacket)
      requires p.message.connectionId in connected
      modifies this
      ensures View() == TakeFragment(old(View()), p)
    {
      var connectionId, fragmentId, fragmentTotal := p.message.connectionId, p.sequence, p.message.total;
      var peer := connected[connectionId];
      var reassembler := peer.connection.reassembler;
      var lastFragment;
      if fragmentId in reassembler {
        reassembler := reassembler[fragmentId := reassembler[fragmentId] + [p]];
        lastFragment := |reassembler[fragmentId]| == fragmentTotal;
      } else {
        reassembler := reassembler[fragmentId := [p]];
        lastFragment := false;
      }
      if lastFragment {
        var fragments := reassembler[fragmentId];
        assert reassembler - {fragmentId} == peer.connection.reassembler - {fragmentId};
        reassembler := reassembler - {fragmentId};
        StableSortSorts(BySequence, fragments);
        var packet := Reassemble(StableSort(BySequence, fragments));
        Push(Delivered(connectionId, packet.message.payload));
      }
      connected := connected[connectionId := peer.(connection := peer.connection.(reassembler := reassembler))];
    }

    method Push(event: ProtocolEvent)
      modifies this`api
      ensures View() == old(View()).(api := old(View()).api + [event])
    {
      api := api + [event];
    }
  }
}
