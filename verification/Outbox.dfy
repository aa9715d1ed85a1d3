// What a node still has to send and what it has sent, against the ids of the operations that
// made the packets: lib.rs `schedule` and `heartbeat`, client.rs `connect`, server.rs `on_received`.
module Outbox {
  import opened Packets
  import opened Fragments
  import opened Peers
  import opened Scheduler
  import opened Reliability
  import opened Endpoint
  import opened LocalState
  import opened Discipline

  // Scheduled packets carry ids given out before, which no transmission has yet, each in one
  // list only; the lists hold whole groups.
  ghost predicate PendingOk(core: Core, first: seq<Wire>) {
    && IdsOk(core, first)
    && (forall l :: l != Handshakes ==> Closed(core.lists.At(l)))
    && (forall i, j :: 0 <= i < j < |core.lists.handshakes| ==>
          core.lists.handshakes[i].packetId != core.lists.handshakes[j].packetId)
  }

  ghost predicate IdsOk(core: Core, first: seq<Wire>) {
    && (forall w :: w in first ==> w.packetId < core.packetIdTracker)
    && (forall l, x :: x in core.lists.At(l) ==> x.packetId < core.packetIdTracker)
    && (forall l, x, w :: x in core.lists.At(l) && w in first ==> w.packetId != x.packetId)
    && (forall l, m :: l != m ==> NoSharedIds(core.lists.At(l), core.lists.At(m)))
  }

  ghost predicate GroupedLists(lists: Lists) {
    forall l :: l != Handshakes ==> Grouped(lists.At(l))
  }

  // Every kept packet was sent.
  ghost predicate KeptSent(kept: Kept, first: seq<Wire>) {
    forall k, p :: p in kept.At(k) ==> WireOfSent(p) in first
  }

  ghost predicate AllOfId(xs: seq<Scheduled>, packetId: nat) {
    forall x :: x in xs ==> x.packetId == packetId
  }

  // An operation appends packets under the next id.
  lemma AppendKeepsPending(core: Core, first: seq<Wire>, l: ListId, xs: seq<Scheduled>)
    requires PendingOk(core, first) && AllOfId(xs, core.packetIdTracker) && Closed(xs)
    requires l == Handshakes ==> |xs| == 1
    ensures PendingOk(core.(lists := core.lists.Append(l, xs), packetIdTracker := core.packetIdTracker + 1), first)
    ensures GroupedLists(core.lists) && (l != Handshakes ==> Grouped(xs)) ==> GroupedLists(core.lists.Append(l, xs))
  {
    AppendKeepsIds(core, first, l, xs);
    assert NoSharedIds(core.lists.At(l), xs);
    if l != Handshakes {
      ClosedConcat(core.lists.At(l), xs);
      if GroupedLists(core.lists) && Grouped(xs) {
        GroupedConcat(core.lists.At(l), xs);
      }
    } else {
      OneMoreHandshake(core.lists.handshakes, xs[0]);
      assert xs == [xs[0]];
    }
  }

  lemma AppendKeepsIds(core: Core, first: seq<Wire>, l: ListId, xs: seq<Scheduled>)
    requires IdsOk(core, first) && AllOfId(xs, core.packetIdTracker)
    ensures IdsOk(core.(lists := core.lists.Append(l, xs), packetIdTracker := core.packetIdTracker + 1), first)
  {
  }

  lemma OneMoreHandshake(xs: seq<Scheduled>, x: Scheduled)
    requires forall i, j :: 0 <= i < j < |xs| ==> xs[i].packetId != xs[j].packetId
    requires forall y :: y in xs ==> y.packetId != x.packetId
    ensures forall i, j :: 0 <= i < j < |xs + [x]| ==> (xs + [x])[i].packetId != (xs + [x])[j].packetId
  {
  }

  // A whole list goes out.
  lemma DrainKeepsPending(core: Core, core': Core, first: seq<Wire>, l: ListId, ws: seq<Wire>)
    requires PendingOk(core, first)
    requires core'.lists == core.lists.Set(l, []) && core'.packetIdTracker == core.packetIdTracker
    requires forall w :: w in ws ==> exists x :: x in core.lists.At(l) && x.packetId == w.packetId
    ensures PendingOk(core', first + ws)
    ensures GroupedLists(core.lists) ==> GroupedLists(core'.lists)
    ensures forall v, w :: v in first && w in ws ==> v.packetId != w.packetId
  {
    forall m, y, w | y in core'.lists.At(m) && w in ws ensures w.packetId != y.packetId {
      var x :| x in core.lists.At(l) && x.packetId == w.packetId;
      assert m != l && y in core.lists.At(m);
      assert NoSharedIds(core.lists.At(l), core.lists.At(m));
    }
    forall v, w | v in first && w in ws ensures v.packetId != w.packetId {
      var x :| x in core.lists.At(l) && x.packetId == w.packetId;
    }
    assert Closed([]);
    assert Grouped([]);
  }

  // Everything else leaves the lists alone.
  lemma SameListsKeepPending(core: Core, core': Core, first: seq<Wire>)
    requires PendingOk(core, first)
    requires core'.lists == core.lists && core'.packetIdTracker == core.packetIdTracker
    ensures PendingOk(core', first)
  {
  }

  // ---------------------------------------------------------------- the operations on the shared state

  lemma ScheduleKeepsPending(core: Core, first: seq<Wire>, reliability: ReliabilityType, sendTo: SendTo, payload: Bytes, order: seq<ConnectionId>, now: nat)
    requires PendingOk(core, first) && IterationOrder(core.connected, order)
    ensures var (core', r) := ScheduleSpec(core, reliability, sendTo, payload, order, now);
      && PendingOk(core', first)
      && (GroupedLists(core.lists) && !(r.Ok? && |Chunks(payload)| > MAX_CHUNKS) ==> GroupedLists(core'.lists))
  {
    OrderInConnected(core.connected, order);
    var targets, chunks := Targets(sendTo, order), Chunks(payload);
    var (core', r) := ScheduleSpec(core, reliability, sendTo, payload, order, now);
    if r.Ok? && chunks != [] {
      var rows := Rows(core.connected, targets, chunks, |chunks|, core.packetIdTracker, now);
      RowsElements(core.connected, targets, chunks, |chunks|, core.packetIdTracker, now);
      RowsClosed(core.connected, targets, chunks, core.packetIdTracker, now);
      if |chunks| <= MAX_CHUNKS {
        RowsGrouped(core.connected, targets, chunks, |chunks|, core.packetIdTracker, now);
      }
      AppendKeepsPending(core, first, PayloadList(reliability, |chunks|), rows);
    }
  }

  lemma ScheduleFrame(core: Core, reliability: ReliabilityType, sendTo: SendTo, payload: Bytes, order: seq<ConnectionId>, now: nat)
    requires IterationOrder(core.connected, order)
    ensures var core' := ScheduleSpec(core, reliability, sendTo, payload, order, now).0;
      core' == core.(lists := core'.lists, packetIdTracker := core'.packetIdTracker) && core'.lists.handshakes == core.lists.handshakes
  {
  }

  lemma HeartbeatFrame(core: Core, reliability: ReliabilityType, sendTo: SendTo, order: seq<ConnectionId>, now: nat)
    requires IterationOrder(core.connected, order)
    ensures var core' := HeartbeatSpec(core, reliability, sendTo, order, now).0;
      core' == core.(lists := core'.lists, packetIdTracker := core'.packetIdTracker) && core'.lists.handshakes == core.lists.handshakes
  {
  }

  lemma HeartbeatRowGroups(c: ConnectedPeers, targets: seq<ConnectionId>, packetId: nat, now: nat)
    requires AllIn(targets, c) && DistinctTargets(targets)
    ensures var row := HeartbeatRow(c, targets, packetId, now);
      AllOfId(row, packetId) && Closed(row) && Grouped(row)
  {
  }

  lemma HeartbeatKeepsPending(core: Core, first: seq<Wire>, reliability: ReliabilityType, sendTo: SendTo, order: seq<ConnectionId>, now: nat)
    requires PendingOk(core, first) && IterationOrder(core.connected, order)
    ensures var core' := HeartbeatSpec(core, reliability, sendTo, order, now).0;
      PendingOk(core', first) && (GroupedLists(core.lists) ==> GroupedLists(core'.lists))
  {
    OrderInConnected(core.connected, order);
    var targets := Targets(sendTo, order);
    var r := HeartbeatSpec(core, reliability, sendTo, order, now).1;
    if r.Ok? {
      HeartbeatRowGroups(core.connected, targets, core.packetIdTracker, now);
      AppendKeepsPending(core, first, HeartbeatList(reliability), HeartbeatRow(core.connected, targets, core.packetIdTracker, now));
    }
  }

  // What a drained list puts on the wire.
  ghost predicate DrainedWire(c: ConnectedPeers, c': ConnectedPeers, xs: seq<Scheduled>, w: Wire) {
    && (exists x :: x in xs && x.packetId == w.packetId)
    && w.message.ForConnected()
    && w.message.connectionId in c && w.message.connectionId in c'
    && w.address == c[w.message.connectionId].address
    && w.ack == c[w.message.connectionId].remoteAck
    && c[w.message.connectionId].sequenceTracker <= w.sequence < c'[w.message.connectionId].sequenceTracker
  }

  lemma DrainedWireAt(c: ConnectedPeers, l: ListId, xs: seq<Scheduled>, now: nat, i: nat)
    requires l != Handshakes && AllCreatable(c, xs) && Closed(xs) && i < |xs| && ItemOk(c, l, xs[i])
    ensures DrainedWire(c, Advanced(c, xs), xs, Wires(Drained(c, xs, now))[i])
  {
    assert xs[i] in xs;
    DrainedBounds(c, xs, now, i);
  }

  lemma DrainedWires(c: ConnectedPeers, l: ListId, xs: seq<Scheduled>, now: nat)
    requires l != Handshakes && AllCreatable(c, xs) && Closed(xs) && forall x :: x in xs ==> ItemOk(c, l, x)
    ensures forall w :: w in Wires(Drained(c, xs, now)) ==> DrainedWire(c, Advanced(c, xs), xs, w)
  {
    var ws := Wires(Drained(c, xs, now));
    forall w | w in ws ensures DrainedWire(c, Advanced(c, xs), xs, w) {
      var i :| 0 <= i < |ws| && ws[i] == w;
      assert xs[i] in xs;
      DrainedWireAt(c, l, xs, now, i);
    }
  }

  lemma DrainKeepsSent(core: Core, l: ListId, first: seq<Wire>, now: nat, ttl: nat)
    requires KeptSent(core.kept, first) && AllCreatable(core.connected, core.lists.At(l))
    ensures var (core', out) := DrainSpec(core, l, now, ttl); KeptSent(core'.kept, first + Wires(out))
  {
    var (core', out) := DrainSpec(core, l, now, ttl);
    AllSentWires(out, now, ttl);
    forall k, p | p in core'.kept.At(k) ensures WireOfSent(p) in first + Wires(out) {
      assert p in core.kept.At(k) || p in AllSent(out, now, ttl);
    }
  }

  lemma AllSentWires(out: seq<Packet<ToSend>>, now: nat, ttl: nat)
    ensures forall p :: p in AllSent(out, now, ttl) ==> WireOfSent(p) in Wires(out)
  {
    forall p | p in AllSent(out, now, ttl) ensures WireOfSent(p) in Wires(out) {
      var i :| 0 <= i < |out| && AllSent(out, now, ttl)[i] == p;
      assert Wires(out)[i] == WireOfSent(p);
    }
  }

  // A retry repeats a transmission, bit for bit.
  lemma RetryRepeats(kept: Kept, first: seq<Wire>, k: KeptId, now: nat, ttl: nat)
    requires KeptSent(kept, first)
    ensures var (kept', r) := Retried(kept, k, now);
      && KeptSent(kept', first)
      && (r.Some? ==> WireOf(r.value) in first && WireOfSent(MarkSent(r.value, now, ttl)) in first)
  {
    var ps := kept.At(k);
    if ps != [] {
      var p := ps[|ps| - 1];
      assert p in kept.At(k);
      assert WireOf(Resent(p, now)) == WireOfSent(p);
      assert forall p :: p in ps[..|ps| - 1] ==> p in ps;
    }
  }

  // A retry of anything but a handshake, on the shared state.
  ghost function CoreRetry(core: Core, k: KeptId, now: nat, ttl: nat): (Core, seq<Packet<ToSend>>)
    requires CoreOk(core) && k != KeptHandshakes
  {
    RetryKeepsCore(core, k, now, ttl);
    var (kept, r) := Retried(core.kept, k, now);
    if r.None? then (core.(kept := kept), [])
    else (SentSpec(core.(kept := kept), r.value, true, now, ttl), [r.value])
  }

  // The sequence trackers may rise; all else about the connected peers stays.
  ghost predicate OnlyTrackersRise(c: ConnectedPeers, c': ConnectedPeers) {
    && c'.Keys == c.Keys
    && forall id :: id in c ==>
      && c'[id] == c[id].(sequenceTracker := c'[id].sequenceTracker)
      && c[id].sequenceTracker <= c'[id].sequenceTracker
  }

  lemma CoreRetryKeeps(core: Core, first: seq<Wire>, k: KeptId, now: nat, ttl: nat)
    requires CoreOk(core) && k != KeptHandshakes && KeptSent(core.kept, first) && PendingOk(core, first)
    ensures var (core', out) := CoreRetry(core, k, now, ttl);
      && CoreOk(core') && KeptSent(core'.kept, first) && PendingOk(core', first)
      && core'.lists == core.lists && core'.kept.handshakes == core.kept.handshakes
      && OnlyTrackersRise(core.connected, core'.connected)
      && (forall w :: w in Wires(out) ==> w in first)
  {
    var (kept, r) := Retried(core.kept, k, now);
    var (core', out) := CoreRetry(core, k, now, ttl);
    RetryKeepsCore(core, k, now, ttl);
    RetryRepeats(core.kept, first, k, now, ttl);
    assert kept.At(KeptHandshakes) == core.kept.At(KeptHandshakes);
    if r.Some? {
      StoreKeepsSent(kept, first, KeptFor(r.value.message), MarkSent(r.value, now, ttl));
      assert core'.kept.At(KeptHandshakes) == kept.At(KeptHandshakes);
      assert Wires(out) == [WireOf(r.value)];
    }
    SameListsKeepPending(core, core', first);
  }

  lemma ExpireKeepsSent(kept: Kept, first: seq<Wire>)
    requires KeptSent(kept, first)
    ensures KeptSent(Expired(kept), first)
  {
    forall k, p | p in Expired(kept).At(k) ensures p in kept.At(k) {}
  }

  lemma StoreKeepsSent(kept: Kept, first: seq<Wire>, k: KeptId, p: SentPacket)
    requires KeptSent(kept, first) && WireOfSent(p) in first
    ensures KeptSent(kept.Append(k, [p]), first)
  {
  }
}
