// What one call of `schedule` puts on the lists: lib.rs `schedule` and `schedule_helper`, and what
// its receivers can make of it.
module FanOut {
  import opened Packets
  import opened Fragments
  import opened Peers
  import opened Scheduler
  import opened Endpoint
  import opened LocalState
  import opened Discipline
  import opened Codec
  import opened Reliability

  // The part of a list that goes to one peer, in order.
  function To(xs: seq<Scheduled>, id: ConnectionId): seq<Scheduled> {
    if xs == [] then []
    else
      var x := xs[|xs| - 1];
      To(xs[..|xs| - 1], id) + if x.message.ForConnected() && x.message.connectionId == id then [x] else []
  }

  lemma {:induction false} ToConcat(xs: seq<Scheduled>, ys: seq<Scheduled>, id: ConnectionId)
    ensures To(xs + ys, id) == To(xs, id) + To(ys, id)
    decreases |ys|
  {
    if ys == [] {
      assert xs + ys == xs;
    } else {
      ToConcat(xs, ys[..|ys| - 1], id);
      assert (xs + ys)[..|xs + ys| - 1] == xs + ys[..|ys| - 1];
    }
  }

  // One chunk reaches each target once, and nobody else.
  lemma {:induction false} RowTo(c: ConnectedPeers, targets: seq<ConnectionId>, chunks: seq<Bytes>, index: nat, packetId: nat, now: nat, id: ConnectionId)
    requires AllIn(targets, c) && DistinctTargets(targets) && index < |chunks|
    ensures To(Row(c, targets, chunks, index, packetId, now), id)
      == if id in targets then [PayloadItem(c, id, chunks, index, packetId, now)] else []
    decreases |targets|
  {
    if targets != [] {
      var n := |targets| - 1;
      var front, row := targets[..n], Row(c, targets, chunks, index, packetId, now);
      RowTo(c, front, chunks, index, packetId, now, id);
      assert row[..n] == Row(c, front, chunks, index, packetId, now);
      assert id in targets <==> id in front || id == targets[n];
      assert targets[n] !in front;
    }
  }

  // All chunks for one target, in index order.
  function Column(c: ConnectedPeers, id: ConnectionId, chunks: seq<Bytes>, n: nat, packetId: nat, now: nat): (col: seq<Scheduled>)
    requires (n > 0 ==> id in c) && n <= |chunks|
    ensures |col| == n
  {
    seq(n, k requires 0 <= k < n => PayloadItem(c, id, chunks, k, packetId, now))
  }

  lemma {:induction false} RowsTo(c: ConnectedPeers, targets: seq<ConnectionId>, chunks: seq<Bytes>, n: nat, packetId: nat, now: nat, id: ConnectionId)
    requires AllIn(targets, c) && DistinctTargets(targets) && n <= |chunks|
    ensures id in targets ==> id in c && To(Rows(c, targets, chunks, n, packetId, now), id) == Column(c, id, chunks, n, packetId, now)
    ensures id !in targets ==> To(Rows(c, targets, chunks, n, packetId, now), id) == []
    decreases n
  {
    if n > 0 {
      var before, row := Rows(c, targets, chunks, n - 1, packetId, now), Row(c, targets, chunks, n - 1, packetId, now);
      RowsTo(c, targets, chunks, n - 1, packetId, now, id);
      RowTo(c, targets, chunks, n - 1, packetId, now, id);
      ToConcat(before, row, id);
      assert Rows(c, targets, chunks, n, packetId, now) == before + row;
      if id in targets { ColumnOneMore(c, id, chunks, n, packetId, now); }
    }
  }

  lemma ColumnOneMore(c: ConnectedPeers, id: ConnectionId, chunks: seq<Bytes>, n: nat, packetId: nat, now: nat)
    requires id in c && 0 < n <= |chunks|
    ensures Column(c, id, chunks, n, packetId, now)
      == Column(c, id, chunks, n - 1, packetId, now) + [PayloadItem(c, id, chunks, n - 1, packetId, now)]
  {
  }

  lemma {:induction false} RowsCount(c: ConnectedPeers, targets: seq<ConnectionId>, chunks: seq<Bytes>, n: nat, packetId: nat, now: nat)
    requires AllIn(targets, c) && n <= |chunks|
    ensures |Rows(c, targets, chunks, n, packetId, now)| == n * |targets|
    decreases n
  {
    if n > 0 {
      RowsCount(c, targets, chunks, n - 1, packetId, now);
      assert n * |targets| == (n - 1) * |targets| + |targets|;
    }
  }

  // The bytes that packets of application data carry, in order.
  function Carried(xs: seq<Scheduled>): Bytes {
    Flatten(seq(|xs|, i requires 0 <= i < |xs| => if xs[i].message.DataTransfer? || xs[i].message.Fragment? then xs[i].message.payload else []))
  }

  // Who a call is for: everybody connected, or the one peer named.
  predicate For(sendTo: SendTo, connected: ConnectedPeers, id: ConnectionId) {
    if sendTo.Broadcast? then id in connected else sendTo == Single(id)
  }

  lemma TargetsAre(sendTo: SendTo, connected: ConnectedPeers, order: seq<ConnectionId>)
    requires IterationOrder(connected, order)
    ensures forall id :: id in Targets(sendTo, order) <==> For(sendTo, connected, id)
    ensures |Targets(sendTo, order)| == if sendTo.Broadcast? then |connected| else 1
    ensures DistinctTargets(Targets(sendTo, order))
  {
    OrderCounts(connected.Keys, order);
  }

  lemma {:induction false} OrderCounts(ids: set<ConnectionId>, order: seq<ConnectionId>)
    requires forall id :: id in order <==> id in ids
    requires forall i, j :: 0 <= i < j < |order| ==> order[i] != order[j]
    ensures |order| == |ids|
    decreases |order|
  {
    if order != [] {
      var n := |order| - 1;
      forall id ensures id in order[..n] <==> id in ids - {order[n]} {
        assert id in order <==> id in order[..n] || id == order[n];
      }
      OrderCounts(ids - {order[n]}, order[..n]);
    } else {
      assert ids == {};
    }
  }

  // The lists after a payload was scheduled: one of the four for data has grown, which one is fixed
  // by the reliability asked for and by whether the payload fits one packet.
  predicate DataListGrows(lists: Lists, lists': Lists, reliability: ReliabilityType, fits: bool, rows: seq<Scheduled>) {
    lists' == lists.(
      reliableData := lists.reliableData + (if reliability == Reliable && fits then rows else []),
      unreliableData := lists.unreliableData + (if reliability == Unreliable && fits then rows else []),
      reliableFragments := lists.reliableFragments + (if reliability == Reliable && !fits then rows else []),
      unreliableFragments := lists.unreliableFragments + (if reliability == Unreliable && !fits then rows else []))
  }

  predicate HeartbeatListGrows(lists: Lists, lists': Lists, reliability: ReliabilityType, row: seq<Scheduled>) {
    lists' == lists.(
      reliableHeartbeats := lists.reliableHeartbeats + (if reliability == Reliable then row else []),
      unreliableHeartbeats := lists.unreliableHeartbeats + (if reliability == Unreliable then row else []))
  }

  lemma PayloadListGrows(lists: Lists, reliability: ReliabilityType, payload: Bytes, rows: seq<Scheduled>)
    ensures DataListGrows(lists, lists.Append(PayloadList(reliability, |Chunks(payload)|), rows), reliability, |payload| <= 1483, rows)
  {
    ChunkShape(payload);
    assert lists.reliableData + [] == lists.reliableData && lists.unreliableData + [] == lists.unreliableData;
    assert lists.reliableFragments + [] == lists.reliableFragments && lists.unreliableFragments + [] == lists.unreliableFragments;
  }

  // When a call succeeds, and with which error it fails; a failed call changes nothing.
  ghost predicate Succeeds(core: Core, sendTo: SendTo, empty: bool, r: Outcome<nat>, same: bool) {
    if core.connected == map[] then r == Err(NoPeersConnected) && same
    else if !empty && sendTo.Single? && sendTo.connectionId !in core.connected
    then r == Err(ScheduledNotConnected(sendTo.connectionId)) && same
    else r == Ok(core.packetIdTracker + 1)
  }

  // What a successful call adds for one peer is the whole payload, under one packet id and with
  // one total; what the call does otherwise, and when it fails.
  lemma ScheduleFansOut(core: Core, reliability: ReliabilityType, sendTo: SendTo, payload: Bytes, order: seq<ConnectionId>, now: nat, id: ConnectionId)
      returns (rows: seq<Scheduled>)
    requires IterationOrder(core.connected, order)
    ensures var (core', r) := ScheduleSpec(core, reliability, sendTo, payload, order, now);
      var chunks, n := Chunks(payload), (|payload| + 1482) / 1483;
      && Succeeds(core, sendTo, payload == [], r, core' == core)
      && (r.Ok? ==>
            && core' == core.(packetIdTracker := core.packetIdTracker + 1, lists := core'.lists)
            && DataListGrows(core.lists, core'.lists, reliability, |payload| <= 1483, rows)
            && |rows| == n * (if sendTo.Broadcast? then |core.connected| else 1)
            && (payload != [] && For(sendTo, core.connected, id) ==>
                  && id in core.connected && n == |chunks|
                  && To(rows, id) == Column(core.connected, id, chunks, n, core.packetIdTracker, now)
                  && Carried(To(rows, id)) == payload)
            && (payload == [] || !For(sendTo, core.connected, id) ==> To(rows, id) == []))
  {
    var r := ScheduleSpec(core, reliability, sendTo, payload, order, now).1;
    OrderInConnected(core.connected, order);
    ChunkShape(payload);
    AppendNothing(core.lists, PayloadList(reliability, |Chunks(payload)|));
    rows := [];
    if r.Ok? && payload != [] {
      rows := Rows(core.connected, Targets(sendTo, order), Chunks(payload), |Chunks(payload)|, core.packetIdTracker, now);
      RowsFanOut(core.connected, sendTo, payload, order, core.packetIdTracker, now, id);
    }
    PayloadListGrows(core.lists, reliability, payload, rows);
  }

  lemma RowsFanOut(c: ConnectedPeers, sendTo: SendTo, payload: Bytes, order: seq<ConnectionId>, packetId: nat, now: nat, id: ConnectionId)
    requires IterationOrder(c, order) && AllIn(Targets(sendTo, order), c)
    ensures var chunks := Chunks(payload); var rows := Rows(c, Targets(sendTo, order), chunks, |chunks|, packetId, now);
      && |rows| == |chunks| * (if sendTo.Broadcast? then |c| else 1)
      && (For(sendTo, c, id) ==>
            && id in c && To(rows, id) == Column(c, id, chunks, |chunks|, packetId, now)
            && Carried(To(rows, id)) == payload)
      && (!For(sendTo, c, id) ==> To(rows, id) == [])
  {
    var chunks, targets := Chunks(payload), Targets(sendTo, order);
    TargetsAre(sendTo, c, order);
    RowsTo(c, targets, chunks, |chunks|, packetId, now, id);
    RowsCount(c, targets, chunks, |chunks|, packetId, now);
    if id in targets { ColumnCarries(c, id, payload, packetId, now); }
  }

  lemma {:induction false} HeartbeatRowTo(c: ConnectedPeers, targets: seq<ConnectionId>, packetId: nat, now: nat, id: ConnectionId)
    requires AllIn(targets, c) && DistinctTargets(targets)
    ensures id in targets ==> id in c && To(HeartbeatRow(c, targets, packetId, now), id) == [Scheduled(packetId, c[id].address, now, Heartbeat(id))]
    ensures id !in targets ==> To(HeartbeatRow(c, targets, packetId, now), id) == []
    decreases |targets|
  {
    if targets != [] {
      var n := |targets| - 1;
      var front, row := targets[..n], HeartbeatRow(c, targets, packetId, now);
      HeartbeatRowTo(c, front, packetId, now, id);
      assert row[..n] == HeartbeatRow(c, front, packetId, now);
      assert id in targets <==> id in front || id == targets[n];
      assert targets[n] !in front;
    }
  }

  // A heartbeat call adds one heartbeat for each peer it is for, and for nobody else.
  lemma HeartbeatFansOut(core: Core, reliability: ReliabilityType, sendTo: SendTo, order: seq<ConnectionId>, now: nat, id: ConnectionId)
      returns (row: seq<Scheduled>)
    requires IterationOrder(core.connected, order)
    ensures var (core', r) := HeartbeatSpec(core, reliability, sendTo, order, now);
      && Succeeds(core, sendTo, false, r, core' == core)
      && (r.Ok? ==>
            && core' == core.(packetIdTracker := core.packetIdTracker + 1, lists := core'.lists)
            && HeartbeatListGrows(core.lists, core'.lists, reliability, row)
            && |row| == (if sendTo.Broadcast? then |core.connected| else 1)
            && (For(sendTo, core.connected, id) ==>
                  && id in core.connected
                  && To(row, id) == [Scheduled(core.packetIdTracker, core.connected[id].address, now, Heartbeat(id))])
            && (!For(sendTo, core.connected, id) ==> To(row, id) == []))
  {
    row := [];
    var r := HeartbeatSpec(core, reliability, sendTo, order, now).1;
    var targets := Targets(sendTo, order);
    OrderInConnected(core.connected, order);
    TargetsAre(sendTo, core.connected, order);
    if r.Ok? {
      row := HeartbeatRow(core.connected, targets, core.packetIdTracker, now);
      HeartbeatRowTo(core.connected, targets, core.packetIdTracker, now, id);
    }
    assert core.lists.reliableHeartbeats + [] == core.lists.reliableHeartbeats;
    assert core.lists.unreliableHeartbeats + [] == core.lists.unreliableHeartbeats;
  }

  // ---------------------------------------------------------------- what is kept of it

  // Sending the list that a call has added to keeps what is sent exactly when the call asked for
  // reliability; nothing else is kept.
  lemma KeptExactlyWhenReliable(core: Core, core': Core, l: ListId, reliability: ReliabilityType, fits: bool, items: seq<Scheduled>, later: nat, ttl: nat)
    requires core'.kept == core.kept && core'.lists.At(l) != core.lists.At(l) && AllCreatable(core'.connected, core'.lists.At(l))
    requires DataListGrows(core.lists, core'.lists, reliability, fits, items) || HeartbeatListGrows(core.lists, core'.lists, reliability, items)
    ensures var (core'', out) := DrainSpec(core', l, later, ttl);
      && |out| == |core'.lists.At(l)| > 0
      && core''.kept.Held() == core.kept.Held() + (if reliability == Reliable then multiset(AllSent(out, later, ttl)) else multiset{})
  {
    var (core'', out) := DrainSpec(core', l, later, ttl);
    GrownList(core.lists, core'.lists, l, reliability, fits, items);
    var kept, id := core.kept, KeptList(l);
    assert multiset(kept.At(id) + AllSent(out, later, ttl)) == multiset(kept.At(id)) + multiset(AllSent(out, later, ttl));
  }

  lemma GrownList(lists: Lists, lists': Lists, l: ListId, reliability: ReliabilityType, fits: bool, items: seq<Scheduled>)
    requires DataListGrows(lists, lists', reliability, fits, items) || HeartbeatListGrows(lists, lists', reliability, items)
    requires lists'.At(l) != lists.At(l)
    ensures l != Handshakes && lists'.At(l) == lists.At(l) + items && items != []
    ensures l.IsReliable() <==> reliability == Reliable
  {
    assert forall xs: seq<Scheduled> :: xs + [] == xs;
  }

  lemma ColumnCarries(c: ConnectedPeers, id: ConnectionId, payload: Bytes, packetId: nat, now: nat)
    requires id in c
    ensures Carried(Column(c, id, Chunks(payload), |Chunks(payload)|, packetId, now)) == payload
  {
    var col := Column(c, id, Chunks(payload), |Chunks(payload)|, packetId, now);
    var parts := seq(|col|, i requires 0 <= i < |col| => if col[i].message.DataTransfer? || col[i].message.Fragment? then col[i].message.payload else []);
    assert parts == Chunks(payload);
    FlattenChunks(payload);
  }

  // ---------------------------------------------------------------- what arrives

  // All packets of a payload, in any order.
  ghost predicate WholeArrival(payload: Bytes, id: ConnectionId, sequence: Sequence, arrivals: seq<Packet<Received>>) {
    if |payload| <= CHUNK_SIZE
    then |arrivals| == 1 && arrivals[0].message == PayloadMessage(id, payload, 0, |Chunks(payload)|)
    else |Chunks(payload)| <= MAX_CHUNKS && AllFragments(arrivals) && Arrivals(payload, id, sequence, arrivals)
  }

  predicate AllFragments(arrivals: seq<Packet<Received>>) {
    forall i :: 0 <= i < |arrivals| ==> arrivals[i].message.Fragment?
  }

  // What a server hands on for them: the data transfer's payload, or what reassembly makes.
  function HandedOn(arrivals: seq<Packet<Received>>): Bytes
    requires arrivals != [] && (AllFragments(arrivals) || arrivals[0].message.DataTransfer?)
  {
    if arrivals[0].message.DataTransfer? then arrivals[0].message.payload else DeliveredPayload(arrivals)
  }

  // A payload is handed on intact exactly when it fits one packet.
  lemma IntactExactlyWhenOneChunk(payload: Bytes, id: ConnectionId, sequence: Sequence, arrivals: seq<Packet<Received>>)
    requires payload != [] && WholeArrival(payload, id, sequence, arrivals)
    ensures arrivals != [] && (AllFragments(arrivals) || arrivals[0].message.DataTransfer?)
    ensures HandedOn(arrivals) == payload <==> |payload| <= CHUNK_SIZE
  {
    if |payload| > CHUNK_SIZE {
      ChunkShape(payload);
      DeliveredAsWritten(payload, id, sequence, arrivals);
    }
  }
}
