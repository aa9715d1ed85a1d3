// How sequences are handed out: what lib.rs `schedule_helper`, the scheduler's lists and the
// driver's drain loops guarantee together about the sequences of what is sent.
module Discipline {
  import opened Packets
  import opened Fragments
  import opened Peers
  import opened Scheduler
  import opened Reliability
  import opened Endpoint
  import opened LocalState

  // A transmission: what the wire carries and where to, and the id of the operation behind it.
  datatype Wire = Wire(packetId: nat, address: SocketAddr, sequence: Sequence, ack: nat, message: Message)

  function WireOf(p: Packet<ToSend>): Wire {
    Wire(p.delivery.id, p.delivery.address, p.sequence, p.ack, p.message)
  }

  function WireOfSent(p: SentPacket): Wire {
    Wire(p.delivery.id, p.delivery.address, p.sequence, p.ack, p.message)
  }

  function Wires(out: seq<Packet<ToSend>>): (ws: seq<Wire>)
    ensures |ws| == |out|
  {
    seq(|out|, i requires 0 <= i < |out| => WireOf(out[i]))
  }

  ghost predicate Names(m: Message, id: ConnectionId) {
    !m.ConnectionRequest? && m.connectionId == id
  }

  ghost predicate SameGroup(x: Scheduled, y: Scheduled) {
    x.message.ForConnected() && y.message.ForConnected()
    && x.message.connectionId == y.message.connectionId && x.packetId == y.packetId
  }

  ghost predicate SamePeer(x: Scheduled, y: Scheduled) {
    x.message.ForConnected() && y.message.ForConnected() && x.message.connectionId == y.message.connectionId
  }

  // ---------------------------------------------------------------- lists of whole groups

  // A fragment that does not advance the sequence is followed by another of its group.
  ghost predicate Continues(xs: seq<Scheduled>, i: nat)
    requires i < |xs|
  {
    xs[i].message.ForConnected() && !xs[i].message.Advances() ==>
      exists j :: i < j < |xs| && SameGroup(xs[i], xs[j])
  }

  ghost predicate Closed(xs: seq<Scheduled>) {
    forall i: nat :: i < |xs| ==> Continues(xs, i)
  }

  // Two packets of one operation to one peer are fragments of one group, in index order; the
  // first of them does not advance the sequence, and nothing else to that peer lies between.
  ghost predicate OneGroup(xs: seq<Scheduled>, i: nat, j: nat)
    requires i < j < |xs|
  {
    SameGroup(xs[i], xs[j]) ==>
      && InOrder(xs[i].message, xs[j].message)
      && !xs[i].message.Advances()
      && forall k :: i < k < j && SamePeer(xs[i], xs[k]) ==> SameGroup(xs[i], xs[k])
  }

  ghost predicate Grouped(xs: seq<Scheduled>) {
    forall i: nat, j: nat :: i < j < |xs| ==> OneGroup(xs, i, j)
  }

  ghost predicate InOrder(m: Message, n: Message) {
    && m.Fragment? && n.Fragment? && m.connectionId == n.connectionId
    && m.total == n.total >= 2 && m.index < n.index < n.total
  }

  ghost predicate NoSharedIds(xs: seq<Scheduled>, ys: seq<Scheduled>) {
    forall x, y :: x in xs && y in ys ==> x.packetId != y.packetId
  }

  lemma ClosedConcat(xs: seq<Scheduled>, ys: seq<Scheduled>)
    requires Closed(xs) && Closed(ys)
    ensures Closed(xs + ys)
  {
    var zs := xs + ys;
    forall i: nat | i < |zs| ensures Continues(zs, i) {
      if zs[i].message.ForConnected() && !zs[i].message.Advances() {
        if i < |xs| {
          assert Continues(xs, i);
          var j :| i < j < |xs| && SameGroup(xs[i], xs[j]);
          assert zs[j] == xs[j];
        } else {
          assert Continues(ys, i - |xs|);
          var j :| i - |xs| < j < |ys| && SameGroup(ys[i - |xs|], ys[j]);
          assert zs[j + |xs|] == ys[j];
        }
      }
    }
  }

  lemma Apart(xs: seq<Scheduled>, ys: seq<Scheduled>, i: nat, j: nat)
    requires NoSharedIds(xs, ys) && i < |xs| <= j < |xs + ys|
    ensures !SameGroup((xs + ys)[i], (xs + ys)[j])
  {
  }

  lemma GroupedConcat(xs: seq<Scheduled>, ys: seq<Scheduled>)
    requires Grouped(xs) && Grouped(ys) && NoSharedIds(xs, ys)
    ensures Grouped(xs + ys)
  {
    var zs := xs + ys;
    forall i: nat, j: nat | i < j < |zs| ensures OneGroup(zs, i, j) {
      if j < |xs| {
        assert OneGroup(xs, i, j);
      } else if i >= |xs| {
        assert OneGroup(ys, i - |xs|, j - |xs|);
        forall k | i < k < j && SamePeer(zs[i], zs[k]) && SameGroup(zs[i], zs[j]) ensures SameGroup(zs[i], zs[k]) {
          assert zs[k] == ys[k - |xs|];
        }
      } else {
        Apart(xs, ys, i, j);
      }
    }
  }

  // ---------------------------------------------------------------- what scheduling appends

  ghost predicate DistinctTargets(targets: seq<ConnectionId>) {
    forall i, j :: 0 <= i < j < |targets| ==> targets[i] != targets[j]
  }

  lemma LastChunkAdvances(id: ConnectionId, chunk: Bytes, index: nat, total: nat)
    requires index < total
    ensures index == total - 1 ==> PayloadMessage(id, chunk, index, total).Advances()
    ensures total <= MAX_CHUNKS && PayloadMessage(id, chunk, index, total).Advances() ==> index == total - 1
  {
  }

  // That the last fragment is the only one to advance the sequence is true of up to 256 fragments
  // and of no more: beyond that the byte that holds the index comes round again.
  lemma OnlyLastAdvances(id: ConnectionId, chunk: Bytes, total: nat)
    requires total >= 2
    ensures (forall index: nat :: index < total ==> (PayloadMessage(id, chunk, index, total).Advances() <==> index == total - 1)) <==> total <= 0x100
  {
    if total > 0x100 {
      var early: nat := total - 1 - 0x100;
      assert PayloadMessage(id, chunk, early, total).Advances() by {
        assert early % 0x100 == (total - 1) % 0x100;
      }
    }
  }

  // The rows of a payload make whole groups: of any size, as far as being closed goes.
  lemma RowsClosed(c: ConnectedPeers, targets: seq<ConnectionId>, chunks: seq<Bytes>, packetId: nat, now: nat)
    requires AllIn(targets, c)
    ensures Closed(Rows(c, targets, chunks, |chunks|, packetId, now))
  {
    var n := |chunks|;
    if n > 0 {
      var rows := Rows(c, targets, chunks, n, packetId, now);
      var before, row := Rows(c, targets, chunks, n - 1, packetId, now), Row(c, targets, chunks, n - 1, packetId, now);
      RowsElements(c, targets, chunks, n - 1, packetId, now);
      forall i: nat | i < |rows| ensures Continues(rows, i) {
        if i < |before| {
          assert rows[i] == before[i] && before[i] in before;
          var id, k: nat :| id in targets && id in c && k < n - 1 && before[i] == PayloadItem(c, id, chunks, k, packetId, now);
          var t :| 0 <= t < |targets| && targets[t] == id;
          assert rows[|before| + t] == row[t];
          assert SameGroup(rows[i], rows[|before| + t]);
        } else {
          assert rows[i] == row[i - |before|];
          LastChunkAdvances(targets[i - |before|], chunks[n - 1], n - 1, n);
        }
      }
    }
  }

  lemma {:induction false} RowsGrouped(c: ConnectedPeers, targets: seq<ConnectionId>, chunks: seq<Bytes>, n: nat, packetId: nat, now: nat)
    requires AllIn(targets, c) && DistinctTargets(targets) && n <= |chunks| <= MAX_CHUNKS
    ensures Grouped(Rows(c, targets, chunks, n, packetId, now))
  {
    if n > 0 {
      RowsGrouped(c, targets, chunks, n - 1, packetId, now);
      RowsElements(c, targets, chunks, n - 1, packetId, now);
      var rows := Rows(c, targets, chunks, n, packetId, now);
      var before, row := Rows(c, targets, chunks, n - 1, packetId, now), Row(c, targets, chunks, n - 1, packetId, now);
      forall i: nat, j: nat | i < j < |rows| ensures OneGroup(rows, i, j) {
        if j < |before| {
          assert OneGroup(before, i, j);
        } else {
          assert rows[j] == row[j - |before|];
          if i < |before| {
            assert rows[i] == before[i] && before[i] in before;
          } else {
            assert rows[i] == row[i - |before|];
          }
        }
        SameOperation(c, targets, chunks, n, packetId, now, i);
      }
    }
  }

  // All packets of one operation to one peer belong to one group.
  lemma SameOperation(c: ConnectedPeers, targets: seq<ConnectionId>, chunks: seq<Bytes>, n: nat, packetId: nat, now: nat, i: nat)
    requires AllIn(targets, c) && n <= |chunks| && i < |Rows(c, targets, chunks, n, packetId, now)|
    ensures var rows := Rows(c, targets, chunks, n, packetId, now);
      forall k :: 0 <= k < |rows| && SamePeer(rows[i], rows[k]) ==> SameGroup(rows[i], rows[k])
  {
    var rows := Rows(c, targets, chunks, n, packetId, now);
    RowsElements(c, targets, chunks, n, packetId, now);
    forall k | 0 <= k < |rows| && SamePeer(rows[i], rows[k]) ensures SameGroup(rows[i], rows[k]) {
      assert rows[i] in rows && rows[k] in rows;
    }
  }

  // ---------------------------------------------------------------- what draining makes of a list

  lemma AdvancesStrictly(xs: seq<Scheduled>, i: nat, k: nat, j: nat, id: ConnectionId)
    requires i <= k < j <= |xs|
    requires xs[k].message.ForConnected() && xs[k].message.connectionId == id && xs[k].message.Advances()
    ensures Advances(xs[..i], id) < Advances(xs[..j], id)
  {
    AdvancesOneMore(xs, k, id);
    AdvancesMonotone(xs[..k], i, id);
    assert xs[..k][..i] == xs[..i];
    AdvancesMonotone(xs[..j], k + 1, id);
    assert xs[..j][..k + 1] == xs[..k + 1];
  }

  lemma {:induction false} AdvancesNot(xs: seq<Scheduled>, i: nat, j: nat, id: ConnectionId)
    requires i <= j <= |xs|
    requires forall k :: i <= k < j && xs[k].message.ForConnected() && xs[k].message.connectionId == id ==> !xs[k].message.Advances()
    ensures Advances(xs[..i], id) == Advances(xs[..j], id)
    decreases j - i
  {
    if i < j {
      AdvancesOneMore(xs, j - 1, id);
      AdvancesNot(xs, i, j - 1, id);
    }
  }

  // Every group has a last member, which advances the sequence.
  lemma {:induction false} GroupEnd(xs: seq<Scheduled>, i: nat) returns (k: nat)
    requires Closed(xs) && i < |xs| && xs[i].message.ForConnected()
    ensures i <= k < |xs| && SameGroup(xs[i], xs[k]) && xs[k].message.Advances()
    decreases |xs| - i
  {
    if xs[i].message.Advances() {
      k := i;
    } else {
      assert Continues(xs, i);
      var j :| i < j < |xs| && SameGroup(xs[i], xs[j]);
      k := GroupEnd(xs, j);
    }
  }

  // Whatever the sizes of its groups, a drained list uses sequences from the peer's tracker up
  // to, but not including, what the tracker is afterwards.
  lemma DrainedBounds(c: ConnectedPeers, xs: seq<Scheduled>, now: nat, i: nat)
    requires AllCreatable(c, xs) && Closed(xs) && i < |xs|
    ensures var id := xs[i].message.connectionId;
      c[id].sequenceTracker <= Drained(c, xs, now)[i].sequence < Advanced(c, xs)[id].sequenceTracker
  {
    GroupAdvances(xs, i);
    assert xs[..|xs|] == xs;
  }

  lemma GroupAdvances(xs: seq<Scheduled>, i: nat)
    requires Closed(xs) && i < |xs| && xs[i].message.ForConnected()
    ensures Advances(xs[..i], xs[i].message.connectionId) < Advances(xs[..|xs|], xs[i].message.connectionId)
  {
    var k := GroupEnd(xs, i);
    AdvancesStrictly(xs, i, k, |xs|, xs[i].message.connectionId);
  }

  // Some packet to the peer is the one that makes its count of advances come to n + 1.
  lemma {:induction false} AdvanceNumber(xs: seq<Scheduled>, id: ConnectionId, n: nat) returns (k: nat)
    requires n < Advances(xs, id)
    ensures k < |xs| && xs[k].message.ForConnected() && xs[k].message.connectionId == id && Advances(xs[..k], id) == n
  {
    var last: nat := |xs| - 1;
    AdvancesOneMore(xs, last, id);
    assert xs[..last + 1] == xs;
    if n < Advances(xs[..last], id) {
      k := AdvanceNumber(xs[..last], id, n);
      assert xs[..last][..k] == xs[..k];
    } else {
      k := last;
    }
  }

  // It leaves out none of them.
  lemma DrainedGapless(c: ConnectedPeers, xs: seq<Scheduled>, now: nat, id: ConnectionId, sequence: Sequence)
    requires AllCreatable(c, xs) && id in c && c[id].sequenceTracker <= sequence < Advanced(c, xs)[id].sequenceTracker
    ensures exists w :: w in Wires(Drained(c, xs, now)) && Names(w.message, id) && w.sequence == sequence && w.ack == c[id].remoteAck
  {
    var k := AdvanceNumber(xs, id, sequence - c[id].sequenceTracker);
    assert Wires(Drained(c, xs, now))[k] in Wires(Drained(c, xs, now));
  }

  // Two packets to one peer share their sequence exactly when they belong to one operation, and
  // are fragments in index order then; otherwise the later one's sequence is larger.
  ghost predicate Follows(v: Wire, w: Wire) {
    if v.packetId == w.packetId then v.sequence == w.sequence && InOrder(v.message, w.message)
    else v.sequence < w.sequence
  }

  lemma DrainedFollows(c: ConnectedPeers, xs: seq<Scheduled>, now: nat, i: nat, j: nat)
    requires AllCreatable(c, xs) && Closed(xs) && Grouped(xs) && i < j < |xs| && SamePeer(xs[i], xs[j])
    ensures var ws := Wires(Drained(c, xs, now)); Follows(ws[i], ws[j])
  {
    var id := xs[i].message.connectionId;
    assert OneGroup(xs, i, j);
    if xs[i].packetId == xs[j].packetId {
      forall k | i <= k < j && xs[k].message.ForConnected() && xs[k].message.connectionId == id
        ensures !xs[k].message.Advances()
      {
        if k > i {
          assert SamePeer(xs[i], xs[k]);
          assert SameGroup(xs[i], xs[k]);
        }
        assert OneGroup(xs, k, j);
      }
      AdvancesNot(xs, i, j, id);
    } else {
      var k := GroupEnd(xs, i);
      assert k > j ==> OneGroup(xs, i, k);
      AdvancesStrictly(xs, i, k, j, id);
    }
  }

  // First transmissions, in the order they were made.
  ghost predicate Disciplined(first: seq<Wire>) {
    forall i, j :: 0 <= i < j < |first| && first[i].address == first[j].address ==> Follows(first[i], first[j])
  }

  lemma DisciplinedConcat(first: seq<Wire>, ws: seq<Wire>)
    requires Disciplined(first) && Disciplined(ws)
    requires forall v, w :: v in first && w in ws && v.address == w.address ==> v.packetId != w.packetId && v.sequence < w.sequence
    ensures Disciplined(first + ws)
  {
  }

  lemma SameAddressSamePeer(c: ConnectedPeers, l: ListId, x: Scheduled, y: Scheduled)
    requires PeersOk(c) && l != Handshakes && ItemOk(c, l, x) && ItemOk(c, l, y) && x.address == y.address
    ensures SamePeer(x, y)
  {
  }

  // A drained list by itself is disciplined, since different peers have different addresses.
  lemma DrainedDisciplined(c: ConnectedPeers, l: ListId, xs: seq<Scheduled>, now: nat)
    requires PeersOk(c) && l != Handshakes && (forall x :: x in xs ==> ItemOk(c, l, x))
    requires AllCreatable(c, xs) && Closed(xs) && Grouped(xs)
    ensures Disciplined(Wires(Drained(c, xs, now)))
  {
    var ws := Wires(Drained(c, xs, now));
    forall i, j | 0 <= i < j < |ws| && ws[i].address == ws[j].address ensures Follows(ws[i], ws[j]) {
      DrainedPair(c, l, xs, now, i, j);
    }
  }

  lemma DrainedPair(c: ConnectedPeers, l: ListId, xs: seq<Scheduled>, now: nat, i: nat, j: nat)
    requires PeersOk(c) && l != Handshakes && i < j < |xs| && ItemOk(c, l, xs[i]) && ItemOk(c, l, xs[j])
    requires AllCreatable(c, xs) && Closed(xs) && Grouped(xs)
    ensures var ws := Wires(Drained(c, xs, now)); ws[i].address == ws[j].address ==> Follows(ws[i], ws[j])
  {
    if xs[i].address == xs[j].address {
      SameAddressSamePeer(c, l, xs[i], xs[j]);
      DrainedFollows(c, xs, now, i, j);
    }
  }
}
