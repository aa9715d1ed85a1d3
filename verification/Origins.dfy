// Where everything a node sends comes from: each scheduled packet is stamped by one operation,
// and what one operation schedules are the chunks of one payload.
module Origins {
  import opened Packets
  import opened Fragments
  import opened Peers
  import opened Scheduler
  import opened Reliability
  import opened Endpoint
  import opened LocalState
  import opened Discipline
  import opened Outbox
  import Codec

  ghost predicate IsChunk(payload: Bytes, m: Message, i: nat)
    requires m.ForConnected()
  {
    i < |Chunks(payload)| && m == PayloadMessage(m.connectionId, Chunks(payload)[i], i, |Chunks(payload)|)
  }

  // What carries application data carries a chunk of this payload.
  ghost predicate Part(payload: Bytes, m: Message) {
    m.DataTransfer? || m.Fragment? ==> exists i: nat :: IsChunk(payload, m, i)
  }

  ghost predicate OriginIs(lists: Lists, first: seq<Wire>, packetId: nat, payload: Bytes) {
    && (forall l, x :: x in lists.At(l) && x.packetId == packetId ==> Part(payload, x.message))
    && (forall w :: w in first && w.packetId == packetId ==> Part(payload, w.message))
  }

  ghost predicate HasOrigin(lists: Lists, first: seq<Wire>, oversized: bool, packetId: nat) {
    exists payload :: OriginIs(lists, first, packetId, payload) && Sized(payload, oversized)
  }

  ghost predicate Sized(payload: Bytes, oversized: bool) {
    oversized || |Chunks(payload)| <= MAX_CHUNKS
  }

  ghost predicate OriginsOk(lists: Lists, first: seq<Wire>, oversized: bool) {
    forall packetId: nat :: HasOrigin(lists, first, oversized, packetId)
  }

  // ---------------------------------------------------------------- what a step may do

  ghost predicate Listed(lists: Lists, w: Wire) {
    exists l, x :: x in lists.At(l) && x.packetId == w.packetId && x.message == w.message
  }

  // New in a list is only what is stamped with the next id, which is then used up; new in the
  // record is only what was in a list.
  ghost predicate Moves(core: Core, core': Core, first: seq<Wire>, first': seq<Wire>) {
    && core.packetIdTracker <= core'.packetIdTracker <= core.packetIdTracker + 1
    && (forall l, x :: x in core'.lists.At(l) ==> x in core.lists.At(l) || Stamped(core, core', x))
    && (forall w :: w in first' ==> w in first || Listed(core.lists, w))
  }

  ghost predicate Stamped(core: Core, core': Core, x: Scheduled) {
    x.packetId == core.packetIdTracker < core'.packetIdTracker
  }

  ghost predicate Fills(lists: Lists, lists': Lists, payload: Bytes) {
    forall l, x :: x in lists'.At(l) ==> x in lists.At(l) || Part(payload, x.message)
  }

  lemma MovesKeepOrigins(core: Core, core': Core, first: seq<Wire>, first': seq<Wire>, oversized: bool, oversized': bool, payload: Bytes)
    requires PendingOk(core, first) && OriginsOk(core.lists, first, oversized)
    requires Moves(core, core', first, first') && Fills(core.lists, core'.lists, payload)
    requires Sized(payload, oversized') && (oversized ==> oversized')
    ensures OriginsOk(core'.lists, first', oversized')
  {
    forall packetId: nat ensures HasOrigin(core'.lists, first', oversized', packetId) {
      if packetId == core.packetIdTracker < core'.packetIdTracker {
        NewOrigin(core, core', first, first', payload);
      } else {
        assert HasOrigin(core.lists, first, oversized, packetId);
        var old_ :| OriginIs(core.lists, first, packetId, old_) && Sized(old_, oversized);
        OldOrigin(core, core', first, first', packetId, old_);
      }
    }
  }

  lemma NewOrigin(core: Core, core': Core, first: seq<Wire>, first': seq<Wire>, payload: Bytes)
    requires PendingOk(core, first) && Moves(core, core', first, first') && Fills(core.lists, core'.lists, payload)
    ensures OriginIs(core'.lists, first', core.packetIdTracker, payload)
  {
  }

  lemma OldOrigin(core: Core, core': Core, first: seq<Wire>, first': seq<Wire>, packetId: nat, payload: Bytes)
    requires Moves(core, core', first, first') && OriginIs(core.lists, first, packetId, payload)
    requires packetId != core.packetIdTracker || core'.packetIdTracker == core.packetIdTracker
    ensures OriginIs(core'.lists, first', packetId, payload)
  {
    forall l, x | x in core'.lists.At(l) && x.packetId == packetId ensures x in core.lists.At(l) {
      assert x in core.lists.At(l) || Stamped(core, core', x);
      assert !Stamped(core, core', x);
    }
    forall w | w in first' && w.packetId == packetId ensures Part(payload, w.message) {
      if w !in first {
        var l, x :| x in core.lists.At(l) && x.packetId == w.packetId && x.message == w.message;
      }
    }
  }

  // ---------------------------------------------------------------- the operations on the shared state

  lemma QuietMoves(core: Core, core': Core, first: seq<Wire>)
    requires core'.lists == core.lists && core'.packetIdTracker == core.packetIdTracker
    ensures Moves(core, core', first, first) && Fills(core.lists, core'.lists, []) && Sized([], false)
  {
  }

  lemma ScheduleMoves(core: Core, first: seq<Wire>, reliability: ReliabilityType, sendTo: SendTo, payload: Bytes, order: seq<ConnectionId>, now: nat)
    requires IterationOrder(core.connected, order)
    ensures var core' := ScheduleSpec(core, reliability, sendTo, payload, order, now).0;
      Moves(core, core', first, first) && Fills(core.lists, core'.lists, payload)
  {
    OrderInConnected(core.connected, order);
    var (core', r) := ScheduleSpec(core, reliability, sendTo, payload, order, now);
    var targets, chunks := Targets(sendTo, order), Chunks(payload);
    if r.Ok? && chunks != [] {
      var rows := Rows(core.connected, targets, chunks, |chunks|, core.packetIdTracker, now);
      RowsElements(core.connected, targets, chunks, |chunks|, core.packetIdTracker, now);
      forall x | x in rows ensures Part(payload, x.message) {
        var id, i: nat :| id in targets && id in core.connected && i < |chunks| && x == PayloadItem(core.connected, id, chunks, i, core.packetIdTracker, now);
        assert IsChunk(payload, x.message, i);
      }
    }
  }

  lemma HeartbeatMoves(core: Core, first: seq<Wire>, reliability: ReliabilityType, sendTo: SendTo, order: seq<ConnectionId>, now: nat)
    requires IterationOrder(core.connected, order)
    ensures var core' := HeartbeatSpec(core, reliability, sendTo, order, now).0;
      Moves(core, core', first, first) && Fills(core.lists, core'.lists, [])
  {
  }

  lemma StampOneMoves(core: Core, core': Core, first: seq<Wire>, x: Scheduled)
    requires core'.lists == core.lists.Append(Handshakes, [x]) && core'.packetIdTracker == core.packetIdTracker + 1
    requires x.packetId == core.packetIdTracker && !x.message.ForConnected()
    ensures Moves(core, core', first, first) && Fills(core.lists, core'.lists, [])
  {
  }

  lemma DrainMoves(core: Core, core': Core, first: seq<Wire>, l: ListId, ws: seq<Wire>)
    requires core'.lists == core.lists.Set(l, []) && core'.packetIdTracker == core.packetIdTracker
    requires forall w :: w in ws ==> exists x :: x in core.lists.At(l) && x.packetId == w.packetId && x.message == w.message
    ensures Moves(core, core', first, first + ws) && Fills(core.lists, core'.lists, [])
  {
  }

  lemma DrainedListed(c: ConnectedPeers, xs: seq<Scheduled>, now: nat)
    requires AllCreatable(c, xs)
    ensures forall w :: w in Wires(Drained(c, xs, now)) ==> exists x :: x in xs && x.packetId == w.packetId && x.message == w.message
  {
  }

  // ---------------------------------------------------------------- what the origin of a packet says

  // A fragment made without overflowing a byte knows its place.
  lemma ChunkIndex(payload: Bytes, m: Message)
    requires Part(payload, m) && m.Fragment? && |Chunks(payload)| <= MAX_CHUNKS
    ensures m.index < m.total == |Chunks(payload)| && m.total >= 2
    ensures m == NewFragment(m.connectionId, Chunks(payload)[m.index], m.index, |Chunks(payload)|)
  {
  }

  // A data transfer carries all of its payload.
  lemma WholePayload(payload: Bytes, m: Message)
    requires Part(payload, m) && m.DataTransfer?
    ensures m.payload == payload
  {
    var i: nat :| IsChunk(payload, m, i);
    FlattenChunks(payload);
    assert Chunks(payload)[1..] == [];
    assert Flatten(Chunks(payload)) == Chunks(payload)[0] + Flatten([]);
  }

  // How much of a payload one packet carries.
  lemma PartSize(payload: Bytes, m: Message)
    requires Part(payload, m)
    ensures m.DataTransfer? || m.Fragment? ==> 0 < |m.payload| <= CHUNK_SIZE
    ensures m.Fragment? && |Chunks(payload)| <= MAX_CHUNKS && m.index + 1 < m.total ==> |m.payload| == CHUNK_SIZE
  {
    ChunkShape(payload);
    if m.Fragment? && |Chunks(payload)| <= MAX_CHUNKS { ChunkIndex(payload, m); }
  }
}
