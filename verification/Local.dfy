// Facts about one node's shared state that hold whatever the other nodes send.
module LocalState {
  import opened Packets
  import opened Fragments
  import opened Reassembly
  import opened Peers
  import opened Scheduler
  import opened Reliability
  import opened Endpoint

  // ---------------------------------------------------------------- connected peers, lists, kept packets

  ghost predicate PeersOk(c: ConnectedPeers) {
    && (forall id :: id in c ==> c[id].connection.connectionId == id && WellKeyed(c[id].connection.reassembler))
    && (forall i, j :: i in c && j in c && c[i].address == c[j].address ==> i == j)
  }

  ghost predicate ItemOk(c: ConnectedPeers, l: ListId, x: Scheduled) {
    && l.Holds(x.message)
    && (l != Handshakes ==> Creatable(c, x) && x.address == c[x.message.connectionId].address)
  }

  ghost predicate ListsOk(c: ConnectedPeers, lists: Lists) {
    forall l, x :: x in lists.At(l) ==> ItemOk(c, l, x)
  }

  ghost predicate KeptItemOk(c: ConnectedPeers, k: KeptId, p: SentPacket) {
    && KeptFor(p.message) == k
    && (k != KeptHandshakes ==> p.message.connectionId in c && p.delivery.address == c[p.message.connectionId].address)
  }

  ghost predicate KeptOk(c: ConnectedPeers, kept: Kept) {
    forall k, p :: p in kept.At(k) ==> KeptItemOk(c, k, p)
  }

  ghost predicate CoreOk(core: Core) {
    && PeersOk(core.connected)
    && ListsOk(core.connected, core.lists)
    && KeptOk(core.connected, core.kept)
  }

  // Connected peers are never removed and keep their address.
  ghost predicate Extends(c: ConnectedPeers, c': ConnectedPeers) {
    forall id :: id in c ==> id in c' && c'[id].address == c[id].address
  }

  lemma ExtendsKeepsLists(c: ConnectedPeers, c': ConnectedPeers, lists: Lists, kept: Kept)
    requires Extends(c, c')
    ensures ListsOk(c, lists) ==> ListsOk(c', lists)
    ensures KeptOk(c, kept) ==> KeptOk(c', kept)
  {
  }

  lemma ListsFacts(core: Core, l: ListId)
    requires CoreOk(core)
    ensures l != Handshakes ==> AllCreatable(core.connected, core.lists.At(l))
    ensures HoldsAll(l, core.lists.At(l))
    ensures Shaped(core.kept) && ReassemblersKeyed(core.connected)
  {
    forall i | 0 <= i < |core.lists.At(l)| ensures ItemOk(core.connected, l, core.lists.At(l)[i]) {
      assert core.lists.At(l)[i] in core.lists.At(l);
    }
    forall k, i | 0 <= i < |core.kept.At(k)| ensures KeptFor(core.kept.At(k)[i].message) == k {
      assert core.kept.At(k)[i] in core.kept.At(k);
    }
  }

  // What one payload scheduled for these targets puts into its list.
  lemma {:induction false} RowsElements(c: ConnectedPeers, targets: seq<ConnectionId>, chunks: seq<Bytes>, n: nat, packetId: nat, now: nat)
    requires AllIn(targets, c) && n <= |chunks|
    ensures forall x :: x in Rows(c, targets, chunks, n, packetId, now) ==>
      && x.packetId == packetId
      && exists id, i: nat {:trigger PayloadItem(c, id, chunks, i, packetId, now)} ::
          id in targets && id in c && i < n && x == PayloadItem(c, id, chunks, i, packetId, now)
  {
    if n > 0 {
      RowsElements(c, targets, chunks, n - 1, packetId, now);
      var row := Row(c, targets, chunks, n - 1, packetId, now);
      forall x | x in row ensures exists id :: id in targets && id in c && x == PayloadItem(c, id, chunks, n - 1, packetId, now) {
        var j :| 0 <= j < |row| && row[j] == x;
        assert targets[j] in targets;
      }
    }
  }

  lemma RowsOk(c: ConnectedPeers, targets: seq<ConnectionId>, chunks: seq<Bytes>, packetId: nat, now: nat, reliability: ReliabilityType)
    requires AllIn(targets, c)
    ensures forall x :: x in Rows(c, targets, chunks, |chunks|, packetId, now) ==>
      ItemOk(c, PayloadList(reliability, |chunks|), x) && x.packetId == packetId
  {
    RowsElements(c, targets, chunks, |chunks|, packetId, now);
  }

  lemma ScheduleKeepsCore(core: Core, reliability: ReliabilityType, sendTo: SendTo, payload: Bytes, order: seq<ConnectionId>, now: nat)
    requires CoreOk(core) && IterationOrder(core.connected, order)
    ensures CoreOk(ScheduleSpec(core, reliability, sendTo, payload, order, now).0)
  {
    OrderInConnected(core.connected, order);
    var targets := Targets(sendTo, order);
    if AllIn(targets, core.connected) {
      RowsOk(core.connected, targets, Chunks(payload), core.packetIdTracker, now, reliability);
    } else {
      assert targets == [sendTo.connectionId] && targets[0] !in core.connected;
    }
  }

  lemma HeartbeatKeepsCore(core: Core, reliability: ReliabilityType, sendTo: SendTo, order: seq<ConnectionId>, now: nat)
    requires CoreOk(core) && IterationOrder(core.connected, order)
    ensures CoreOk(HeartbeatSpec(core, reliability, sendTo, order, now).0)
  {
    OrderInConnected(core.connected, order);
  }

  lemma AppendKeepsKept(c: ConnectedPeers, kept: Kept, k: KeptId, ps: seq<SentPacket>)
    requires KeptOk(c, kept) && forall p :: p in ps ==> KeptItemOk(c, k, p)
    ensures KeptOk(c, kept.Append(k, ps))
  {
  }

  lemma ClearKeepsLists(c: ConnectedPeers, lists: Lists, l: ListId)
    requires ListsOk(c, lists)
    ensures ListsOk(c, lists.Set(l, []))
  {
  }

  // What a drained list sends goes to connected peers, at their addresses.
  lemma DrainedItemsOk(c: ConnectedPeers, l: ListId, xs: seq<Scheduled>, now: nat, ttl: nat)
    requires AllCreatable(c, xs) && l != Handshakes && forall x :: x in xs ==> ItemOk(c, l, x)
    ensures forall p :: p in AllSent(Drained(c, xs, now), now, ttl) ==> KeptItemOk(c, KeptList(l), p)
  {
    var out := Drained(c, xs, now);
    forall p | p in AllSent(out, now, ttl) ensures KeptItemOk(c, KeptList(l), p) {
      var i :| 0 <= i < |out| && AllSent(out, now, ttl)[i] == p;
      assert xs[i] in xs;
    }
  }

  lemma DrainKeepsCore(core: Core, l: ListId, now: nat, ttl: nat)
    requires CoreOk(core) && l != Handshakes && AllCreatable(core.connected, core.lists.At(l))
    ensures CoreOk(DrainSpec(core, l, now, ttl).0)
  {
    var xs := core.lists.At(l);
    var (core', out) := DrainSpec(core, l, now, ttl);
    DrainedItemsOk(core.connected, l, xs, now, ttl);
    AppendKeepsKept(core.connected, core.kept, KeptList(l), AllSent(out, now, ttl));
    ClearKeepsLists(core.connected, core.lists, l);
    ExtendsKeepsLists(core.connected, core'.connected, core'.lists, core'.kept);
  }

  lemma RetriedKeepsKept(c: ConnectedPeers, kept: Kept, k: KeptId, now: nat)
    requires KeptOk(c, kept)
    ensures KeptOk(c, Retried(kept, k, now).0)
  {
  }

  // Marking a retried packet as sent puts it back.
  lemma RetryKeepsCore(core: Core, k: KeptId, now: nat, ttl: nat)
    requires CoreOk(core) && k != KeptHandshakes
    ensures var (kept, r) := Retried(core.kept, k, now);
      && CoreOk(core.(kept := kept))
      && (r.Some? ==>
            && r.value.message.ForConnected()
            && r.value.message.connectionId in core.connected
            && r.value.delivery.address == core.connected[r.value.message.connectionId].address
            && CoreOk(SentSpec(core.(kept := kept), r.value, true, now, ttl)))
  {
    var (kept, r) := Retried(core.kept, k, now);
    RetriedKeepsKept(core.connected, core.kept, k, now);
    if r.Some? {
      var ps := core.kept.At(k);
      assert ps[|ps| - 1] in ps;
      assert KeptItemOk(core.connected, k, ps[|ps| - 1]);
      var core' := SentSpec(core.(kept := kept), r.value, true, now, ttl);
      ExtendsKeepsLists(core.connected, core'.connected, core.lists, kept);
    }
  }

  lemma ExpireKeepsKept(c: ConnectedPeers, kept: Kept)
    requires KeptOk(c, kept)
    ensures KeptOk(c, Expired(kept))
  {
  }

  lemma PollKeepsCore(core: Core, now: nat, c': ConnectedPeers)
    requires CoreOk(core) && PolledPeers(core.connected, now, c')
    ensures CoreOk(core.(connected := c', kept := Expired(core.kept), api := []))
  {
    ExpireKeepsKept(core.connected, core.kept);
    ExtendsKeepsLists(core.connected, c', core.lists, Expired(core.kept));
  }

  // Hearing a packet, or becoming connected under a new id and at a new address.
  lemma HearKeepsCore(core: Core, id: ConnectionId, peer: Peer<Connected>)
    requires CoreOk(core)
    requires peer.connection.connectionId == id && WellKeyed(peer.connection.reassembler)
    requires if id in core.connected then peer.address == core.connected[id].address
             else forall j :: j in core.connected ==> core.connected[j].address != peer.address
    ensures CoreOk(core.(connected := core.connected[id := peer]))
  {
  }

  lemma FragmentKeepsCore(core: Core, p: FragmentPacket)
    requires CoreOk(core) && p.message.connectionId in core.connected
    ensures CoreOk(TakeFragment(core, p))
    ensures TakeFragment(core, p).connected.Keys == core.connected.Keys
    ensures forall id :: id in core.connected ==> TakeFragment(core, p).connected[id].Link() == core.connected[id].Link()
  {
    var id := p.message.connectionId;
    var peer := core.connected[id];
    AbsorbKeepsKeys(peer.connection.reassembler, p);
    HearKeepsCore(core, id, TakeFragment(core, p).connected[id]);
  }
}
