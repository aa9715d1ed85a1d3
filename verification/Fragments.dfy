// Cutting a payload into fragments (lib.rs `schedule_helper`) and putting one back together
// (packets/message.rs, `From<Vec<Packet<Received, Fragment>>>`).
module Fragments {
  import opened Packets
  import Codec

  const CHUNK_SIZE: nat := Codec.MAX_FRAGMENT_SIZE - Codec.FRAGMENT_HEADER_SIZE
  // Fragment indices and totals are a byte each.
  const MAX_CHUNKS: nat := 0xFF

  // ---------------------------------------------------------------- cutting

  // `payload.chunks(CHUNK_SIZE)`: all of CHUNK_SIZE bytes, the last one of what remains.
  function Chunks(payload: Bytes): (cs: seq<Bytes>) {
    if payload == [] then []
    else if |payload| <= CHUNK_SIZE then [payload]
    else [payload[..CHUNK_SIZE]] + Chunks(payload[CHUNK_SIZE..])
  }

  function Flatten(parts: seq<Bytes>): Bytes {
    if parts == [] then [] else parts[0] + Flatten(parts[1..])
  }

  lemma {:induction false} FlattenChunks(payload: Bytes)
    ensures Flatten(Chunks(payload)) == payload
  {
    if |payload| > CHUNK_SIZE {
      FlattenChunks(payload[CHUNK_SIZE..]);
      assert Chunks(payload)[1..] == Chunks(payload[CHUNK_SIZE..]);
      assert payload[..CHUNK_SIZE] + payload[CHUNK_SIZE..] == payload;
    } else if payload != [] {
      assert Chunks(payload)[1..] == [];
      assert Flatten([]) == [];
    }
  }

  // An n-byte payload makes ceil(n / CHUNK_SIZE) chunks; all are full but the last, which is
  // not empty; together they cover the payload in order.
  lemma {:induction false} ChunkShape(payload: Bytes)
    ensures |Chunks(payload)| == (|payload| + CHUNK_SIZE - 1) / CHUNK_SIZE
    ensures forall i :: 0 <= i < |Chunks(payload)| ==>
      && 0 < |Chunks(payload)[i]| <= CHUNK_SIZE
      && (i + 1 < |Chunks(payload)| ==> |Chunks(payload)[i]| == CHUNK_SIZE)
  {
    if |payload| > CHUNK_SIZE {
      ChunkShape(payload[CHUNK_SIZE..]);
    }
  }

  // Fragment::new: index and total are cast to u8.
  function NewFragment(connectionId: ConnectionId, payload: Bytes, index: nat, total: nat): Message {
    Fragment(connectionId, index % 0x100, total % 0x100, payload)
  }

  // ---------------------------------------------------------------- sorting

  // The library's stable sort: each element goes in front of the first one that is not smaller,
  // so equal elements keep their order.
  function Insert<T>(key: T -> int, x: T, sorted: seq<T>): seq<T> {
    if sorted == [] || key(x) <= key(sorted[0]) then [x] + sorted
    else [sorted[0]] + Insert(key, x, sorted[1..])
  }

  function StableSort<T>(key: T -> int, s: seq<T>): seq<T> {
    if s == [] then [] else Insert(key, s[0], StableSort(key, s[1..]))
  }

  ghost predicate Sorted<T>(key: T -> int, s: seq<T>) {
    forall i, j :: 0 <= i < j < |s| ==> key(s[i]) <= key(s[j])
  }

  ghost predicate Distinct<T>(key: T -> int, s: seq<T>) {
    forall i, j :: 0 <= i < j < |s| ==> key(s[i]) != key(s[j])
  }

  lemma {:induction false} InsertElements<T>(key: T -> int, x: T, s: seq<T>)
    ensures multiset(Insert(key, x, s)) == multiset{x} + multiset(s)
    ensures |Insert(key, x, s)| == 1 + |s|
  {
    if s == [] || key(x) <= key(s[0]) {
    } else {
      InsertElements(key, x, s[1..]);
      assert s == [s[0]] + s[1..];
    }
  }

  lemma {:induction false} InsertSorts<T>(key: T -> int, x: T, s: seq<T>)
    requires Sorted(key, s)
    ensures Sorted(key, Insert(key, x, s))
    ensures Distinct(key, s) && (forall y :: y in s ==> key(y) != key(x)) ==> Distinct(key, Insert(key, x, s))
  {
    if s == [] || key(x) <= key(s[0]) {
    } else {
      InsertSorts(key, x, s[1..]);
      // The rest starts with x or with s[1], both above s[0].
      assert |s| > 1 ==> s[1..][0] == s[1];
      if Distinct(key, s) && (forall y :: y in s ==> key(y) != key(x)) {
        assert key(s[0]) < key(Insert(key, x, s[1..])[0]);
      }
    }
  }

  // A stable sort is sorted, and it is a permutation.
  lemma {:induction false} StableSortSorts<T>(key: T -> int, s: seq<T>)
    ensures Sorted(key, StableSort(key, s))
    ensures multiset(StableSort(key, s)) == multiset(s)
    ensures |StableSort(key, s)| == |s|
  {
    if s != [] {
      StableSortSorts(key, s[1..]);
      InsertElements(key, s[0], StableSort(key, s[1..]));
      InsertSorts(key, s[0], StableSort(key, s[1..]));
      assert s == [s[0]] + s[1..];
    }
  }

  lemma SortElements<T>(key: T -> int, s: seq<T>, y: T)
    ensures y in StableSort(key, s) <==> y in s
  {
    StableSortSorts(key, s);
    assert y in multiset(StableSort(key, s)) <==> y in multiset(s);
  }

  lemma {:induction false} SortKeepsDistinct<T>(key: T -> int, s: seq<T>)
    requires Distinct(key, s)
    ensures Distinct(key, StableSort(key, s))
  {
    if s != [] {
      var t := StableSort(key, s[1..]);
      SortKeepsDistinct(key, s[1..]);
      StableSortSorts(key, s[1..]);
      forall y | y in t ensures key(y) != key(s[0]) {
        SortElements(key, s[1..], y);
      }
      InsertSorts(key, s[0], t);
    }
  }

  // Sorting by a key that all elements share changes nothing.
  lemma {:induction false} EqualKeysKeepOrder<T>(key: T -> int, s: seq<T>)
    requires forall i, j :: 0 <= i < |s| && 0 <= j < |s| ==> key(s[i]) == key(s[j])
    ensures StableSort(key, s) == s
  {
    if |s| > 1 {
      EqualKeysKeepOrder(key, s[1..]);
      assert key(s[0]) == key(s[1]);
    }
  }

  // ---------------------------------------------------------------- putting back together

  // Packet<Received, Fragment>.
  type FragmentPacket = p: Packet<Received> | p.message.Fragment?
    witness Packet(Received(0, SocketAddr(0, 0)), 1, 0, Fragment(1, 0, 0, []))

  type Group = seq<FragmentPacket>

  function BySequence(p: FragmentPacket): int { p.sequence }

  function ByIndex(p: FragmentPacket): int { p.message.index }

  function Payloads(g: Group): (ps: seq<Bytes>)
    ensures |ps| == |g|
  {
    seq(|g|, i requires 0 <= i < |g| => g[i].message.payload)
  }

  // What the conversion delivers: everything but the payload of the fragment it pops first.
  function Reassembled(g: Group): Packet<Received>
    requires g != []
  {
    var last := g[|g| - 1];
    Packet(last.delivery, last.sequence, last.ack,
           DataTransfer(last.message.connectionId, Flatten(Payloads(g[..|g| - 1]))))
  }

  // From<Vec<Packet<Received, Fragment>>> for Packet<Received, DataTransfer>: pop the last
  // fragment for its header, then fold the payloads of the rest.
  method Reassemble(fragments: Group) returns (packet: Packet<Received>)
    requires fragments != []
    ensures packet == Reassembled(fragments)
  {
    var lastFragment := fragments[|fragments| - 1];
    var rest := fragments[..|fragments| - 1];
    var payload: Bytes := [];
    var i := 0;
    while i < |rest|
      invariant 0 <= i <= |rest|
      invariant payload == Flatten(Payloads(rest[..i]))
    {
      FlattenAppend(Payloads(rest[..i]), rest[i].message.payload);
      assert Payloads(rest[..i + 1]) == Payloads(rest[..i]) + [rest[i].message.payload];
      payload := payload + rest[i].message.payload;
      i := i + 1;
    }
    assert rest[..i] == rest;
    packet := Packet(lastFragment.delivery, lastFragment.sequence, lastFragment.ack,
                     DataTransfer(lastFragment.message.connectionId, payload));
  }

  lemma {:induction false} FlattenAppend(parts: seq<Bytes>, last: Bytes)
    ensures Flatten(parts + [last]) == Flatten(parts) + last
  {
    if parts == [] {
      assert Flatten([last]) == last + Flatten([]);
      assert [last][1..] == [];
    } else {
      FlattenAppend(parts[1..], last);
      assert (parts + [last])[1..] == parts[1..] + [last];
    }
  }

  // What the code delivers for a full group: sort by sequence, then reassemble.
  function DeliveredPayload(arrivals: Group): Bytes
    requires arrivals != []
  {
    StableSortSorts(BySequence, arrivals);
    Reassembled(StableSort(BySequence, arrivals)).message.payload
  }

  // The intended variant: sort by index, and keep the last fragment's bytes too.
  function IntendedPayload(arrivals: Group): Bytes {
    Flatten(Payloads(StableSort(ByIndex, arrivals)))
  }

  // ---------------------------------------------------------------- the round trip

  // One arrival of a payload's chunks.
  ghost predicate ArrivalOf(chunks: seq<Bytes>, id: ConnectionId, sequence: Sequence, p: FragmentPacket) {
    && p.sequence == sequence
    && p.message.index < |chunks|
    && p.message == NewFragment(id, chunks[p.message.index], p.message.index, |chunks|)
  }

  // The arrivals of a whole payload: all its chunks, each once, in any order.
  ghost predicate Arrivals(payload: Bytes, id: ConnectionId, sequence: Sequence, arrivals: Group) {
    && |arrivals| == |Chunks(payload)| <= MAX_CHUNKS
    && (forall i :: 0 <= i < |arrivals| ==> ArrivalOf(Chunks(payload), id, sequence, arrivals[i]))
    && Distinct(ByIndex, arrivals)
  }

  // Distinct sorted values below their count are 0, 1, 2, ...
  lemma SortedDistinct(key: FragmentPacket -> int, g: Group, i: nat)
    requires Sorted(key, g) && Distinct(key, g) && i < |g|
    requires forall y :: y in g ==> 0 <= key(y) < |g|
    ensures key(g[i]) == i
  {
    assert g[0] in g && g[|g| - 1] in g;
    var j := 0;
    while j < i
      invariant 0 <= j <= i && key(g[j]) >= j
    {
      assert key(g[j]) < key(g[j + 1]);
      j := j + 1;
    }
    j := |g| - 1;
    while j > i
      invariant i <= j < |g| && key(g[j]) <= j
    {
      assert key(g[j - 1]) < key(g[j]);
      j := j - 1;
    }
  }

  // Intended: whatever the order of arrival, the payload comes back.
  lemma IntendedRoundTrip(payload: Bytes, id: ConnectionId, sequence: Sequence, arrivals: Group)
    requires Arrivals(payload, id, sequence, arrivals)
    ensures IntendedPayload(arrivals) == payload
  {
    var chunks, t := Chunks(payload), StableSort(ByIndex, arrivals);
    StableSortSorts(ByIndex, arrivals);
    forall y | y in t ensures ArrivalOf(chunks, id, sequence, y) && 0 <= ByIndex(y) < |t| {
      SortElements(ByIndex, arrivals, y);
    }
    SortKeepsDistinct(ByIndex, arrivals);
    forall i | 0 <= i < |t| ensures Payloads(t)[i] == chunks[i] {
      SortedDistinct(ByIndex, t, i);
      assert t[i] in t;
    }
    assert Payloads(t) == chunks;
    FlattenChunks(payload);
  }

  // As written: the sort keeps the order of arrival and the last arrival's bytes are lost.
  lemma DeliveredAsWritten(payload: Bytes, id: ConnectionId, sequence: Sequence, arrivals: Group)
    requires Arrivals(payload, id, sequence, arrivals) && arrivals != []
    ensures DeliveredPayload(arrivals) == Flatten(Payloads(arrivals[..|arrivals| - 1]))
    ensures |DeliveredPayload(arrivals)| == |payload| - |arrivals[|arrivals| - 1].message.payload| < |payload|
  {
    EqualKeysKeepOrder(BySequence, arrivals);
    var n := |arrivals|;
    var all, front := Payloads(arrivals), Payloads(arrivals[..n - 1]);
    assert all == front + [arrivals[n - 1].message.payload];
    FlattenAppend(front, arrivals[n - 1].message.payload);
    ArrivalsLength(payload, id, sequence, arrivals);
    ChunkShape(payload);
  }

  // As written, and with the fragments arriving in order: all full chunks, but not the last chunk.
  lemma DeliveredInOrder(payload: Bytes, id: ConnectionId, sequence: Sequence, arrivals: Group)
    requires Arrivals(payload, id, sequence, arrivals) && arrivals != []
    requires forall i :: 0 <= i < |arrivals| ==> arrivals[i].message.index == i
    ensures CHUNK_SIZE * (|arrivals| - 1) < |payload|
    ensures DeliveredPayload(arrivals) == payload[..CHUNK_SIZE * (|arrivals| - 1)]
  {
    DeliveredAsWritten(payload, id, sequence, arrivals);
    var chunks := Chunks(payload);
    ChunkShape(payload);
    assert Payloads(arrivals[..|arrivals| - 1]) == chunks[..|chunks| - 1];
    FrontChunks(payload);
  }

  lemma {:induction false} FrontChunks(payload: Bytes)
    requires payload != []
    ensures |Chunks(payload)| > 0 && CHUNK_SIZE * (|Chunks(payload)| - 1) < |payload|
    ensures Flatten(Chunks(payload)[..|Chunks(payload)| - 1]) == payload[..CHUNK_SIZE * (|Chunks(payload)| - 1)]
  {
    if |payload| > CHUNK_SIZE {
      var rest := payload[CHUNK_SIZE..];
      FrontChunks(rest);
      var chunks, front := Chunks(payload), Chunks(rest)[..|Chunks(rest)| - 1];
      assert chunks[..|chunks| - 1] == [payload[..CHUNK_SIZE]] + front;
      assert ([payload[..CHUNK_SIZE]] + front)[1..] == front;
    } else {
      assert Chunks(payload)[..0] == [];
    }
  }

  lemma {:induction false} InsertKeepsLength(x: FragmentPacket, g: Group)
    ensures |Flatten(Payloads(Insert(ByIndex, x, g)))| == |x.message.payload| + |Flatten(Payloads(g))|
  {
    var t := Insert(ByIndex, x, g);
    assert Payloads(t)[1..] == Payloads(t[1..]);
    if g == [] || ByIndex(x) <= ByIndex(g[0]) {
      assert t[1..] == g;
    } else {
      assert t[1..] == Insert(ByIndex, x, g[1..]);
      assert Payloads(g)[1..] == Payloads(g[1..]);
      InsertKeepsLength(x, g[1..]);
    }
  }

  lemma {:induction false} SortKeepsLength(g: Group)
    ensures |Flatten(Payloads(StableSort(ByIndex, g)))| == |Flatten(Payloads(g))|
  {
    if g != [] {
      SortKeepsLength(g[1..]);
      InsertKeepsLength(g[0], StableSort(ByIndex, g[1..]));
      assert Payloads(g)[1..] == Payloads(g[1..]);
    }
  }

  // The arrivals carry exactly the payload's bytes, however they are ordered.
  lemma ArrivalsLength(payload: Bytes, id: ConnectionId, sequence: Sequence, arrivals: Group)
    requires Arrivals(payload, id, sequence, arrivals)
    ensures |Flatten(Payloads(arrivals))| == |payload|
  {
    SortKeepsLength(arrivals);
    IntendedRoundTrip(payload, id, sequence, arrivals);
  }
}
