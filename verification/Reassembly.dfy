// The reassembler of a connected peer: what both services' `on_received` do with a fragment
// (server/service.rs, client/service.rs) and what `Peer<Connected>::poll` evicts (peers.rs).
module Reassembly {
  import opened Packets
  import opened Fragments

  type Reassembler = map<Sequence, Group>

  const FRAGMENT_TTL: nat := 1_000_000_000  // one second, in nanoseconds

  // Store a fragment under its sequence; the one that makes its group full takes the group out.
  function Absorb(r: Reassembler, p: FragmentPacket): (result: (Reassembler, Option<Group>))
    ensures result.1.Some? ==> result.1.value != []
  {
    if p.sequence in r then
      var fragments := r[p.sequence] + [p];
      if |fragments| == p.message.total then (r - {p.sequence}, Some(fragments))
      else (r[p.sequence := fragments], None)
    else (r[p.sequence := [p]], None)
  }

  // Every stored group is non-empty and holds fragments of its own sequence only.
  ghost predicate WellKeyed(r: Reassembler) {
    forall q :: q in r ==> r[q] != [] && forall i :: 0 <= i < |r[q]| ==> r[q][i].sequence == q
  }

  predicate Fresh(g: Group, now: nat)
    requires g != []
  {
    g[|g| - 1].delivery.time + FRAGMENT_TTL > now
  }

  // Peer::poll: one of the groups that are still fresh goes, whichever the map yields last;
  // nothing happens when no group is fresh.
  ghost predicate Evicts(r: Reassembler, now: nat, r': Reassembler)
    requires WellKeyed(r)
  {
    || (exists q :: q in r && Fresh(r[q], now) && r' == r - {q})
    || ((forall q :: q in r ==> !Fresh(r[q], now)) && r' == r)
  }

  // In plain numbers: what goes got its newest fragment less than a second ago; one group goes if
  // there is such a group, and none otherwise; what is a second old or older stays.
  ghost predicate OneYoungGone(r: Reassembler, now: nat, r': Reassembler)
    requires WellKeyed(r)
  {
    && (forall q :: q in r' ==> q in r && r'[q] == r[q])
    && (forall q :: q in r && q !in r' ==> r[q][|r[q]| - 1].delivery.time + 1_000_000_000 > now)
    && (if exists q :: q in r && r[q][|r[q]| - 1].delivery.time + 1_000_000_000 > now then |r'| == |r| - 1 else r' == r)
  }

  lemma EvictsOneYoung(r: Reassembler, now: nat, r': Reassembler)
    requires WellKeyed(r) && Evicts(r, now, r')
    ensures OneYoungGone(r, now, r')
  {
    forall q | q in r ensures Fresh(r[q], now) <==> r[q][|r[q]| - 1].delivery.time + 1_000_000_000 > now {}
    if exists q :: q in r && Fresh(r[q], now) {
      var gone :| gone in r && Fresh(r[gone], now) && r' == r - {gone};
      OneGone(r, gone);
    }
  }

  lemma OneGone(r: Reassembler, q: Sequence)
    requires q in r
    ensures |r - {q}| == |r| - 1
  {
    assert (r - {q}).Keys == r.Keys - {q};
  }

  method Poll(r: Reassembler, now: nat) returns (r': Reassembler)
    requires WellKeyed(r)
    ensures Evicts(r, now, r')
    ensures OneYoungGone(r, now, r')
  {
    var dropFragment: Option<Sequence> := None;
    var keys := r.Keys;
    while keys != {}
      invariant keys <= r.Keys
      invariant dropFragment.Some? ==> dropFragment.value in r && Fresh(r[dropFragment.value], now)
      invariant dropFragment.None? ==> forall q :: q in r && q !in keys ==> !Fresh(r[q], now)
      decreases |keys|
    {
      var q :| q in keys;
      keys := keys - {q};
      if Fresh(r[q], now) {
        dropFragment := Some(r[q][|r[q]| - 1].sequence);
      }
    }
    if dropFragment.Some? {
      r' := r - {dropFragment.value};
    } else {
      r' := r;
    }
    EvictsOneYoung(r, now, r');
  }

  lemma AbsorbKeepsKeys(r: Reassembler, p: FragmentPacket)
    requires WellKeyed(r)
    ensures WellKeyed(Absorb(r, p).0)
    ensures forall g :: Absorb(r, p).1 == Some(g) ==> |g| == p.message.total && g[|g| - 1] == p
  {
  }

  // ---------------------------------------------------------------- one peer's reassembler over time

  // What can happen to it: a fragment arrives, or any entry at all is evicted.
  datatype Event = Arrive(p: FragmentPacket) | Evict(q: Sequence)

  // The reassembler, and the groups it has given out so far.
  datatype History = History(r: Reassembler, fired: seq<Group>)

  function Happen(h: History, e: Event): History {
    match e
    case Evict(q) => h.(r := h.r - {q})
    case Arrive(p) =>
      var (r', fired) := Absorb(h.r, p);
      History(r', if fired.Some? then h.fired + [fired.value] else h.fired)
  }

  function Run(events: seq<Event>): History {
    if events == [] then History(map[], []) else Happen(Run(events[..|events| - 1]), events[|events| - 1])
  }

  // Fragments as a sender makes them: groups of at least two, one total per sequence.
  ghost predicate Genuine(events: seq<Event>, total: Sequence -> nat) {
    forall i :: 0 <= i < |events| && events[i].Arrive? ==>
      var p := events[i].p;
      p.message.index < p.message.total == total(p.sequence) && p.message.total >= 2
  }

  // No fragment arrives twice.
  ghost predicate NoRepeat(events: seq<Event>) {
    forall i, j | 0 <= i < j < |events| && events[i].Arrive? && events[j].Arrive? ::
      events[i].p.sequence == events[j].p.sequence ==> ByIndex(events[i].p) != ByIndex(events[j].p)
  }

  // A stored or delivered group: distinct fragments of one sequence that did arrive.
  ghost predicate ArrivedGroup(events: seq<Event>, q: Sequence, g: Group) {
    && g != []
    && Distinct(ByIndex, g)
    && forall i :: 0 <= i < |g| ==> g[i].sequence == q && Arrive(g[i]) in events
  }

  ghost predicate HistoryOk(events: seq<Event>, total: Sequence -> nat, h: History) {
    && (forall q :: q in h.r ==> ArrivedGroup(events, q, h.r[q]) && |h.r[q]| < total(q))
    && (forall k | 0 <= k < |h.fired| ::
          h.fired[k] != [] &&
          var q := h.fired[k][0].sequence;
          ArrivedGroup(events, q, h.fired[k]) && |h.fired[k]| == total(q) && q !in h.r)
    && (forall k, l | 0 <= k < l < |h.fired| :: h.fired[k][0].sequence != h.fired[l][0].sequence)
  }

  ghost predicate HasIndex(g: Group, i: int) {
    exists k :: 0 <= k < |g| && ByIndex(g[k]) == i
  }

  // Pigeonhole: n distinct indices below n are all of them.
  lemma FullGroupHasAll(g: Group, i: nat)
    requires Distinct(ByIndex, g) && i < |g|
    requires forall k :: 0 <= k < |g| ==> g[k].message.index < |g|
    ensures HasIndex(g, i)
  {
    var t := StableSort(ByIndex, g);
    StableSortSorts(ByIndex, g);
    SortKeepsDistinct(ByIndex, g);
    forall y | y in t ensures 0 <= ByIndex(y) < |t| { SortElements(ByIndex, g, y); }
    SortedDistinct(ByIndex, t, i);
    SortElements(ByIndex, g, t[i]);
  }

  lemma ArrivedGroupGrows(events: seq<Event>, e: Event, q: Sequence, g: Group)
    requires ArrivedGroup(events, q, g)
    ensures ArrivedGroup(events + [e], q, g)
  {
  }

  // A new fragment's index is not in any group made of earlier ones.
  lemma NewIndex(events: seq<Event>, p: FragmentPacket, g: Group)
    requires NoRepeat(events + [Arrive(p)]) && ArrivedGroup(events, p.sequence, g)
    ensures forall k :: 0 <= k < |g| ==> g[k].message.index != p.message.index
    ensures ArrivedGroup(events + [Arrive(p)], p.sequence, g + [p])
  {
    var all := events + [Arrive(p)];
    forall k | 0 <= k < |g| ensures ByIndex(g[k]) != ByIndex(p) {
      var i :| 0 <= i < |events| && events[i] == Arrive(g[k]);
      assert all[i] == events[i] && all[|events|] == Arrive(p);
    }
    assert Arrive(p) in all;
    forall k | 0 <= k < |g| ensures Arrive(g[k]) in all {
      assert Arrive(g[k]) in events;
    }
  }

  // So a group that was given out is never started again.
  lemma FiredIsOver(events: seq<Event>, total: Sequence -> nat, p: FragmentPacket, g: Group)
    requires Genuine(events + [Arrive(p)], total) && NoRepeat(events + [Arrive(p)])
    ensures !(ArrivedGroup(events, p.sequence, g) && |g| == total(p.sequence))
  {
    var all := events + [Arrive(p)];
    if ArrivedGroup(events, p.sequence, g) && |g| == total(p.sequence) {
      forall k | 0 <= k < |g| ensures g[k].message.index < |g| {
        var i :| 0 <= i < |events| && events[i] == Arrive(g[k]);
        assert all[i] == events[i];
      }
      assert all[|events|] == Arrive(p);
      FullGroupHasAll(g, p.message.index);
      NewIndex(events, p, g);
    }
  }

  lemma ArriveKeepsHistory(events: seq<Event>, total: Sequence -> nat, h: History, p: FragmentPacket)
    requires HistoryOk(events, total, h)
    requires Genuine(events + [Arrive(p)], total) && NoRepeat(events + [Arrive(p)])
    ensures HistoryOk(events + [Arrive(p)], total, Happen(h, Arrive(p)))
  {
    var e, q, h' := Arrive(p), p.sequence, Happen(h, Arrive(p));
    assert (events + [e])[|events|] == e;
    forall k | 0 <= k < |h.fired| ensures h.fired[k][0].sequence != q {
      FiredIsOver(events, total, p, h.fired[k]);
    }
    forall k | 0 <= k < |h.fired| ensures ArrivedGroup(events + [e], h.fired[k][0].sequence, h.fired[k]) {
      ArrivedGroupGrows(events, e, h.fired[k][0].sequence, h.fired[k]);
    }
    forall q' | q' in h.r ensures ArrivedGroup(events + [e], q', h.r[q']) {
      ArrivedGroupGrows(events, e, q', h.r[q']);
    }
    if q in h.r {
      NewIndex(events, p, h.r[q]);
    }
  }

  lemma {:induction false} RunKeepsHistory(events: seq<Event>, total: Sequence -> nat)
    requires Genuine(events, total) && NoRepeat(events)
    ensures HistoryOk(events, total, Run(events))
  {
    if events != [] {
      var before, e := events[..|events| - 1], events[|events| - 1];
      assert events == before + [e];
      forall i | 0 <= i < |before| ensures before[i] == events[i] {}
      RunKeepsHistory(before, total);
      var h := Run(before);
      if e.Arrive? {
        ArriveKeepsHistory(before, total, h, e.p);
      } else {
        forall q | q in h.r ensures ArrivedGroup(events, q, h.r[q]) {
          ArrivedGroupGrows(before, e, q, h.r[q]);
        }
        forall k | 0 <= k < |h.fired| ensures ArrivedGroup(events, h.fired[k][0].sequence, h.fired[k]) {
          ArrivedGroupGrows(before, e, h.fired[k][0].sequence, h.fired[k]);
        }
      }
    }
  }

  ghost predicate HasArrived(events: seq<Event>, q: Sequence, i: nat) {
    exists p: FragmentPacket :: p.sequence == q && p.message.index == i && Arrive(p) in events
  }

  ghost predicate AllArrived(events: seq<Event>, q: Sequence, n: nat) {
    forall i: nat :: i < n ==> HasArrived(events, q, i)
  }

  ghost predicate HasFired(h: History, q: Sequence) {
    exists k :: 0 <= k < |h.fired| && h.fired[k] != [] && h.fired[k][0].sequence == q
  }

  // Without duplicates a group is given out at most once, and only when all of its fragments
  // have arrived, whatever other groups interleave and whatever is evicted.
  lemma FiresOnceAndComplete(events: seq<Event>, total: Sequence -> nat)
    requires Genuine(events, total) && NoRepeat(events)
    ensures var fired: seq<Group> := Run(events).fired;
      && (forall k :: 0 <= k < |fired| ==> fired[k] != [] && AllArrived(events, fired[k][0].sequence, total(fired[k][0].sequence)))
      && (forall k, l :: 0 <= k < l < |fired| ==> fired[k][0].sequence != fired[l][0].sequence)
  {
    RunKeepsHistory(events, total);
    var fired: seq<Group> := Run(events).fired;
    forall k | 0 <= k < |fired| ensures AllArrived(events, fired[k][0].sequence, total(fired[k][0].sequence)) {
      GroupArrived(events, total, fired[k][0].sequence, fired[k]);
    }
  }

  lemma GroupArrived(events: seq<Event>, total: Sequence -> nat, q: Sequence, g: Group)
    requires Genuine(events, total) && ArrivedGroup(events, q, g) && |g| == total(q)
    ensures AllArrived(events, q, total(q))
  {
    forall i: nat | i < total(q) ensures HasArrived(events, q, i) {
      forall k | 0 <= k < |g| ensures g[k].message.index < |g| {
        var j :| 0 <= j < |events| && events[j] == Arrive(g[k]);
      }
      FullGroupHasAll(g, i);
      var k :| 0 <= k < |g| && ByIndex(g[k]) == i;
      assert Arrive(g[k]) in events;
    }
  }

  // Until a group is given out, and if it is never evicted, its entry holds all that arrived of it.
  lemma {:induction false} NothingLost(events: seq<Event>, q: Sequence, p: FragmentPacket)
    requires Evict(q) !in events
    requires p.sequence == q && Arrive(p) in events
    ensures HasFired(Run(events), q) || (q in Run(events).r && p in Run(events).r[q])
  {
    var before, e := events[..|events| - 1], events[|events| - 1];
    var h, h' := Run(before), Run(events);
    assert events == before + [e];
    assert e != Evict(q) by { assert e in events; }
    assert HasFired(h, q) ==> HasFired(h', q) by {
      forall k | 0 <= k < |h.fired| ensures h'.fired[k] == h.fired[k] {}
    }
    HistoryKeyed(before);
    if e != Arrive(p) { NothingLost(before, q, p); }
    if e.Arrive? && e.p.sequence == q && q in h.r && |h.r[q] + [e.p]| == e.p.message.total {
      assert h'.fired[|h.fired|][0].sequence == q;
    }
  }

  lemma {:induction false} HistoryKeyed(events: seq<Event>)
    ensures WellKeyed(Run(events).r)
  {
    if events != [] {
      HistoryKeyed(events[..|events| - 1]);
      var h, e := Run(events[..|events| - 1]), events[|events| - 1];
      if e.Arrive? { AbsorbKeepsKeys(h.r, e.p); }
    }
  }

  // A group that is never evicted is given out exactly when all of its fragments have arrived.
  lemma FiresExactlyWhenComplete(events: seq<Event>, total: Sequence -> nat, q: Sequence)
    requires Genuine(events, total) && NoRepeat(events) && Evict(q) !in events && total(q) >= 2
    ensures HasFired(Run(events), q) <==> AllArrived(events, q, total(q))
  {
    var h := Run(events);
    RunKeepsHistory(events, total);
    if HasFired(h, q) {
      FiresOnceAndComplete(events, total);
    } else if AllArrived(events, q, total(q)) {
      var g := if q in h.r then h.r[q] else [];
      forall i: nat | i < total(q) ensures HasIndex(g, i) {
        assert HasArrived(events, q, i);
        var p: FragmentPacket :| p.sequence == q && p.message.index == i && Arrive(p) in events;
        NothingLost(events, q, p);
        var k :| 0 <= k < |g| && g[k] == p;
      }
      IndexCount(g, total(q));
    }
  }

  // n different indices take at least n fragments.
  lemma {:induction false} IndexCount(g: Group, n: nat)
    requires forall i: nat :: i < n ==> HasIndex(g, i)
    ensures |g| >= n
  {
    if n > 0 {
      assert HasIndex(g, n - 1);
      var k :| 0 <= k < |g| && ByIndex(g[k]) == n - 1;
      var rest := g[..k] + g[k + 1..];
      forall i: nat | i < n - 1 ensures HasIndex(rest, i) {
        assert HasIndex(g, i);
        var j :| 0 <= j < |g| && ByIndex(g[j]) == i;
        assert rest[if j < k then j else j - 1] == g[j];
      }
      IndexCount(rest, n - 1);
    }
  }

  // A group cut from one payload: what is given out are that payload's chunks, so the intended
  // conversion would deliver the payload and the one written delivers less of it, always.
  lemma FiredGroupPayload(events: seq<Event>, total: Sequence -> nat, payload: Bytes, id: ConnectionId, k: nat)
    requires Genuine(events, total) && NoRepeat(events) && k < |Run(events).fired|
    requires var g := Run(events).fired[k]; g != [] && |Chunks(payload)| == total(g[0].sequence) <= MAX_CHUNKS
    requires var g := Run(events).fired[k];
      forall p: FragmentPacket :: Arrive(p) in events && p.sequence == g[0].sequence ==>
        ArrivalOf(Chunks(payload), id, g[0].sequence, p)
    ensures var g := Run(events).fired[k];
      && Arrivals(payload, id, g[0].sequence, g)
      && IntendedPayload(g) == payload
      && DeliveredPayload(g) == Flatten(Payloads(g[..|g| - 1]))
      && |DeliveredPayload(g)| < |payload|
  {
    RunKeepsHistory(events, total);
    var g := Run(events).fired[k];
    assert Arrivals(payload, id, g[0].sequence, g);
    IntendedRoundTrip(payload, id, g[0].sequence, g);
    DeliveredAsWritten(payload, id, g[0].sequence, g);
  }

  // ---------------------------------------------------------------- evictions, exactly

  // What is evicted was stored.
  ghost predicate EvictsStored(events: seq<Event>) {
    forall i: nat :: i < |events| && events[i].Evict? ==> events[i].q in Run(events[..i]).r
  }

  // A group of which an entry was evicted lacks that entry's fragments for ever.
  ghost predicate Spoiled(events: seq<Event>, h: History, q: Sequence) {
    && !HasFired(h, q)
    && exists p: FragmentPacket :: Arrive(p) in events && p.sequence == q && Lacks(h.r, p)
  }

  ghost predicate Lacks(r: Reassembler, p: FragmentPacket) {
    p.sequence in r ==> !HasIndex(r[p.sequence], p.message.index)
  }

  lemma EvictionSpoils(events: seq<Event>, total: Sequence -> nat, h: History, q: Sequence)
    requires HistoryOk(events, total, h) && q in h.r
    ensures Spoiled(events + [Evict(q)], Happen(h, Evict(q)), q)
  {
    var p := h.r[q][0];
    assert Arrive(p) in events + [Evict(q)] && Lacks(Happen(h, Evict(q)).r, p);
  }

  lemma StaysSpoiled(events: seq<Event>, total: Sequence -> nat, h: History, q: Sequence, e: Event)
    requires HistoryOk(events, total, h) && Spoiled(events, h, q)
    requires Genuine(events + [e], total) && NoRepeat(events + [e])
    ensures Spoiled(events + [e], Happen(h, e), q)
  {
    var all, h' := events + [e], Happen(h, e);
    var p: FragmentPacket :| Arrive(p) in events && p.sequence == q && Lacks(h.r, p);
    assert Arrive(p) in all;
    if e.Arrive? && e.p.sequence == q {
      ArrivedBefore(events, total, e, p);
      if q in h.r {
        var g := h.r[q] + [e.p];
        assert !HasIndex(g, p.message.index);
        NewIndex(events, e.p, h.r[q]);
        if |g| == total(q) {
          GroupIndices(all, total, q, g);
          FullGroupHasAll(g, p.message.index);
        }
      }
    }
  }

  lemma ArrivedBefore(events: seq<Event>, total: Sequence -> nat, e: Event, p: FragmentPacket)
    requires Genuine(events + [e], total) && NoRepeat(events + [e]) && Arrive(p) in events
    requires e.Arrive? && e.p.sequence == p.sequence
    ensures e.p.message.index != p.message.index && p.message.index < p.message.total == total(p.sequence) == e.p.message.total
  {
    var all := events + [e];
    var i :| 0 <= i < |events| && events[i] == Arrive(p);
    assert all[i] == Arrive(p) && all[|events|] == e;
    assert ByIndex(all[i].p) != ByIndex(all[|events|].p);
  }

  lemma GroupIndices(events: seq<Event>, total: Sequence -> nat, q: Sequence, g: Group)
    requires Genuine(events, total) && forall k :: 0 <= k < |g| ==> g[k].sequence == q && Arrive(g[k]) in events
    ensures forall k :: 0 <= k < |g| ==> g[k].message.index < total(q)
  {
    forall k | 0 <= k < |g| ensures g[k].message.index < total(q) {
      var i :| 0 <= i < |events| && events[i] == Arrive(g[k]);
    }
  }

  lemma {:induction false} EvictedIsSpoiled(events: seq<Event>, total: Sequence -> nat, q: Sequence)
    requires Genuine(events, total) && NoRepeat(events) && EvictsStored(events) && Evict(q) in events
    ensures Spoiled(events, Run(events), q)
  {
    var n := |events| - 1;
    var before, e := events[..n], events[n];
    assert events == before + [e];
    FrontOk(events, total);
    RunKeepsHistory(before, total);
    assert Run(events) == Happen(Run(before), e);
    if Evict(q) in before {
      EvictedIsSpoiled(before, total, q);
      StaysSpoiled(before, total, Run(before), q, e);
    } else {
      assert e == Evict(q) && events[n].q in Run(events[..n]).r;
      EvictionSpoils(before, total, Run(before), q);
    }
  }

  lemma FrontOk(events: seq<Event>, total: Sequence -> nat)
    requires Genuine(events, total) && NoRepeat(events) && EvictsStored(events) && events != []
    ensures var before := events[..|events| - 1]; Genuine(before, total) && NoRepeat(before) && EvictsStored(before)
  {
    var before := events[..|events| - 1];
    forall i: nat | i < |before| ensures before[i] == events[i] && before[..i] == events[..i] {}
  }

  // Without duplicates, and whatever is evicted: a group is given out exactly when all of its
  // fragments have arrived and no entry of it was ever evicted.
  lemma FiresExactly(events: seq<Event>, total: Sequence -> nat, q: Sequence)
    requires Genuine(events, total) && NoRepeat(events) && EvictsStored(events) && total(q) >= 2
    ensures HasFired(Run(events), q) <==> AllArrived(events, q, total(q)) && Evict(q) !in events
  {
    if Evict(q) in events {
      EvictedIsSpoiled(events, total, q);
    } else {
      FiresExactlyWhenComplete(events, total, q);
    }
  }

  // ---------------------------------------------------------------- duplicates, exactly

  // The fragment repeats an index that its entry holds already: a receiver can see that before it
  // stores the fragment.
  ghost predicate Repeats(r: Reassembler, p: FragmentPacket) {
    p.sequence in r && HasIndex(r[p.sequence], p.message.index)
  }

  ghost predicate RepeatAt(events: seq<Event>, q: Sequence, i: nat)
    requires i < |events|
  {
    events[i].Arrive? && events[i].p.sequence == q && Repeats(Run(events[..i]).r, events[i].p)
  }

  // Where the entry there is for q after n events was opened.
  ghost function Opened(events: seq<Event>, q: Sequence, n: nat): nat
    requires n <= |events|
  {
    if n == 0 || q !in Run(events[..n]).r then n else Opened(events, q, n - 1)
  }

  lemma {:induction false} OpenedBefore(events: seq<Event>, q: Sequence, n: nat)
    requires n <= |events|
    ensures Opened(events, q, n) <= n
  {
    if n > 0 && q in Run(events[..n]).r { OpenedBefore(events, q, n - 1); }
  }

  // No arrival into that entry repeated an index.
  ghost predicate CleanEntry(events: seq<Event>, q: Sequence, n: nat)
    requires n <= |events|
  {
    forall i: nat :: Opened(events, q, n) <= i < n ==> !RepeatAt(events, q, i)
  }

  lemma OneMoreEvent(events: seq<Event>, n: nat)
    requires n < |events|
    ensures Run(events[..n + 1]) == Happen(Run(events[..n]), events[n])
  {
    assert events[..n + 1][..n] == events[..n];
  }

  lemma {:induction false} EntryDistinct(events: seq<Event>, q: Sequence, n: nat)
    requires n <= |events| && q in Run(events[..n]).r
    ensures Distinct(ByIndex, Run(events[..n]).r[q]) <==> CleanEntry(events, q, n)
    decreases n
  {
    if n > 0 {
      var m, e := n - 1, events[n - 1];
      var r, r' := Run(events[..m]).r, Run(events[..n]).r;
      OneMoreEvent(events, m);
      OpenedBefore(events, q, m);
      if q in r {
        EntryDistinct(events, q, m);
        if e.Arrive? && e.p.sequence == q { DistinctOneMore(r[q], e.p); }
      }
      assert CleanEntry(events, q, n) <==> CleanEntry(events, q, m) && !RepeatAt(events, q, m);
    }
  }

  lemma DistinctOneMore(g: Group, p: FragmentPacket)
    ensures Distinct(ByIndex, g + [p]) <==> Distinct(ByIndex, g) && !HasIndex(g, p.message.index)
  {
    var g' := g + [p];
    if Distinct(ByIndex, g') {
      forall i, j | 0 <= i < j < |g| ensures ByIndex(g[i]) != ByIndex(g[j]) { assert g'[i] == g[i] && g'[j] == g[j]; }
      forall k | 0 <= k < |g| ensures ByIndex(g[k]) != ByIndex(p) { assert g'[k] == g[k] && g'[|g|] == p; }
    }
  }

  ghost predicate Complete(g: Group, n: nat) {
    forall i: nat :: i < n ==> HasIndex(g, i)
  }

  // n fragments with indices below n have all n of them exactly when no two are the same.
  lemma CompleteIsDistinct(g: Group)
    requires forall k :: 0 <= k < |g| ==> g[k].message.index < |g|
    ensures Complete(g, |g|) <==> Distinct(ByIndex, g)
  {
    if Distinct(ByIndex, g) {
      forall i: nat | i < |g| ensures HasIndex(g, i) { FullGroupHasAll(g, i); }
    } else if Complete(g, |g|) {
      var i, j :| 0 <= i < j < |g| && ByIndex(g[i]) == ByIndex(g[j]);
      var rest := g[..j] + g[j + 1..];
      forall k: nat | k < |g| ensures HasIndex(rest, k) {
        assert HasIndex(g, k);
        var l :| 0 <= l < |g| && ByIndex(g[l]) == k;
        assert l != j ==> rest[if l < j then l else l - 1] == g[l];
        assert rest[i] == g[i];
      }
      IndexCount(rest, |g|);
    }
  }

  lemma {:induction false} StoredArrived(events: seq<Event>, q: Sequence)
    requires q in Run(events).r
    ensures forall k :: 0 <= k < |Run(events).r[q]| ==> Run(events).r[q][k].sequence == q && Arrive(Run(events).r[q][k]) in events
  {
    var before, e := events[..|events| - 1], events[|events| - 1];
    assert events == before + [e];
    if q in Run(before).r { StoredArrived(before, q); }
  }

  // The i-th event completes the count of a group, which is given out.
  ghost predicate FiresAt(events: seq<Event>, i: nat, g: Group)
    requires i < |events|
  {
    events[i].Arrive? && Absorb(Run(events[..i]).r, events[i].p).1 == Some(g)
  }

  // Duplicates allowed, and whatever is evicted: a group that is given out has all its fragments
  // exactly when no arrival into its entry repeated an index the entry held.
  lemma CompleteExactlyWhenClean(events: seq<Event>, total: Sequence -> nat, i: nat, g: Group)
    requires Genuine(events, total) && i < |events| && FiresAt(events, i, g)
    ensures g != [] && |g| == total(events[i].p.sequence)
    ensures var q := events[i].p.sequence;
      Complete(g, total(q)) <==> CleanEntry(events, q, i) && !RepeatAt(events, q, i)
  {
    var p, q, r := events[i].p, events[i].p.sequence, Run(events[..i]).r;
    EntryDistinct(events, q, i);
    DistinctOneMore(r[q], p);
    StoredArrived(events[..i], q);
    forall k | 0 <= k < |g| ensures g[k].sequence == q && Arrive(g[k]) in events {
      assert k < |r[q]| ==> Arrive(g[k]) in events[..i];
      assert events[i] in events;
    }
    GroupIndices(events, total, q, g);
    CompleteIsDistinct(g);
  }

  // Every group given out was given out by some event.
  lemma {:induction false} FiredSomewhere(events: seq<Event>, k: nat)
    requires k < |Run(events).fired|
    ensures exists i: nat :: i < |events| && FiresAt(events, i, Run(events).fired[k])
  {
    var n := |events| - 1;
    if k < |Run(events[..n]).fired| {
      FiredSomewhere(events[..n], k);
      var i: nat :| i < n && FiresAt(events[..n], i, Run(events[..n]).fired[k]);
      assert events[..n][..i] == events[..i];
      assert FiresAt(events, i, Run(events).fired[k]);
    } else {
      assert FiresAt(events, n, Run(events).fired[k]);
    }
  }

  // ---------------------------------------------------------------- how often a group is given out

  function Count(events: seq<Event>, q: Sequence): nat {
    if events == [] then 0
    else
      var e := events[|events| - 1];
      Count(events[..|events| - 1], q) + if e.Arrive? && e.p.sequence == q then 1 else 0
  }

  function StoredOf(r: Reassembler, q: Sequence): nat {
    if q in r then |r[q]| else 0
  }

  // The fragments that evictions threw away.
  function Lost(events: seq<Event>, q: Sequence): nat {
    if events == [] then 0
    else
      var before := events[..|events| - 1];
      Lost(before, q) + if events[|events| - 1] == Evict(q) then StoredOf(Run(before).r, q) else 0
  }

  function Times(fired: seq<Group>, q: Sequence): nat {
    if fired == [] then 0
    else
      var g := fired[|fired| - 1];
      Times(fired[..|fired| - 1], q) + if g != [] && g[0].sequence == q then 1 else 0
  }

  lemma TimesOneMore(fired: seq<Group>, g: Group, q: Sequence)
    requires g != []
    ensures Times(fired + [g], q) == Times(fired, q) + if g[0].sequence == q then 1 else 0
  {
    assert (fired + [g])[..|fired|] == fired;
  }

  // Every arrival is given out, still stored, or lost to an eviction.
  lemma {:induction false} ArrivalAccount(events: seq<Event>, total: Sequence -> nat, q: Sequence)
    requires Genuine(events, total)
    ensures Count(events, q) == total(q) * Times(Run(events).fired, q) + StoredOf(Run(events).r, q) + Lost(events, q)
    ensures q in Run(events).r ==> |Run(events).r[q]| < total(q)
  {
    if events != [] {
      var n := |events| - 1;
      var before, e := events[..n], events[n];
      forall i | 0 <= i < n ensures before[i] == events[i] {}
      ArrivalAccount(before, total, q);
      HistoryKeyed(before);
      if e.Arrive? {
        ArriveAccount(Run(before), e.p, total, q);
      }
    }
  }

  lemma ArriveAccount(h: History, p: FragmentPacket, total: Sequence -> nat, q: Sequence)
    requires WellKeyed(h.r) && p.message.total == total(p.sequence) >= 2
    requires q in h.r ==> |h.r[q]| < total(q)
    ensures var h' := Happen(h, Arrive(p));
      && total(q) * Times(h'.fired, q) + StoredOf(h'.r, q)
           == total(q) * Times(h.fired, q) + StoredOf(h.r, q) + (if p.sequence == q then 1 else 0)
      && (q in h'.r ==> |h'.r[q]| < total(q))
  {
    var h' := Happen(h, Arrive(p));
    ArriveTimes(h, p, q);
    if p.sequence != q {
      assert StoredOf(h'.r, q) == StoredOf(h.r, q);
    } else if Absorb(h.r, p).1.Some? {
      OneMoreOf(total(q), Times(h.fired, q));
      assert StoredOf(h'.r, q) == 0 && StoredOf(h.r, q) == total(q) - 1;
    } else {
      assert StoredOf(h'.r, q) == StoredOf(h.r, q) + 1;
    }
  }

  lemma OneMoreOf(t: nat, k: nat)
    ensures t * (k + 1) == t * k + t
  {
  }

  lemma ArriveTimes(h: History, p: FragmentPacket, q: Sequence)
    requires WellKeyed(h.r)
    ensures Times(Happen(h, Arrive(p)).fired, q)
      == Times(h.fired, q) + if p.sequence == q && Absorb(h.r, p).1.Some? then 1 else 0
  {
    var g := Absorb(h.r, p).1;
    if g.Some? {
      assert g.value[0].sequence == p.sequence;
      TimesOneMore(h.fired, g.value, q);
    }
  }

  // Duplicates allowed, and whatever is evicted: how often a group is given out. It is at most
  // once exactly when fewer than twice its total arrived and were not lost.
  lemma GivenOutTimes(events: seq<Event>, total: Sequence -> nat, q: Sequence)
    requires Genuine(events, total) && total(q) >= 2
    ensures Lost(events, q) <= Count(events, q)
    ensures var times := Times(Run(events).fired, q);
      total(q) * times <= Count(events, q) - Lost(events, q) < total(q) * (times + 1)
    ensures Times(Run(events).fired, q) <= 1 <==> Count(events, q) - Lost(events, q) < 2 * total(q)
  {
    ArrivalAccount(events, total, q);
    var t, k := total(q), Times(Run(events).fired, q);
    OneMoreOf(t, k);
    if k >= 2 { MoreOf(t, 2, k); }
  }

  lemma MoreOf(t: nat, j: nat, k: nat)
    requires j <= k
    ensures t * j <= t * k
  {
  }

  // So a fragment that arrives as often as its group is large completes the group by itself.
  lemma DuplicateFiresEarly(p: FragmentPacket, events: seq<Event>)
    requires p.message.index < p.message.total && p.message.total >= 2
    requires |events| == p.message.total && forall e :: e in events ==> e == Arrive(p)
    ensures Times(Run(events).fired, p.sequence) == 1
    ensures forall i: nat :: HasArrived(events, p.sequence, i) <==> i == p.message.index
  {
    var total: Sequence -> nat := (q: Sequence) => p.message.total;
    forall i | 0 <= i < |events| ensures events[i] == Arrive(p) { assert events[i] in events; }
    GivenOutTimes(events, total, p.sequence);
    CountCopies(events, p);
    assert Arrive(p) == events[0] && Arrive(p) in events;
  }

  lemma {:induction false} CountCopies(events: seq<Event>, p: FragmentPacket)
    requires forall i :: 0 <= i < |events| ==> events[i] == Arrive(p)
    ensures Count(events, p.sequence) == |events| && Lost(events, p.sequence) == 0
  {
    if events != [] { CountCopies(events[..|events| - 1], p); }
  }
}
