// Fragments as one node sends them and another takes them in: what the arrivals at one receiver, over
// the steps of a run, come to.
module Arrivals {
  import opened Packets
  import opened Fragments
  import opened Reassembly
  import opened Scheduler
  import opened Endpoint
  import opened LocalState
  import opened Discipline
  import opened Origins
  import opened Reassemblers

  // ---------------------------------------------------------------- arrivals of what was sent

  ghost predicate FromWires(first: seq<Wire>, a: SocketAddr, events: seq<Event>, ws: seq<Wire>) {
    && |ws| == |events|
    && (forall i :: 0 <= i < |events| && events[i].Arrive? ==> ws[i] in first && Carries(ws[i], a, events[i].p))
  }

  // Each arrival is of its own transmission.
  ghost predicate OwnWires(events: seq<Event>, ws: seq<Wire>) {
    && |ws| == |events|
    && (forall i, j :: 0 <= i < j < |events| && events[i].Arrive? && events[j].Arrive? ==> ws[i] != ws[j])
  }

  lemma OneMoreWire(first: seq<Wire>, a: SocketAddr, events: seq<Event>, ws: seq<Wire>, e: Event, w: Wire)
    requires FromWires(first, a, events, ws)
    requires e.Arrive? ==> w in first && Carries(w, a, e.p)
    ensures FromWires(first, a, events + [e], ws + [w])
    ensures OwnWires(events, ws) && (e.Arrive? ==> forall i :: 0 <= i < |ws| && events[i].Arrive? ==> ws[i] != w) ==>
      OwnWires(events + [e], ws + [w])
  {
  }

  ghost predicate FragmentUnder(w: Wire, a: SocketAddr, q: Sequence) {
    w.address == a && w.sequence == q && w.message.Fragment?
  }

  // How many fragments were sent under a sequence.
  ghost function TotalOf(first: seq<Wire>, a: SocketAddr): Sequence -> nat {
    (q: Sequence) => if exists w :: w in first && FragmentUnder(w, a, q) then SomeFragment(first, a, q).message.total else 2
  }

  ghost function SomeFragment(first: seq<Wire>, a: SocketAddr, q: Sequence): (w: Wire)
    requires exists w :: w in first && FragmentUnder(w, a, q)
    ensures w in first && FragmentUnder(w, a, q)
  {
    var w :| w in first && FragmentUnder(w, a, q);
    w
  }

  lemma TotalIs(lists: Lists, first: seq<Wire>, w: Wire)
    requires Sound(lists, first, false) && w in first && w.message.Fragment?
    ensures TotalOf(first, w.address)(w.sequence) == w.message.total
  {
    assert FragmentUnder(w, w.address, w.sequence);
    SameSequenceSameGroup(first, SomeFragment(first, w.address, w.sequence), w);
  }

  lemma TotalIsTwoAtLeast(lists: Lists, first: seq<Wire>, a: SocketAddr, q: Sequence)
    requires Sound(lists, first, false)
    ensures TotalOf(first, a)(q) >= 2
  {
    if exists w :: w in first && FragmentUnder(w, a, q) {
      SentFragment(lists, first, SomeFragment(first, a, q));
    }
  }

  // So they are what the reassembler's results are about.
  lemma ArrivalsGenuine(lists: Lists, first: seq<Wire>, a: SocketAddr, events: seq<Event>, ws: seq<Wire>)
    requires Sound(lists, first, false) && FromWires(first, a, events, ws)
    ensures Genuine(events, TotalOf(first, a))
    ensures OwnWires(events, ws) ==> NoRepeat(events)
  {
    forall i | 0 <= i < |events| && events[i].Arrive?
      ensures var p := events[i].p; p.message.index < p.message.total == TotalOf(first, a)(p.sequence) && p.message.total >= 2
    {
      SentFragment(lists, first, ws[i]);
      TotalIs(lists, first, ws[i]);
    }
    forall i, j | OwnWires(events, ws) && 0 <= i < j < |events| && events[i].Arrive? && events[j].Arrive? && events[i].p.sequence == events[j].p.sequence
      ensures ByIndex(events[i].p) != ByIndex(events[j].p)
    {
      SameSequenceSameGroup(first, ws[i], ws[j]);
    }
  }

  // All fragments under one sequence are of one payload.
  lemma OnePayload(lists: Lists, first: seq<Wire>, w: Wire) returns (payload: Bytes)
    requires Sound(lists, first, false) && w in first && w.message.Fragment?
    ensures |Chunks(payload)| == w.message.total <= MAX_CHUNKS && OriginIs(lists, first, w.packetId, payload)
    ensures forall v :: v in first && FragmentUnder(v, w.address, w.sequence) ==>
      && v.message.index < |Chunks(payload)|
      && v.message == NewFragment(w.message.connectionId, Chunks(payload)[v.message.index], v.message.index, |Chunks(payload)|)
  {
    assert HasOrigin(lists, first, false, w.packetId);
    payload :| OriginIs(lists, first, w.packetId, payload) && Sized(payload, false);
    ChunkIndex(payload, w.message);
    forall v | v in first && FragmentUnder(v, w.address, w.sequence)
      ensures v.message.index < |Chunks(payload)|
      ensures v.message == NewFragment(w.message.connectionId, Chunks(payload)[v.message.index], v.message.index, |Chunks(payload)|)
    {
      SameSequenceSameGroup(first, v, w);
      ChunkIndex(payload, v.message);
    }
  }

  // What a delivered group is worth: the payload it was cut from, had the conversion sorted by
  // index and kept every part; as written, all of it but the last arrival's bytes, in order of
  // arrival, and so never the whole payload.
  ghost predicate FiredWell(lists: Lists, first: seq<Wire>, g: Group) {
    && g != []
    && exists packetId: nat, payload ::
      && OriginIs(lists, first, packetId, payload)
      && Arrivals(payload, g[0].message.connectionId, g[0].sequence, g)
      && IntendedPayload(g) == payload
      && DeliveredPayload(g) == Flatten(Payloads(g[..|g| - 1]))
      && |DeliveredPayload(g)| < |payload|
  }

  // It is worth that exactly when no fragment is in it twice.
  lemma FiredWellExactly(lists: Lists, first: seq<Wire>, a: SocketAddr, g: Group)
    requires Sound(lists, first, false) && g != [] && |g| == g[0].message.total
    requires forall k :: 0 <= k < |g| ==> SentTo(first, a, g[k]) && g[k].sequence == g[0].sequence
    ensures FiredWell(lists, first, g) <==> Distinct(ByIndex, g)
  {
    var w :| w in first && Carries(w, a, g[0]);
    var payload := OnePayload(lists, first, w);
    forall k | 0 <= k < |g| ensures ArrivalOf(Chunks(payload), g[0].message.connectionId, g[0].sequence, g[k]) {
      var v :| v in first && Carries(v, a, g[k]);
      assert FragmentUnder(v, w.address, w.sequence);
    }
    if Distinct(ByIndex, g) {
      IntendedRoundTrip(payload, g[0].message.connectionId, g[0].sequence, g);
      DeliveredAsWritten(payload, g[0].message.connectionId, g[0].sequence, g);
    }
  }

  lemma ArrivedIsSent(first: seq<Wire>, a: SocketAddr, events: seq<Event>, ws: seq<Wire>, p: FragmentPacket)
    requires FromWires(first, a, events, ws) && Arrive(p) in events
    ensures SentTo(first, a, p)
  {
    var i :| 0 <= i < |events| && events[i] == Arrive(p);
    assert Carries(ws[i], a, p);
  }

  // What one receiver gives out of one sender's fragments, duplicates or not.
  ghost predicate GivesOutExactly(lists: Lists, first: seq<Wire>, a: SocketAddr, events: seq<Event>) {
    && (forall i: nat, g :: i < |events| && FiresAt(events, i, g) ==> WorthExactly(lists, first, events, i, g))
    && (forall q: Sequence :: TimesExactly(events, q, TotalOf(first, a)(q)))
  }

  // A group is complete, and worth its payload, exactly when no arrival into its entry repeated an
  // index the entry held.
  ghost predicate WorthExactly(lists: Lists, first: seq<Wire>, events: seq<Event>, i: nat, g: Group)
    requires i < |events| && FiresAt(events, i, g)
  {
    var q := events[i].p.sequence;
    && g != [] && |g| == events[i].p.message.total
    && (Complete(g, |g|) <==> CleanEntry(events, q, i) && !RepeatAt(events, q, i))
    && (FiredWell(lists, first, g) <==> CleanEntry(events, q, i) && !RepeatAt(events, q, i))
    && DeliveredPayload(g) == Flatten(Payloads(g[..|g| - 1]))
  }

  // It is given out as often as its total fits into what arrived and was not lost.
  ghost predicate TimesExactly(events: seq<Event>, q: Sequence, total: nat) {
    var times := Times(Run(events).fired, q);
    && total * times <= Count(events, q) - Lost(events, q) < total * (times + 1)
    && (times <= 1 <==> Count(events, q) - Lost(events, q) < 2 * total)
  }

  lemma FiringIsWorth(lists: Lists, first: seq<Wire>, a: SocketAddr, events: seq<Event>, ws: seq<Wire>, i: nat, g: Group)
    requires Sound(lists, first, false) && FromWires(first, a, events, ws) && i < |events| && FiresAt(events, i, g)
    ensures WorthExactly(lists, first, events, i, g)
  {
    var total, p, q := TotalOf(first, a), events[i].p, events[i].p.sequence;
    ArrivalsGenuine(lists, first, a, events, ws);
    CompleteExactlyWhenClean(events, total, i, g);
    StoredArrived(events[..i], q);
    forall k | 0 <= k < |g| ensures SentTo(first, a, g[k]) && g[k].sequence == q && g[k].message.index < |g| {
      assert Arrive(g[k]) in events by {
        if k < |g| - 1 { assert Arrive(g[k]) in events[..i]; } else { assert events[i] in events; }
      }
      ArrivedIsSent(first, a, events, ws, g[k]);
      var j :| 0 <= j < |events| && events[j] == Arrive(g[k]);
    }
    SameTotal(lists, first, a, g[0], g[|g| - 1]);
    FiredWellExactly(lists, first, a, g);
    CompleteIsDistinct(g);
    EqualKeysKeepOrder(BySequence, g);
  }

  lemma ArrivalsGiveOut(lists: Lists, first: seq<Wire>, a: SocketAddr, events: seq<Event>, ws: seq<Wire>)
    requires Sound(lists, first, false) && FromWires(first, a, events, ws)
    ensures GivesOutExactly(lists, first, a, events)
  {
    forall i: nat, g | i < |events| && FiresAt(events, i, g) ensures WorthExactly(lists, first, events, i, g) {
      FiringIsWorth(lists, first, a, events, ws, i, g);
    }
    forall q: Sequence ensures TimesExactly(events, q, TotalOf(first, a)(q)) {
      ArrivalsGenuine(lists, first, a, events, ws);
      TotalIsTwoAtLeast(lists, first, a, q);
      GivenOutTimes(events, TotalOf(first, a), q);
    }
  }

  // Without duplicates: every group given out is complete and worth its payload, none is given out
  // twice, and one is given out exactly when all of it has arrived and none of it was evicted.
  ghost predicate ReassemblesWell(lists: Lists, first: seq<Wire>, a: SocketAddr, events: seq<Event>) {
    var h, total := Run(events), TotalOf(first, a);
    && (forall k :: 0 <= k < |h.fired| ==>
          FiredWell(lists, first, h.fired[k]) && AllArrived(events, h.fired[k][0].sequence, total(h.fired[k][0].sequence)))
    && (forall k, l :: 0 <= k < l < |h.fired| ==> h.fired[k] != [] && h.fired[l] != [] && h.fired[k][0].sequence != h.fired[l][0].sequence)
    && (forall q: Sequence :: HasFired(h, q) <==> AllArrived(events, q, total(q)) && Evict(q) !in events)
  }

  lemma FiredIsPayload(lists: Lists, first: seq<Wire>, a: SocketAddr, events: seq<Event>, ws: seq<Wire>, k: nat)
    requires Sound(lists, first, false) && FromWires(first, a, events, ws) && OwnWires(events, ws) && k < |Run(events).fired|
    ensures FiredWell(lists, first, Run(events).fired[k])
  {
    ArrivalsGenuine(lists, first, a, events, ws);
    RunKeepsHistory(events, TotalOf(first, a));
    var g := Run(events).fired[k];
    forall l | 0 <= l < |g| ensures SentTo(first, a, g[l]) { ArrivedIsSent(first, a, events, ws, g[l]); }
    var w :| w in first && Carries(w, a, g[0]);
    TotalIs(lists, first, w);
    FiredWellExactly(lists, first, a, g);
  }

  lemma ArrivalsReassemble(lists: Lists, first: seq<Wire>, a: SocketAddr, events: seq<Event>, ws: seq<Wire>)
    requires Sound(lists, first, false) && FromWires(first, a, events, ws) && OwnWires(events, ws) && EvictsStored(events)
    ensures ReassemblesWell(lists, first, a, events)
  {
    var total := TotalOf(first, a);
    ArrivalsGenuine(lists, first, a, events, ws);
    FiresOnceAndComplete(events, total);
    forall k | 0 <= k < |Run(events).fired| ensures FiredWell(lists, first, Run(events).fired[k]) {
      FiredIsPayload(lists, first, a, events, ws, k);
    }
    forall q: Sequence ensures HasFired(Run(events), q) <==> AllArrived(events, q, total(q)) && Evict(q) !in events {
      TotalIsTwoAtLeast(lists, first, a, q);
      FiresExactly(events, total, q);
    }
  }

  // ---------------------------------------------------------------- a reassembler over a run's steps

  // What happens to it at each step: one thing at most.
  type StepEvents = seq<seq<Event>>

  function Concat<T>(xss: seq<seq<T>>): seq<T> {
    if xss == [] then [] else Concat(xss[..|xss| - 1]) + xss[|xss| - 1]
  }

  function After(r: Reassembler, es: seq<Event>): Reassembler {
    if es == [] then r else Happen(History(r, []), es[0]).r
  }

  ghost predicate Explains(rs: seq<Reassembler>, es: StepEvents, i: nat)
    requires |rs| == |es| + 1 && i < |es|
  {
    && |es[i]| <= 1 && rs[i + 1] == After(rs[i], es[i])
    && (es[i] != [] && es[i][0].Evict? ==> es[i][0].q in rs[i])
  }

  ghost predicate AllExplained(rs: seq<Reassembler>, es: StepEvents) {
    && |rs| == |es| + 1 && rs[0] == map[]
    && forall i: nat :: i < |es| ==> Explains(rs, es, i)
  }

  lemma ExplainedFront(rs: seq<Reassembler>, es: StepEvents)
    requires AllExplained(rs, es) && es != []
    ensures AllExplained(rs[..|rs| - 1], es[..|es| - 1])
  {
    var rs', es' := rs[..|rs| - 1], es[..|es| - 1];
    forall i: nat | i < |es'| ensures Explains(rs', es', i) {
      assert Explains(rs, es, i);
    }
  }

  lemma RunOneMore(events: seq<Event>, es: seq<Event>)
    requires |es| <= 1
    ensures Run(events + es).r == After(Run(events).r, es)
    ensures Run(events + es) == if es == [] then Run(events) else Happen(Run(events), es[0])
  {
    if es == [] {
      assert events + es == events;
    } else {
      assert (events + es)[..|events|] == events;
    }
  }

  // The reassembler is the outcome of all events.
  lemma {:induction false} HistoryOfSteps(rs: seq<Reassembler>, es: StepEvents)
    requires AllExplained(rs, es)
    ensures rs[|es|] == Run(Concat(es)).r && EvictsStored(Concat(es))
    decreases |es|
  {
    if es != [] {
      var n := |es| - 1;
      ExplainedFront(rs, es);
      HistoryOfSteps(rs[..n + 1], es[..n]);
      assert Explains(rs, es, n);
      RunOneMore(Concat(es[..n]), es[n]);
      EvictsOneMore(Concat(es[..n]), es[n]);
    }
  }

  lemma EvictsOneMore(events: seq<Event>, es: seq<Event>)
    requires EvictsStored(events) && |es| <= 1
    requires es != [] && es[0].Evict? ==> es[0].q in Run(events).r
    ensures EvictsStored(events + es)
  {
    var all := events + es;
    forall i: nat | i < |all| && all[i].Evict? ensures all[i].q in Run(all[..i]).r {
      assert all[..i] == if i < |events| then events[..i] else events;
    }
  }

  predicate Arrives(es: StepEvents, i: int) {
    0 <= i < |es| && es[i] != [] && es[i][0].Arrive?
  }

  // Where the arrivals come from.
  ghost predicate Sourced(first: seq<Wire>, a: SocketAddr, es: StepEvents, wires: seq<Wire>) {
    && |wires| == |es|
    && (forall i :: 0 <= i < |es| ==> |es[i]| <= 1)
    && (forall i :: Arrives(es, i) ==> wires[i] in first && Carries(wires[i], a, es[i][0].p))
  }

  // No transmission arrives twice.
  ghost predicate Once(es: StepEvents, wires: seq<Wire>) {
    && |wires| == |es|
    && (forall i, j :: Arrives(es, i) && Arrives(es, j) && i != j ==> wires[i] != wires[j])
  }

  ghost predicate Source(es: StepEvents, wires: seq<Wire>, w: Wire)
    requires |wires| == |es|
  {
    exists i :: Arrives(es, i) && wires[i] == w
  }

  lemma {:induction false} SourcedArrivals(first: seq<Wire>, a: SocketAddr, es: StepEvents, wires: seq<Wire>) returns (ws: seq<Wire>)
    requires Sourced(first, a, es, wires)
    ensures FromWires(first, a, Concat(es), ws)
    ensures forall k :: 0 <= k < |ws| && Concat(es)[k].Arrive? ==> Source(es, wires, ws[k])
    ensures Once(es, wires) ==> OwnWires(Concat(es), ws)
    decreases |es|
  {
    ws := [];
    if es != [] {
      var n := |es| - 1;
      forall i ensures Arrives(es[..n], i) ==> Arrives(es, i) {}
      ws := SourcedArrivals(first, a, es[..n], wires[..n]);
      SourcesStay(es, wires, n);
      if es[n] == [] {
        assert Concat(es[..n]) + es[n] == Concat(es[..n]);
      } else {
        assert es[n] == [es[n][0]];
        forall k | 0 <= k < |ws| && Concat(es[..n])[k].Arrive? && Arrives(es, n) && Once(es, wires) ensures ws[k] != wires[n] {
          var i :| Arrives(es[..n], i) && wires[..n][i] == ws[k];
          assert Arrives(es, i);
        }
        assert es[n][0].Arrive? ==> Arrives(es, n);
        OneMoreWire(first, a, Concat(es[..n]), ws, es[n][0], wires[n]);
        ws := ws + [wires[n]];
      }
    }
  }

  lemma SourcesStay(es: StepEvents, wires: seq<Wire>, n: nat)
    requires |wires| == |es| && n < |es|
    ensures forall w :: Source(es[..n], wires[..n], w) ==> Source(es, wires, w)
  {
  }

  // ---------------------------------------------------------------- what the receiver hands out

  // The event for a group that is given out, and those for all of them.
  function Handed(id: ConnectionId, g: Option<Group>): seq<ProtocolEvent> {
    if g.Some? && g.value != [] then [Delivered(id, DeliveredPayload(g.value))] else []
  }

  function HandedOut(id: ConnectionId, fired: seq<Group>): seq<ProtocolEvent> {
    if fired == [] then [] else HandedOut(id, fired[..|fired| - 1]) + Handed(id, Some(fired[|fired| - 1]))
  }

  // What a step hands out for a fragment that arrives.
  ghost predicate Tells(rs: seq<Reassembler>, es: StepEvents, outs: seq<seq<ProtocolEvent>>, id: ConnectionId, i: nat)
    requires |rs| == |es| + 1 && |outs| == |es| && i < |es|
  {
    outs[i] == if Arrives(es, i) then Handed(id, Absorb(rs[i], es[i][0].p).1) else []
  }

  // All of it together is exactly the groups given out, in order.
  lemma {:induction false} HandsOutFired(rs: seq<Reassembler>, es: StepEvents, outs: seq<seq<ProtocolEvent>>, id: ConnectionId)
    requires AllExplained(rs, es) && |outs| == |es|
    requires forall i: nat :: i < |es| ==> Tells(rs, es, outs, id, i)
    ensures Concat(outs) == HandedOut(id, Run(Concat(es)).fired)
    decreases |es|
  {
    if es != [] {
      var n := |es| - 1;
      var rs', es', outs' := rs[..n + 1], es[..n], outs[..n];
      ExplainedFront(rs, es);
      forall i: nat | i < n ensures Tells(rs', es', outs', id, i) {
        assert Tells(rs, es, outs, id, i);
      }
      HandsOutFired(rs', es', outs', id);
      HistoryOfSteps(rs', es');
      assert Explains(rs, es, n) && Tells(rs, es, outs, id, n);
      RunOneMore(Concat(es'), es[n]);
      HandsOneMore(Run(Concat(es')), es[n], id);
    }
  }

  lemma HandsOneMore(h: History, es: seq<Event>, id: ConnectionId)
    requires |es| <= 1
    ensures var h' := if es == [] then h else Happen(h, es[0]);
      HandedOut(id, h'.fired) == HandedOut(id, h.fired)
        + if es != [] && es[0].Arrive? then Handed(id, Absorb(h.r, es[0].p).1) else []
  {
    if es != [] && es[0].Arrive? && Absorb(h.r, es[0].p).1.Some? {
      var g := Absorb(h.r, es[0].p).1.value;
      assert (h.fired + [g])[..|h.fired|] == h.fired;
    }
  }
}
