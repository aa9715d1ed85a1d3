// Sent packets that are kept for another try: reliability.rs, and the services' own handlers in
// server/service.rs and client/service.rs, whose `poll` and retry are the same code.
module Reliability {
  import opened Packets

  const RETRY_THRESHOLD: nat := 1000 * 1_000_000_000  // 1000 seconds, in nanoseconds

  type SentPacket = Packet<Sent>

  datatype KeptId = KeptData | KeptFragments | KeptHeartbeats | KeptHandshakes

  datatype Kept = Kept(data: seq<SentPacket>, fragments: seq<SentPacket>, heartbeats: seq<SentPacket>, handshakes: seq<SentPacket>) {
    function At(k: KeptId): seq<SentPacket> {
      match k
      case KeptData => data
      case KeptFragments => fragments
      case KeptHeartbeats => heartbeats
      case KeptHandshakes => handshakes
    }

    function Set(k: KeptId, ps: seq<SentPacket>): (r: Kept)
      ensures forall j :: r.At(j) == if j == k then ps else At(j)
    {
      match k
      case KeptData => this.(data := ps)
      case KeptFragments => this.(fragments := ps)
      case KeptHeartbeats => this.(heartbeats := ps)
      case KeptHandshakes => this.(handshakes := ps)
    }

    function Append(k: KeptId, ps: seq<SentPacket>): Kept {
      Set(k, At(k) + ps)
    }

    ghost function Held(): multiset<SentPacket> {
      multiset(data) + multiset(fragments) + multiset(heartbeats) + multiset(handshakes)
    }
  }

  const NOTHING_KEPT := Kept([], [], [], [])

  function KeptFor(m: Message): KeptId {
    match m
    case DataTransfer(_, _) => KeptData
    case Fragment(_, _, _, _) => KeptFragments
    case Heartbeat(_) => KeptHeartbeats
    case _ => KeptHandshakes
  }

  function Tail<T>(s: seq<T>): seq<T> {
    if s == [] then [] else s[1..]
  }

  // What expiry does as written: the oldest data transfer goes, or else the oldest fragment, and
  // the oldest handshake packet; the time plays no part and heartbeats stay for ever.
  function Expired(k: Kept): Kept {
    var k' := if k.data != [] then k.(data := Tail(k.data)) else k.(fragments := Tail(k.fragments));
    k'.(handshakes := Tail(k.handshakes))
  }

  function Resent(p: SentPacket, now: nat): Packet<ToSend> {
    Packet(ToSend(p.delivery.id, now, p.delivery.address), p.sequence, p.ack, p.message)
  }

  // A retry takes the newest kept packet out in any case, and sends it only late enough.
  function Retried(k: Kept, id: KeptId, now: nat): (Kept, Option<Packet<ToSend>>) {
    var ps := k.At(id);
    if ps == [] then (k, None)
    else
      var p := ps[|ps| - 1];
      (k.Set(id, ps[..|ps| - 1]), if p.delivery.time + now > RETRY_THRESHOLD then Some(Resent(p, now)) else None)
  }

  // `first().map(|p| (p.time + p.ttl > now).then(|| ()))`
  function FirstExpiry(ps: seq<SentPacket>, now: nat): Option<Option<()>> {
    if ps == [] then None
    else Some(if ps[0].delivery.time + ps[0].delivery.ttl > now then Some(()) else None)
  }

  class ReliabilityHandler {
    var listSentReliableDataTransfer: seq<SentPacket>
    var listSentReliableFragment: seq<SentPacket>
    var listSentReliableHeartbeat: seq<SentPacket>
    var service: seq<SentPacket>

    function View(): Kept
      reads this
    {
      Kept(listSentReliableDataTransfer, listSentReliableFragment, listSentReliableHeartbeat, service)
    }

    constructor ()
      ensures View() == NOTHING_KEPT
    {
      listSentReliableDataTransfer, listSentReliableFragment := [], [];
      listSentReliableHeartbeat, service := [], [];
    }

    method Push(p: SentPacket)
      modifies this
      ensures View() == old(View()).Append(KeptFor(p.message), [p])
    {
      match p.message {
        case DataTransfer(_, _) => listSentReliableDataTransfer := listSentReliableDataTransfer + [p];
        case Fragment(_, _, _, _) => listSentReliableFragment := listSentReliableFragment + [p];
        case Heartbeat(_) => listSentReliableHeartbeat := listSentReliableHeartbeat + [p];
        case _ => service := service + [p];
      }
    }

    method Poll(now: nat)
      modifies this
      ensures View() == Expired(old(View()))
    {
      if FirstExpiry(listSentReliableDataTransfer, now).Some? {
        listSentReliableDataTransfer := listSentReliableDataTransfer[1..];
      } else if FirstExpiry(listSentReliableFragment, now).Some? {
        listSentReliableFragment := listSentReliableFragment[1..];
      }
      if FirstExpiry(service, now).Some? {
        service := service[1..];
      }
    }

    // retry_reliable_data_transfer, _fragment, _heartbeat, _connection_accepted and
    // resend_reliable_connection_request.
    method Retry(id: KeptId, now: nat) returns (r: Option<Packet<ToSend>>)
      modifies this
      ensures (View(), r) == Retried(old(View()), id, now)
    {
      var ps := View().At(id);
      if |ps| == 0 { return None; }
      var packet := ps[|ps| - 1];
      match id {
        case KeptData => listSentReliableDataTransfer := ps[..|ps| - 1];
        case KeptFragments => listSentReliableFragment := ps[..|ps| - 1];
        case KeptHeartbeats => listSentReliableHeartbeat := ps[..|ps| - 1];
        case KeptHandshakes => service := ps[..|ps| - 1];
      }
      if packet.delivery.time + now > RETRY_THRESHOLD {
        var delivery := ToSend(packet.delivery.id, now, packet.delivery.address);
        return Some(Packet(delivery, packet.sequence, packet.ack, packet.message));
      }
      return None;
    }
  }

  // ---------------------------------------------------------------- accounting

  function ExpiredPackets(k: Kept): seq<SentPacket> {
    (if k.data != [] then [k.data[0]] else if k.fragments != [] then [k.fragments[0]] else [])
    + (if k.handshakes != [] then [k.handshakes[0]] else [])
  }

  lemma TailAccount(s: seq<SentPacket>)
    ensures multiset(s) == multiset(Tail(s)) + if s == [] then multiset{} else multiset{s[0]}
  {
    if s != [] { assert s == [s[0]] + s[1..]; }
  }

  lemma ExpiryAccount(k: Kept)
    ensures k.Held() == Expired(k).Held() + multiset(ExpiredPackets(k))
  {
    TailAccount(k.data);
    TailAccount(k.fragments);
    TailAccount(k.handshakes);
  }

  lemma RetryAccount(k: Kept, id: KeptId, now: nat)
    ensures var ps := k.At(id);
      k.Held() == Retried(k, id, now).0.Held() + if ps == [] then multiset{} else multiset{ps[|ps| - 1]}
  {
    var ps := k.At(id);
    if ps != [] { assert ps == ps[..|ps| - 1] + [ps[|ps| - 1]]; }
  }

  // A packet that is sent again is the newest one kept, unchanged but for its time; a newest
  // packet that is too young is dropped without being sent.
  lemma RetryKeepsPacket(k: Kept, id: KeptId, now: nat)
    requires k.At(id) != []
    ensures var (k', r) := Retried(k, id, now); var p := k.At(id)[|k.At(id)| - 1];
      && k'.At(id) + [p] == k.At(id)
      && (forall j :: j != id ==> k'.At(j) == k.At(j))
      && (r.Some? <==> p.delivery.time + now > 1_000_000_000_000)
      && (r.Some? ==>
            && r.value.delivery == ToSend(p.delivery.id, now, p.delivery.address)
            && MarkSent(r.value, p.delivery.time, p.delivery.ttl) == p)
  {
  }

  function ExpireTimes(k: Kept, n: nat): Kept {
    if n == 0 then k else Expired(ExpireTimes(k, n - 1))
  }

  // Polls alone empty the data transfers first, then the fragments, one packet a poll, oldest
  // first; handshakes go one a poll beside them.
  lemma {:induction false} PollsDrain(k: Kept, n: nat)
    ensures var k' := ExpireTimes(k, n);
      && k'.data == k.data[if n < |k.data| then n else |k.data|..]
      && k'.fragments == k.fragments[if n < |k.data| then 0 else if n < |k.data| + |k.fragments| then n - |k.data| else |k.fragments|..]
      && k'.handshakes == k.handshakes[if n < |k.handshakes| then n else |k.handshakes|..]
      && k'.heartbeats == k.heartbeats
      && |k'.data| + |k'.fragments| == if n < |k.data| + |k.fragments| then |k.data| + |k.fragments| - n else 0
  {
    if n > 0 {
      PollsDrain(k, n - 1);
    }
  }
}
