// The lists of packets waiting to be sent: scheduler.rs.
module Scheduler {
  import opened Packets
  import opened Fragments

  datatype ReliabilityType = Reliable | Unreliable

  // Six lists, and the one of the service: connection accepted packets on a server, connection
  // requests on a client.
  datatype ListId =
    | ReliableData | UnreliableData | ReliableFragments | UnreliableFragments
    | ReliableHeartbeats | UnreliableHeartbeats | Handshakes
  {
    predicate IsReliable() {
      !(UnreliableData? || UnreliableFragments? || UnreliableHeartbeats?)
    }

    // The one kind of message the list's type lets in.
    predicate Holds(m: Message) {
      match this
      case ReliableData => m.DataTransfer?
      case UnreliableData => m.DataTransfer?
      case ReliableFragments => m.Fragment?
      case UnreliableFragments => m.Fragment?
      case ReliableHeartbeats => m.Heartbeat?
      case UnreliableHeartbeats => m.Heartbeat?
      case Handshakes => m.ConnectionRequest? || m.ConnectionAccepted?
    }
  }

  datatype Lists = Lists(
    reliableData: seq<Scheduled>, unreliableData: seq<Scheduled>,
    reliableFragments: seq<Scheduled>, unreliableFragments: seq<Scheduled>,
    reliableHeartbeats: seq<Scheduled>, unreliableHeartbeats: seq<Scheduled>,
    handshakes: seq<Scheduled>)
  {
    function At(l: ListId): seq<Scheduled> {
      match l
      case ReliableData => reliableData
      case UnreliableData => unreliableData
      case ReliableFragments => reliableFragments
      case UnreliableFragments => unreliableFragments
      case ReliableHeartbeats => reliableHeartbeats
      case UnreliableHeartbeats => unreliableHeartbeats
      case Handshakes => handshakes
    }

    function Set(l: ListId, xs: seq<Scheduled>): (r: Lists)
      ensures forall k :: r.At(k) == if k == l then xs else At(k)
    {
      match l
      case ReliableData => this.(reliableData := xs)
      case UnreliableData => this.(unreliableData := xs)
      case ReliableFragments => this.(reliableFragments := xs)
      case UnreliableFragments => this.(unreliableFragments := xs)
      case ReliableHeartbeats => this.(reliableHeartbeats := xs)
      case UnreliableHeartbeats => this.(unreliableHeartbeats := xs)
      case Handshakes => this.(handshakes := xs)
    }

    function Append(l: ListId, xs: seq<Scheduled>): Lists {
      Set(l, At(l) + xs)
    }
  }

  const NO_LISTS := Lists([], [], [], [], [], [], [])

  // Which list a payload cut into `total` chunks goes to, and as what.
  function PayloadList(reliability: ReliabilityType, total: nat): ListId {
    if total > 1 then (if reliability.Reliable? then ReliableFragments else UnreliableFragments)
    else (if reliability.Reliable? then ReliableData else UnreliableData)
  }

  function HeartbeatList(reliability: ReliabilityType): ListId {
    if reliability.Reliable? then ReliableHeartbeats else UnreliableHeartbeats
  }

  function PayloadMessage(id: ConnectionId, chunk: Bytes, index: nat, total: nat): Message {
    if total > 1 then NewFragment(id, chunk, index, total) else DataTransfer(id, chunk)
  }

  class SchedulerLists {
    var listScheduledReliableDataTransfer: seq<Scheduled>
    var listScheduledUnreliableDataTransfer: seq<Scheduled>
    var listScheduledReliableFragment: seq<Scheduled>
    var listScheduledUnreliableFragment: seq<Scheduled>
    var listScheduledReliableHeartbeat: seq<Scheduled>
    var listScheduledUnreliableHeartbeat: seq<Scheduled>
    var service: seq<Scheduled>

    function View(): Lists
      reads this
    {
      Lists(listScheduledReliableDataTransfer, listScheduledUnreliableDataTransfer,
            listScheduledReliableFragment, listScheduledUnreliableFragment,
            listScheduledReliableHeartbeat, listScheduledUnreliableHeartbeat, service)
    }

    constructor ()
      ensures View() == NO_LISTS
    {
      listScheduledReliableDataTransfer, listScheduledUnreliableDataTransfer := [], [];
      listScheduledReliableFragment, listScheduledUnreliableFragment := [], [];
      listScheduledReliableHeartbeat, listScheduledUnreliableHeartbeat := [], [];
      service := [];
    }

    method ScheduleForConnectedPeer(address: SocketAddr, payload: Bytes, reliability: ReliabilityType,
        connectionId: ConnectionId, packetId: nat, time: nat, fragmentIndex: nat, fragmentTotal: nat)
      modifies this
      ensures View() == old(View()).Append(PayloadList(reliability, fragmentTotal),
        [Scheduled(packetId, address, time, PayloadMessage(connectionId, payload, fragmentIndex, fragmentTotal))])
    {
      if fragmentTotal > 1 {
        var scheduled := Scheduled(packetId, address, time, NewFragment(connectionId, payload, fragmentIndex, fragmentTotal));
        match reliability {
          case Reliable => listScheduledReliableFragment := listScheduledReliableFragment + [scheduled];
          case Unreliable => listScheduledUnreliableFragment := listScheduledUnreliableFragment + [scheduled];
        }
      } else {
        var scheduled := Scheduled(packetId, address, time, DataTransfer(connectionId, payload));
        match reliability {
          case Reliable => listScheduledReliableDataTransfer := listScheduledReliableDataTransfer + [scheduled];
          case Unreliable => listScheduledUnreliableDataTransfer := listScheduledUnreliableDataTransfer + [scheduled];
        }
      }
    }

    method HeartbeatForConnectedPeer(address: SocketAddr, reliability: ReliabilityType,
        connectionId: ConnectionId, packetId: nat, time: nat)
      modifies this
      ensures View() == old(View()).Append(HeartbeatList(reliability),
        [Scheduled(packetId, address, time, Heartbeat(connectionId))])
    {
      var scheduled := Scheduled(packetId, address, time, Heartbeat(connectionId));
      match reliability {
        case Reliable => listScheduledReliableHeartbeat := listScheduledReliableHeartbeat + [scheduled];
        case Unreliable => listScheduledUnreliableHeartbeat := listScheduledUnreliableHeartbeat + [scheduled];
      }
    }

    method PushHandshake(scheduled: Scheduled)
      modifies this
      ensures View() == old(View()).Append(Handshakes, [scheduled])
    {
      service := service + [scheduled];
    }

    // The `drain_*(..)` functions: a whole list at once, in order.
    method Drain(l: ListId) returns (xs: seq<Scheduled>)
      modifies this
      ensures xs == old(View()).At(l) && View() == old(View()).Set(l, [])
    {
      xs := View().At(l);
      match l {
        case ReliableData => listScheduledReliableDataTransfer := [];
        case UnreliableData => listScheduledUnreliableDataTransfer := [];
        case ReliableFragments => listScheduledReliableFragment := [];
        case UnreliableFragments => listScheduledUnreliableFragment := [];
        case ReliableHeartbeats => listScheduledReliableHeartbeat := [];
        case UnreliableHeartbeats => listScheduledUnreliableHeartbeat := [];
        case Handshakes => service := [];
      }
    }
  }
}
