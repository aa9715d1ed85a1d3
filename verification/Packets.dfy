// Packets, their parts and the protocol's errors: packets.rs, packets/message.rs,
// packets/delivery.rs, packets/packet_type.rs, packets/scheduled.rs and errors.rs.
module Packets {

  datatype Option<+T> = None | Some(value: T)

  // What a call can end in: a value, one of the protocol's errors, or a panic
  // (an out-of-range slice, a failed `unwrap` or `expect`).
  datatype Outcome<+T> = Ok(value: T) | Err(error: ProtocolError) | Panic

  type Byte = x: int | 0 <= x < 0x100
  type Bytes = seq<Byte>

  // NonZeroU16. The 16-bit bound is part of the model.
  type ConnectionId = x: int | 0 < x < 0x1_0000 witness 1

  // NonZeroU32. Only the lower bound is in the type: `checked_add` panics past the
  // upper one, and operations that add carry the upper bound as a precondition.
  type Sequence = x: int | 0 < x witness 1

  const U32_BOUND: int := 0x1_0000_0000
  const MAX_CONNECTION_ID: ConnectionId := 0xFFFF

  datatype SocketAddr = SocketAddr(ip: nat, port: nat)

  // A bare byte, as in the source: only `NewPacketType` checks the range.
  datatype PacketType = PacketType(code: Byte)

  const CONNECTION_REQUEST := PacketType(1)
  const CONNECTION_ACCEPTED := PacketType(2)
  const DATA_TRANSFER := PacketType(3)
  const FRAGMENT := PacketType(4)
  const HEARTBEAT := PacketType(5)
  const PACKET_TYPE_SENTINEL_START: Byte := 0
  const PACKET_TYPE_SENTINEL_END: Byte := 6

  function NewPacketType(n: Byte): Option<PacketType> {
    if PACKET_TYPE_SENTINEL_START < n < PACKET_TYPE_SENTINEL_END then Some(PacketType(n)) else None
  }

  datatype Message =
    | ConnectionRequest
    | ConnectionAccepted(connectionId: ConnectionId)
    | DataTransfer(connectionId: ConnectionId, payload: Bytes)
    | Fragment(connectionId: ConnectionId, index: Byte, total: Byte, payload: Bytes)
    | Heartbeat(connectionId: ConnectionId)
  {
    function Type(): PacketType {
      match this
      case ConnectionRequest => CONNECTION_REQUEST
      case ConnectionAccepted(_) => CONNECTION_ACCEPTED
      case DataTransfer(_, _) => DATA_TRANSFER
      case Fragment(_, _, _, _) => FRAGMENT
      case Heartbeat(_) => HEARTBEAT
    }

    // Messages that travel between connected peers.
    predicate ForConnected() {
      DataTransfer? || Fragment? || Heartbeat?
    }

    // Does sending this message advance the peer's sequence tracker? Fragments share
    // one sequence, so only the last of a group does; `total - 1` is u8 arithmetic.
    predicate Advances() {
      Fragment? ==> index == (total + 0xFF) % 0x100
    }
  }

  // Delivery states of a packet.
  datatype ToSend = ToSend(id: nat, time: nat, address: SocketAddr)
  datatype Sent = Sent(id: nat, ttl: nat, time: nat, address: SocketAddr)
  datatype Received = Received(time: nat, address: SocketAddr)

  datatype Packet<D> = Packet(delivery: D, sequence: Sequence, ack: nat, message: Message)

  function MarkSent(p: Packet<ToSend>, time: nat, ttl: nat): Packet<Sent> {
    Packet(Sent(p.delivery.id, ttl, time, p.delivery.address), p.sequence, p.ack, p.message)
  }

  // A packet waiting to be created; its list says whether it is reliable.
  datatype Scheduled = Scheduled(packetId: nat, address: SocketAddr, time: nat, message: Message) {
    function IntoPacket(sequence: Sequence, ack: nat, now: nat): Packet<ToSend> {
      Packet(ToSend(packetId, now, address), sequence, ack, message)
    }
  }

  datatype ProtocolError =
    | InvalidProtocolId(got: int)
    | InvalidCrc32(got: int, expected: int)
    | IntConversion
    | PacketTypeConversion(code: Byte)
    | InvalidPacketType(packetType: PacketType)
    | ScheduledNotConnected(connectionId: ConnectionId)
    | NotFound(connectionId: ConnectionId)
    | NoPeersConnected
    | Banned(address: SocketAddr)
    | AlreadyConnectingToPeer(address: SocketAddr)
    | PeerInAnotherState(address: SocketAddr)

  // The service events are never pushed by the modelled code.
  datatype ProtocolEvent =
    | Fail(error: ProtocolError)
    | Delivered(connectionId: ConnectionId, payload: Bytes)
}
