// The wire format: Packet::as_raw and the `encoded` functions (packets.rs, encode.rs), the
// cursor-driven decoder (raw.rs, lib.rs `read_buffer_inc!`) and the role filters (decode.rs).
//
// The checksum is a parameter: every result holds for any function from bytes to 32-bit values.
module Codec {
  import opened Packets

  type U32 = x: int | 0 <= x < U32_BOUND
  type Checksum = Bytes -> U32

  const PROTOCOL_ID: U32 := 0xbabedad
  const CHECKSUM_SIZE := 4
  const MAX_FRAGMENT_SIZE := 1500
  const FRAGMENT_HEADER_SIZE := 4 + 4 + 4 + 1 + 1 + 1 + 2

  datatype RawPacket = RawPacket(address: SocketAddr, bytes: Bytes)

  // ---------------------------------------------------------------- big-endian integers

  function Be16(n: int): Bytes
    requires 0 <= n < 0x1_0000
  {
    [n / 0x100, n % 0x100]
  }

  function Be32(n: int): Bytes
    requires 0 <= n < U32_BOUND
  {
    [n / 0x100_0000, n / 0x1_0000 % 0x100, n / 0x100 % 0x100, n % 0x100]
  }

  function FromBe16(b: Bytes): (n: int)
    requires |b| == 2
    ensures 0 <= n < 0x1_0000 && Be16(n) == b
  {
    b[0] as int * 0x100 + b[1] as int
  }

  function FromBe32(b: Bytes): (n: int)
    requires |b| == 4
    ensures 0 <= n < U32_BOUND && Be32(n) == b
  {
    ((b[0] as int * 0x100 + b[1] as int) * 0x100 + b[2] as int) * 0x100 + b[3] as int
  }

  lemma Be16Inverse(n: int)
    requires 0 <= n < 0x1_0000
    ensures FromBe16(Be16(n)) == n
  {
  }

  lemma DivideTwice(n: int)
    requires 0 <= n
    ensures n / 0x1_0000 == n / 0x100 / 0x100
    ensures n / 0x100_0000 == n / 0x1_0000 / 0x100
  {
  }

  lemma Be32Inverse(n: int)
    requires 0 <= n < U32_BOUND
    ensures FromBe32(Be32(n)) == n
  {
    var b, m, h := Be32(n), n / 0x100, n / 0x1_0000;
    DivideTwice(n);
    assert b[0] as int * 0x100 + b[1] as int == h;
    assert h * 0x100 + b[2] as int == m;
    assert m * 0x100 + b[3] as int == n;
  }

  lemma BigEndianInverse(n: int)
    ensures 0 <= n < 0x1_0000 ==> FromBe16(Be16(n)) == n
    ensures 0 <= n < U32_BOUND ==> FromBe32(Be32(n)) == n
  {
    if 0 <= n < 0x1_0000 { Be16Inverse(n); }
    if 0 <= n < U32_BOUND { Be32Inverse(n); }
  }

  // ---------------------------------------------------------------- encoding

  const PROTOCOL_ID_BYTES: Bytes := Be32(PROTOCOL_ID)

  function Encoded(m: Message): Bytes {
    match m
    case ConnectionRequest => [m.Type().code]
    case ConnectionAccepted(id) => [m.Type().code] + Be16(id)
    case DataTransfer(id, payload) => [m.Type().code] + Be16(id) + payload
    case Fragment(id, index, total, payload) => [m.Type().code] + [index] + [total] + Be16(id) + payload
    case Heartbeat(id) => [m.Type().code] + Be16(id)
  }

  // A packet whose counters fit the 32 bits the wire has for them.
  predicate Encodable<D>(p: Packet<D>) {
    p.sequence < U32_BOUND && p.ack < U32_BOUND
  }

  function Header<D>(p: Packet<D>): Bytes
    requires Encodable(p)
  {
    Be32(p.sequence) + Be32(p.ack) + Encoded(p.message)
  }

  // What a packet looks like on the wire: header and message, then the checksum of both
  // behind the protocol id, which itself is not sent.
  function WireBytes<D>(crc: Checksum, p: Packet<D>): Bytes
    requires Encodable(p)
  {
    Header(p) + Be32(crc(PROTOCOL_ID_BYTES + Header(p)))
  }

  // Packet::as_raw: hash with the protocol id in front, append the checksum, drop the id.
  method AsRaw(crc: Checksum, p: Packet<ToSend>) returns (raw: RawPacket)
    requires Encodable(p)
    ensures raw == RawPacket(p.delivery.address, WireBytes(crc, p))
  {
    var bytes := PROTOCOL_ID_BYTES + Be32(p.sequence) + Be32(p.ack) + Encoded(p.message);
    assert bytes == PROTOCOL_ID_BYTES + Header(p);
    var crc32 := crc(bytes);
    bytes := bytes + Be32(crc32);
    var packetBytes := bytes[|PROTOCOL_ID_BYTES|..];
    assert packetBytes == WireBytes(crc, p);
    raw := RawPacket(p.delivery.address, packetBytes);
  }

  // ---------------------------------------------------------------- decoding, by fixed offsets

  // The shortest datagram of each kind.
  function MinimumLength(code: Byte): nat {
    if code == CONNECTION_REQUEST.code then 13 else if code == FRAGMENT.code then 17 else 15
  }

  predicate ChecksumMatches(crc: Checksum, b: Bytes)
    requires |b| >= CHECKSUM_SIZE
  {
    crc(PROTOCOL_ID_BYTES + b[..|b| - 4]) == FromBe32(b[|b| - 4..])
  }

  function IdAt(b: Bytes): int
    requires |b| >= 13 && |b| >= MinimumLength(b[8]) && b[8] != CONNECTION_REQUEST.code
  {
    if b[8] == FRAGMENT.code then FromBe16(b[11..13]) else FromBe16(b[9..11])
  }

  // Where each field of a datagram lies.
  function MessageAt(b: Bytes): Message
    requires |b| >= 13 && NewPacketType(b[8]).Some? && |b| >= MinimumLength(b[8])
    requires b[8] != CONNECTION_REQUEST.code ==> IdAt(b) != 0
  {
    var end := |b| - 4;
    if b[8] == CONNECTION_REQUEST.code then ConnectionRequest
    else if b[8] == CONNECTION_ACCEPTED.code then ConnectionAccepted(IdAt(b))
    else if b[8] == DATA_TRANSFER.code then DataTransfer(IdAt(b), b[11..end])
    else if b[8] == FRAGMENT.code then Fragment(IdAt(b), b[9], b[10], b[13..end])
    else Heartbeat(IdAt(b))
  }

  function Decode(crc: Checksum, raw: RawPacket, time: nat): Outcome<Packet<Received>> {
    var b := raw.bytes;
    if |b| < CHECKSUM_SIZE then Panic
    else if !ChecksumMatches(crc, b) then
      var expected := crc(PROTOCOL_ID_BYTES + b[..|b| - 4]);
      if expected == 0 then Err(IntConversion) else Err(InvalidCrc32(FromBe32(b[|b| - 4..]), expected))
    else if |b| < 13 then Panic
    else if NewPacketType(b[8]).None? then Err(PacketTypeConversion(b[8]))
    else if FromBe32(b[..4]) == 0 then Err(IntConversion)
    else if |b| < MinimumLength(b[8]) then Panic
    else if b[8] != CONNECTION_REQUEST.code && IdAt(b) == 0 then Err(IntConversion)
    else Ok(Packet(Received(time, raw.address), FromBe32(b[..4]), FromBe32(b[4..8]), MessageAt(b)))
  }

  // ---------------------------------------------------------------- decoding, as the source does it

  datatype PartialDecode =
    PartialDecode(buffer: Bytes, position: nat, packetType: PacketType, sequence: Sequence, ack: nat)

  // The `read_buffer_inc!` macro: the next `size` bytes and the cursor past them; the
  // slice panics when the buffer ends before that.
  method ReadInc(buffer: Bytes, start: nat, size: nat) returns (read: Option<Bytes>, end: nat)
    ensures end == start + size
    ensures read == if end <= |buffer| then Some(buffer[start..end]) else None
  {
    end := start + size;
    if end <= |buffer| {
      read := Some(buffer[start..end]);
    } else {
      read := None;
    }
  }

  method CommonDecode(address: SocketAddr, partial: PartialDecode, time: nat)
      returns (r: Outcome<Packet<Received>>)
    requires partial.position == 13 <= |partial.buffer|
    ensures NewPacketType(partial.packetType.code).None? ==> r == Err(InvalidPacketType(partial.packetType))
    ensures NewPacketType(partial.packetType.code).Some? ==>
      r == DecodeMessage(address, partial, time)
  {
    var buffer, position := partial.buffer, partial.position;
    var delivery := Received(time, address);
    var message: Message;
    if partial.packetType == CONNECTION_REQUEST {
      message := ConnectionRequest;
    } else if partial.packetType == CONNECTION_ACCEPTED || partial.packetType == HEARTBEAT {
      var idBytes;
      idBytes, position := ReadInc(buffer, position, 2);
      if idBytes.None? { return Panic; }
      var id := FromBe16(idBytes.value);
      if id == 0 { return Err(IntConversion); }
      message := if partial.packetType == HEARTBEAT then Heartbeat(id) else ConnectionAccepted(id);
    } else if partial.packetType == DATA_TRANSFER {
      var idBytes;
      idBytes, position := ReadInc(buffer, position, 2);
      if idBytes.None? { return Panic; }
      var payload := buffer[position..];
      var id := FromBe16(idBytes.value);
      if id == 0 { return Err(IntConversion); }
      message := DataTransfer(id, payload);
    } else if partial.packetType == FRAGMENT {
      var index, total, idBytes;
      index, position := ReadInc(buffer, position, 1);
      if index.None? { return Panic; }
      total, position := ReadInc(buffer, position, 1);
      if total.None? { return Panic; }
      idBytes, position := ReadInc(buffer, position, 2);
      if idBytes.None? { return Panic; }
      var payload := buffer[position..];
      var id := FromBe16(idBytes.value);
      if id == 0 { return Err(IntConversion); }
      message := Fragment(id, index.value[0], total.value[0], payload);
    } else {
      return Err(InvalidPacketType(partial.packetType));
    }
    r := Ok(Packet(delivery, partial.sequence, partial.ack, message));
  }

  // The part of `Decode` that follows the common header, on the buffer that starts with
  // the protocol id and has lost its checksum.
  function DecodeMessage(address: SocketAddr, partial: PartialDecode, time: nat): Outcome<Packet<Received>>
    requires partial.position == 13 <= |partial.buffer| && NewPacketType(partial.packetType.code).Some?
  {
    var code, b := partial.packetType.code, partial.buffer;
    if |b| < MinimumLength(code) then Panic
    else
      var id := if code == 1 then 1 else if code == 4 then FromBe16(b[15..17]) else FromBe16(b[13..15]);
      if id == 0 then Err(IntConversion)
      else
        var m := if code == 1 then ConnectionRequest else if code == 2 then ConnectionAccepted(id)
                 else if code == 3 then DataTransfer(id, b[15..])
                 else if code == 4 then Fragment(id, b[13], b[14], b[17..]) else Heartbeat(id);
        Ok(Packet(Received(time, address), partial.sequence, partial.ack, m))
  }

  // RawPacket::inner_decode, with debug assertions off.
  method InnerDecode(crc: Checksum, raw: RawPacket, time: nat) returns (r: Outcome<Packet<Received>>)
    ensures r == Decode(crc, raw, time)
  {
    var bytes := raw.bytes;
    if |bytes| < CHECKSUM_SIZE { return Panic; }
    var crc32Position := |bytes| - CHECKSUM_SIZE;
    var readCrc32 := FromBe32(bytes[crc32Position..]);
    var bytesWithoutCrc32 := bytes[..crc32Position];
    var buffer := PROTOCOL_ID_BYTES + bytesWithoutCrc32;
    var crc32 := crc(buffer);
    if crc32 != readCrc32 {
      if crc32 == 0 { return Err(IntConversion); }
      return Err(InvalidCrc32(readCrc32, crc32));
    }
    var field, position := ReadInc(buffer, 0, 4);
    var readProtocolId := FromBe32(field.value);
    assert field.value == PROTOCOL_ID_BYTES;
    BigEndianInverse(PROTOCOL_ID);
    if readProtocolId != PROTOCOL_ID { return Err(InvalidProtocolId(readProtocolId)); }
    field, position := ReadInc(buffer, position, 4);
    if field.None? { return Panic; }
    var sequenceBytes := field.value;
    assert sequenceBytes == bytes[..4];
    field, position := ReadInc(buffer, position, 4);
    if field.None? { return Panic; }
    var ackBytes := field.value;
    assert ackBytes == bytes[4..8];
    field, position := ReadInc(buffer, position, 1);
    if field.None? { return Panic; }
    assert field.value[0] == buffer[12] == bytes[8];
    assert field.value == [bytes[8]];
    var packetType := NewPacketType(field.value[0]);
    if packetType.None? { return Err(PacketTypeConversion(field.value[0])); }
    if FromBe32(sequenceBytes) == 0 { return Err(IntConversion); }
    var partial := PartialDecode(buffer, position, packetType.value, FromBe32(sequenceBytes), FromBe32(ackBytes));
    OffsetsAgree(crc, raw, partial, time);
    r := CommonDecode(raw.address, partial, time);
  }

  lemma OffsetsAgree(crc: Checksum, raw: RawPacket, partial: PartialDecode, time: nat)
    requires |raw.bytes| >= 13 && ChecksumMatches(crc, raw.bytes)
    requires NewPacketType(raw.bytes[8]) == Some(partial.packetType) && FromBe32(raw.bytes[..4]) != 0
    requires partial == PartialDecode(PROTOCOL_ID_BYTES + raw.bytes[..|raw.bytes| - 4], 13, partial.packetType,
                                      FromBe32(raw.bytes[..4]), FromBe32(raw.bytes[4..8]))
    ensures Decode(crc, raw, time) == DecodeMessage(raw.address, partial, time)
  {
    var b, buffer := raw.bytes, partial.buffer;
    assert |buffer| == |b|;
    if |b| >= 15 { assert buffer[13..15] == b[9..11] && buffer[15..] == b[11..|b| - 4]; }
    if |b| >= 17 { assert buffer[15..17] == b[11..13] && buffer[17..] == b[13..|b| - 4]; }
  }

  // ---------------------------------------------------------------- role filters

  datatype Role = ForServer | ForClient

  // TryFrom<DecodedCommon> for DecodedForServer and DecodedForClient.
  function Filter(role: Role, p: Packet<Received>): Outcome<Packet<Received>> {
    match (role, p.message)
    case (ForServer, ConnectionAccepted(_)) => Err(InvalidPacketType(p.message.Type()))
    case (ForClient, ConnectionRequest) => Err(InvalidPacketType(p.message.Type()))
    case _ => Ok(p)
  }

  function DecodeFor(role: Role, crc: Checksum, raw: RawPacket, time: nat): Outcome<Packet<Received>> {
    match Decode(crc, raw, time)
    case Ok(p) => Filter(role, p)
    case other => other
  }

  // ---------------------------------------------------------------- what the codec promises

  // A message comes back from the bytes it was encoded to, wherever they are cut off.
  lemma MessageRoundTrip(b: Bytes, m: Message)
    requires |b| >= 12 && b[8..|b| - 4] == Encoded(m)
    ensures |b| >= 13 && NewPacketType(b[8]) == Some(m.Type()) && |b| >= MinimumLength(b[8])
    ensures b[8] != CONNECTION_REQUEST.code ==> IdAt(b) != 0
    ensures MessageAt(b) == m
  {
    var e, end := Encoded(m), |b| - 4;
    assert |e| > 0 && b[8] == e[0];
    match m {
      case ConnectionRequest =>
      case ConnectionAccepted(id) => BigEndianInverse(id); assert b[9..11] == e[1..3] == Be16(id);
      case Heartbeat(id) => BigEndianInverse(id); assert b[9..11] == e[1..3] == Be16(id);
      case DataTransfer(id, payload) =>
        BigEndianInverse(id);
        assert b[9..11] == e[1..3] == Be16(id);
        assert b[11..end] == e[3..] == payload;
      case Fragment(id, index, total, payload) =>
        BigEndianInverse(id);
        FragmentFields(b, e, id, payload);
    }
  }

  lemma FragmentFields(b: Bytes, e: Bytes, id: ConnectionId, payload: Bytes)
    requires |b| >= 12 && b[8..|b| - 4] == e && |e| >= 5
    requires e[3..] == Be16(id) + payload
    ensures b[9] == e[1] && b[10] == e[2]
    ensures b[11..13] == Be16(id) && b[13..|b| - 4] == payload
  {
    var end := |b| - 4;
    assert b[11..end] == e[3..];
    assert b[11..13] == b[11..end][..2];
    assert b[13..end] == b[11..end][2..];
  }

  lemma HeaderRoundTrip<D>(crc: Checksum, p: Packet<D>)
    requires Encodable(p)
    ensures var b := WireBytes(crc, p);
      && |b| >= 13 && ChecksumMatches(crc, b)
      && FromBe32(b[..4]) == p.sequence && FromBe32(b[4..8]) == p.ack
      && b[8..|b| - 4] == Encoded(p.message)
  {
    var b := WireBytes(crc, p);
    BigEndianInverse(p.sequence);
    BigEndianInverse(p.ack);
    BigEndianInverse(crc(PROTOCOL_ID_BYTES + Header(p)));
    assert b[..|b| - 4] == Header(p);
    assert b[|b| - 4..] == Be32(crc(PROTOCOL_ID_BYTES + Header(p)));
    assert b[..4] == Be32(p.sequence) && b[4..8] == Be32(p.ack);
    assert b[8..|b| - 4] == Encoded(p.message);
  }

  // Decoding inverts encoding, for every kind, counter, id, index, total and payload.
  lemma RoundTrip(crc: Checksum, p: Packet<ToSend>, from: SocketAddr, time: nat)
    requires Encodable(p)
    ensures Decode(crc, RawPacket(from, WireBytes(crc, p)), time)
         == Ok(Packet(Received(time, from), p.sequence, p.ack, p.message))
  {
    HeaderRoundTrip(crc, p);
    MessageRoundTrip(WireBytes(crc, p), p.message);
  }

  // Each role refuses exactly the one kind that is not meant for it.
  lemma RoleRoundTrip(role: Role, crc: Checksum, p: Packet<ToSend>, from: SocketAddr, time: nat)
    requires Encodable(p)
    ensures var r := DecodeFor(role, crc, RawPacket(from, WireBytes(crc, p)), time);
      if (role.ForServer? && p.message.ConnectionAccepted?) || (role.ForClient? && p.message.ConnectionRequest?)
      then r == Err(InvalidPacketType(p.message.Type()))
      else r == Ok(Packet(Received(time, from), p.sequence, p.ack, p.message))
  {
    RoundTrip(crc, p, from, time);
  }

  // The accepted language, for every buffer of every length.
  predicate WellFormed(crc: Checksum, b: Bytes) {
    && |b| >= 13
    && ChecksumMatches(crc, b)
    && FromBe32(b[..4]) != 0
    && 1 <= b[8] <= 5
    && |b| >= MinimumLength(b[8])
    && (b[8] != 1 ==> IdAt(b) != 0)
  }

  // Buffers the decoder cannot finish reading: its slices go past the end.
  predicate TooShort(crc: Checksum, b: Bytes) {
    || |b| < 4
    || (ChecksumMatches(crc, b) &&
        (|b| < 13 || (1 <= b[8] <= 5 && FromBe32(b[..4]) != 0 && |b| < MinimumLength(b[8]))))
  }

  lemma AcceptedLanguage(crc: Checksum, raw: RawPacket, time: nat)
    ensures Decode(crc, raw, time).Ok? <==> WellFormed(crc, raw.bytes)
    ensures Decode(crc, raw, time).Panic? <==> TooShort(crc, raw.bytes)
    ensures var r := Decode(crc, raw, time); r.Err? ==> !r.error.InvalidProtocolId? && !r.error.InvalidPacketType?
  {
  }

  // A datagram is accepted and re-encodes to the very same bytes exactly when it is well formed
  // and a kind without a payload carries no trailing bytes.
  lemma CanonicalForm(crc: Checksum, raw: RawPacket, time: nat)
    requires WellFormed(crc, raw.bytes)
    ensures var p := Decode(crc, raw, time).value;
      Encodable(p) &&
      (WireBytes(crc, p) == raw.bytes <==> (raw.bytes[8] in {1, 2, 5} ==> |raw.bytes| == MinimumLength(raw.bytes[8])))
  {
    var b, p := raw.bytes, Decode(crc, raw, time).value;
    var n := |b| - 4;
    MessageCanonical(b);
    if Encoded(p.message) == b[8..n] {
      assert Be32(p.sequence) == b[..4] && Be32(p.ack) == b[4..8];
      assert Header(p) == b[..n];
      assert b[..n] + b[n..] == b;
    } else {
      assert |WireBytes(crc, p)| == MinimumLength(b[8]);
    }
  }

  lemma MessageCanonical(b: Bytes)
    requires |b| >= 13 && 1 <= b[8] <= 5 && |b| >= MinimumLength(b[8])
    requires b[8] != CONNECTION_REQUEST.code ==> IdAt(b) != 0
    ensures var e := Encoded(MessageAt(b));
      && (e == b[8..|b| - 4] <==> (b[8] in {1, 2, 5} ==> |b| == MinimumLength(b[8])))
      && (b[8] in {1, 2, 5} ==> |e| == MinimumLength(b[8]) - 12)
  {
  }

  // How many bytes a packet takes on the wire. The four bytes of the unsent protocol id
  // that the header size counts make room for the four of the checksum.
  lemma WireLength<D>(crc: Checksum, p: Packet<D>)
    requires Encodable(p)
    ensures |WireBytes(crc, p)| == match p.message
      case ConnectionRequest => 13
      case ConnectionAccepted(_) => 15
      case Heartbeat(_) => 15
      case DataTransfer(_, payload) => 15 + |payload|
      case Fragment(_, _, _, payload) => FRAGMENT_HEADER_SIZE + |payload|
  {
  }

  function BigEndian(b: Bytes): nat {
    if b == [] then 0 else BigEndian(b[..|b| - 1]) * 256 + b[|b| - 1] as nat
  }

  lemma BigEndianOfTwo(n: int)
    requires 0 <= n < 0x1_0000
    ensures BigEndian(Be16(n)) == n
  {
    var b := Be16(n);
    assert b[..1] == [b[0]] && b[..1][..0] == [];
    assert BigEndian(b[..1]) == b[0] as nat;
  }

  lemma BigEndianOfFour(n: int)
    requires 0 <= n < U32_BOUND
    ensures BigEndian(Be32(n)) == n
  {
    var b := Be32(n);
    Be32Inverse(n);
    assert b[..3][..2] == b[..2] && b[..2][..1] == [b[0]] && b[..1][..0] == [];
    assert BigEndian(b[..1]) == b[0] as nat;
    assert BigEndian(b[..2]) == b[0] as nat * 256 + b[1] as nat;
    assert BigEndian(b[..3]) == (b[0] as nat * 256 + b[1] as nat) * 256 + b[2] as nat;
  }

  // Whether the last four bytes are the checksum of the rest.
  predicate Intact(crc: Checksum, b: Bytes)
    requires |b| >= 4
  {
    crc([0x0b, 0xab, 0xed, 0xad] + b[..|b| - 4]) == BigEndian(b[|b| - 4..])
  }

  // Where each field of a message is: the kind's number, then id and payload, most significant byte
  // first.
  predicate LaidOut(b: Bytes, n: nat, m: Message)
    requires 9 <= n <= |b|
  {
    match m
    case ConnectionRequest => b[8] == 1
    case ConnectionAccepted(id) => b[8] == 2 && n >= 11 && BigEndian(b[9..11]) == id
    case DataTransfer(id, payload) => b[8] == 3 && n >= 11 && BigEndian(b[9..11]) == id && b[11..n] == payload
    case Fragment(id, index, total, payload) =>
      b[8] == 4 && n >= 13 && b[9] == index && b[10] == total && BigEndian(b[11..13]) == id && b[13..n] == payload
    case Heartbeat(id) => b[8] == 5 && n >= 11 && BigEndian(b[9..11]) == id
  }

  // On the wire: sequence and ack in four bytes each, the message, and four bytes of checksum.
  lemma WireLayout<D>(crc: Checksum, p: Packet<D>)
    requires Encodable(p)
    ensures var b := WireBytes(crc, p); var n := |b| - 4;
      && n >= 9 && Intact(crc, b)
      && BigEndian(b[..4]) == p.sequence && BigEndian(b[4..8]) == p.ack && LaidOut(b, n, p.message)
  {
    HeaderRoundTrip(crc, p);
    var b, e := WireBytes(crc, p), Encoded(p.message);
    var n := |b| - 4;
    assert b[..n] == Header(p) && b[n..] == Be32(crc(PROTOCOL_ID_BYTES + Header(p)));
    assert b[..4] == Be32(p.sequence) && b[4..8] == Be32(p.ack);
    BigEndianOfFour(p.sequence);
    BigEndianOfFour(p.ack);
    BigEndianOfFour(crc(PROTOCOL_ID_BYTES + Header(p)));
    assert PROTOCOL_ID_BYTES == [0x0b, 0xab, 0xed, 0xad];
    MessageLayout(b, n, p.message);
  }

  lemma Within(b: Bytes, n: nat, i: nat, j: nat)
    requires 8 <= n <= |b| && i <= j <= n - 8
    ensures b[8..n][i..j] == b[8 + i..8 + j]
  {
    var whole, part := b[8..n][i..j], b[8 + i..8 + j];
    assert |whole| == |part|;
    forall k | 0 <= k < |whole| ensures whole[k] == part[k] {
      assert whole[k] == b[8..n][i + k] == b[8 + (i + k)];
    }
  }

  lemma MessageLayout(b: Bytes, n: nat, m: Message)
    requires 8 <= n <= |b| && b[8..n] == Encoded(m)
    ensures n >= 9 && LaidOut(b, n, m)
  {
    var e := Encoded(m);
    assert |e| == n - 8 && b[8] == e[0];
    if !m.ConnectionRequest? { BigEndianOfTwo(m.connectionId); }
    match m {
      case ConnectionRequest =>
      case ConnectionAccepted(id) => assert b[9..11] == e[1..] == Be16(id);
      case Heartbeat(id) => assert b[9..11] == e[1..] == Be16(id);
      case DataTransfer(id, payload) =>
        Within(b, n, 1, 3);
        Within(b, n, 3, n - 8);
        assert e[1..3] == Be16(id) && e[3..] == payload;
      case Fragment(id, index, total, payload) =>
        Within(b, n, 0, 3);
        Within(b, n, 3, 5);
        Within(b, n, 5, n - 8);
        assert e[..3] == [4, index, total] && e[3..5] == Be16(id) && e[5..] == payload;
    }
  }

  lemma BigEndianAgrees(b: Bytes)
    ensures |b| == 2 ==> FromBe16(b) == BigEndian(b)
    ensures |b| == 4 ==> FromBe32(b) == BigEndian(b)
  {
    if |b| == 2 { BigEndianOfTwo(FromBe16(b)); }
    if |b| == 4 { BigEndianOfFour(FromBe32(b)); }
  }

  lemma IntactIs(crc: Checksum, b: Bytes)
    requires |b| >= 4
    ensures Intact(crc, b) <==> ChecksumMatches(crc, b)
    ensures FromBe32(b[|b| - 4..]) == BigEndian(b[|b| - 4..])
    ensures PROTOCOL_ID_BYTES == [0x0b, 0xab, 0xed, 0xad]
  {
    BigEndianAgrees(b[|b| - 4..]);
  }

  // Which error a datagram is refused with.
  lemma Refusals(crc: Checksum, raw: RawPacket, time: nat)
    requires |raw.bytes| >= 4
    ensures var b, r := raw.bytes, Decode(crc, raw, time);
      var read, expected := BigEndian(b[|b| - 4..]), crc([0x0b, 0xab, 0xed, 0xad] + b[..|b| - 4]);
      && (!Intact(crc, b) ==> r == Err(if expected == 0 then IntConversion else InvalidCrc32(read, expected)))
      && (Intact(crc, b) && |b| >= 13 && b[8] !in {1, 2, 3, 4, 5} ==> r == Err(PacketTypeConversion(b[8])))
      && (Intact(crc, b) && |b| >= 13 && b[8] in {1, 2, 3, 4, 5} && r.Err? ==>
            r == Err(IntConversion) && (BigEndian(b[..4]) == 0 || (b[8] == 4 && BigEndian(b[11..13]) == 0)
                                        || (b[8] in {2, 3, 5} && |b| >= 15 && BigEndian(b[9..11]) == 0)))
  {
    var b := raw.bytes;
    IntactIs(crc, b);
    if |b| >= 13 {
      BigEndianAgrees(b[..4]);
      BigEndianAgrees(b[9..11]);
      BigEndianAgrees(b[11..13]);
    }
  }

  // What an accepted datagram means, whoever wrote it.
  lemma AcceptedMeans(crc: Checksum, raw: RawPacket, time: nat)
    requires Decode(crc, raw, time).Ok?
    ensures var b, p := raw.bytes, Decode(crc, raw, time).value; var n := |b| - 4;
      && n >= 9 && Intact(crc, b) && p.delivery == Received(time, raw.address)
      && BigEndian(b[..4]) == p.sequence && BigEndian(b[4..8]) == p.ack && LaidOut(b, n, p.message)
  {
    var b := raw.bytes;
    IntactIs(crc, b);
    BigEndianAgrees(b[..4]);
    BigEndianAgrees(b[4..8]);
    if b[8] != 1 { BigEndianAgrees(if b[8] == 4 then b[11..13] else b[9..11]); }
  }
}
