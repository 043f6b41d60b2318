/** The TCP packet header and frame of src/Packet.cpp: packetSize(2) type(2)
    requestId(4), all big-endian, followed by the payload. */
module Packet {
  import opened Common

  const PACKET_HEADER_SIZE := 8
  const MAX_PACKET_SIZE := 16 * 1024

  /** The PacketType field is a plain 16-bit number here: a caller can store any value in it. */
  datatype PacketHeader = PacketHeader(packetSize: UInt16, packetType: UInt16, requestId: UInt32)

  datatype Packet = Packet(header: PacketHeader, payload: seq<Byte>)

  predicate IsValidPacketType(t: UInt16) {
    1 <= t <= 11 || 101 <= t <= 111 || 201 <= t <= 203 || 301 <= t <= 303
  }

  predicate IsValidHeader(packetSize: UInt16, packetType: UInt16) {
    PACKET_HEADER_SIZE <= packetSize <= MAX_PACKET_SIZE && IsValidPacketType(packetType)
  }

  /** The value of a big-endian byte string. */
  function BigEndian(bytes: seq<Byte>): nat {
    if bytes == [] then 0
    else BigEndian(bytes[..|bytes| - 1]) * 0x100 + bytes[|bytes| - 1]
  }

  lemma BigEndian2(bytes: seq<Byte>)
    requires |bytes| == 2
    ensures BigEndian(bytes) == (bytes[0] as int) * 0x100 + bytes[1]
  {
    assert BigEndian(bytes[..1]) == BigEndian(bytes[..1][..0]) * 0x100 + bytes[0];
  }

  lemma BigEndian4(bytes: seq<Byte>)
    requires |bytes| == 4
    ensures BigEndian(bytes) == (bytes[0] as int) * 0x100_0000 + (bytes[1] as int) * 0x1_0000 + (bytes[2] as int) * 0x100 + bytes[3]
  {
    assert bytes[..3][..2] == bytes[..2];
    BigEndian2(bytes[..2]);
    assert BigEndian(bytes[..3]) == BigEndian(bytes[..2]) * 0x100 + bytes[2];
  }

  /** None stands for the exception thrown on a bad size or type. */
  function DecodeHeader(bytes: seq<Byte>): (r: Option<PacketHeader>)
    requires |bytes| == PACKET_HEADER_SIZE
    ensures r.Some? ==> IsValidHeader(r.value.packetSize, r.value.packetType)
  {
    var packetSize := (bytes[0] as int) * 0x100 + bytes[1];
    var packetType := (bytes[2] as int) * 0x100 + bytes[3];
    var requestId := (bytes[4] as int) * 0x100_0000 + (bytes[5] as int) * 0x1_0000 + (bytes[6] as int) * 0x100 + bytes[7];
    if IsValidHeader(packetSize, packetType)
    then Some(PacketHeader(packetSize, packetType, requestId))
    else None
  }

  /** The three fields are the big-endian values of bytes 0-1, 2-3 and 4-7; a header is refused
      exactly for a size below 8 or above 16384 or a type that no packet has. */
  lemma HeaderIsBigEndian(bytes: seq<Byte>)
    requires |bytes| == 8
    ensures
      var size, packetType := BigEndian(bytes[..2]), BigEndian(bytes[2..4]);
      DecodeHeader(bytes).Some? <==>
        && 8 <= size <= 16384
        && (1 <= packetType <= 11 || 101 <= packetType <= 111 || 201 <= packetType <= 203 || 301 <= packetType <= 303)
    ensures DecodeHeader(bytes).Some? ==>
      var header := DecodeHeader(bytes).value;
      && BigEndian(bytes[..2]) == header.packetSize
      && BigEndian(bytes[2..4]) == header.packetType
      && BigEndian(bytes[4..]) == header.requestId
  {
    BigEndian2(bytes[..2]);
    BigEndian2(bytes[2..4]);
    BigEndian4(bytes[4..]);
  }

  /** What a header says on the wire: the only accepted byte string that decodes to it. */
  ghost predicate Encodes(bytes: seq<Byte>, header: PacketHeader) {
    |bytes| == PACKET_HEADER_SIZE && DecodeHeader(bytes) == Some(header)
  }

  /** Fills the eight header bytes; fails exactly where the original throws. */
  method EncodeHeader(header: PacketHeader) returns (r: Option<seq<Byte>>)
    ensures r.Some? <==> IsValidHeader(header.packetSize, header.packetType)
    ensures r.Some? ==> Encodes(r.value, header)
  {
    if !IsValidHeader(header.packetSize, header.packetType) {
      return None;
    }
    var bytes := new Byte[8];
    bytes[0] := header.packetSize / 0x100;
    bytes[1] := header.packetSize % 0x100;
    bytes[2] := header.packetType / 0x100;
    bytes[3] := header.packetType % 0x100;
    bytes[4] := header.requestId / 0x100_0000;
    bytes[5] := header.requestId / 0x1_0000 % 0x100;
    bytes[6] := header.requestId / 0x100 % 0x100;
    bytes[7] := header.requestId % 0x100;
    FourBytes(header.requestId);
    r := Some(bytes[..]);
  }

  /** Shifting out the four bytes of a number and putting them together again. */
  lemma FourBytes(x: UInt32)
    ensures x / 0x100_0000 * 0x100_0000 + x / 0x1_0000 % 0x100 * 0x1_0000 + x / 0x100 % 0x100 * 0x100 + x % 0x100 == x
  {
    var a: int := x / 0x100;
    var b: int := a / 0x100;
    assert x / 0x1_0000 == b && x / 0x100_0000 == b / 0x100;
    assert x == a * 0x100 + x % 0x100 && a == b * 0x100 + a % 0x100 && b == b / 0x100 * 0x100 + b % 0x100;
  }

  /** A header has at most one wire form, so decoding loses nothing. */
  lemma EncodingIsUnique(a: seq<Byte>, b: seq<Byte>, header: PacketHeader)
    requires Encodes(a, header) && Encodes(b, header)
    ensures a == b
  {
    assert (a[0] as int) * 0x100 + a[1] == (b[0] as int) * 0x100 + b[1];
    assert a[0] == b[0] && a[1] == b[1];
    assert (a[2] as int) * 0x100 + a[3] == (b[2] as int) * 0x100 + b[3];
    assert a[2] == b[2] && a[3] == b[3];
    var ra := (a[4] as int) * 0x100_0000 + (a[5] as int) * 0x1_0000 + (a[6] as int) * 0x100 + a[7];
    var rb := (b[4] as int) * 0x100_0000 + (b[5] as int) * 0x1_0000 + (b[6] as int) * 0x100 + b[7];
    assert ra == rb;
    assert a[4] == b[4] && a[5] == b[5] && a[6] == b[6] && a[7] == b[7];
  }

  /** A packet the sender can frame: its header is valid and announces its real size. */
  predicate IsEncodable(p: Packet) {
    IsValidHeader(p.header.packetSize, p.header.packetType)
    && p.header.packetSize == PACKET_HEADER_SIZE + |p.payload|
  }

  /** The frame of a packet: its header's bytes, then its payload. */
  ghost predicate Frames(bytes: seq<Byte>, p: Packet) {
    && IsEncodable(p)
    && |bytes| == p.header.packetSize
    && Encodes(bytes[..PACKET_HEADER_SIZE], p.header)
    && bytes[PACKET_HEADER_SIZE..] == p.payload
  }

  method EncodePacket(packetType: UInt16, requestId: UInt32, payload: seq<Byte>) returns (r: Option<seq<Byte>>)
    ensures r.Some? <==> PACKET_HEADER_SIZE + |payload| <= MAX_PACKET_SIZE && IsValidPacketType(packetType)
    ensures r.Some? ==>
      Frames(r.value, Packet(PacketHeader(PACKET_HEADER_SIZE + |payload|, packetType, requestId), payload))
  {
    var packetSize := PACKET_HEADER_SIZE + |payload|;
    if packetSize > MAX_PACKET_SIZE {
      return None;
    }
    var headerBytes := EncodeHeader(PacketHeader(packetSize, packetType, requestId));
    if headerBytes.None? {
      return None;
    }
    var packetBytes := headerBytes.value + payload;
    assert packetBytes[..PACKET_HEADER_SIZE] == headerBytes.value;
    r := Some(packetBytes);
  }
}
