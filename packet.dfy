/**
 * The wire codec of the reliable-UDP layer (Network.Packet).
 *
 * A frame is one kind byte, then the 32-bit sequence number as produced by
 * BitConverter on a little-endian host, then the payload verbatim.
 */
module Wire {
  import opened Wrappers

  type byte = x: int | 0 <= x < 0x100
  type uint32 = x: int | 0 <= x < 0x1_0000_0000

  /** PacketType.Data and PacketType.Ack. */
  const DataKind: byte := 1
  const AckKind: byte := 2

  /**
   * A packet. The kind is kept as the raw byte: FromBytes casts whatever byte
   * it finds to PacketType without checking it, and the receive loop ignores
   * kinds other than Data and Ack.
   */
  datatype Packet = Packet(kind: byte, sequenceNumber: uint32, payload: seq<byte>)

  datatype DecodeError = TooShort(length: nat)

  /** BitConverter.GetBytes(uint) on a little-endian host. */
  function UInt32ToBytes(n: uint32): (b: seq<byte>)
    ensures |b| == 4
  {
    [n % 0x100, (n / 0x100) % 0x100, (n / 0x1_0000) % 0x100, n / 0x100_0000]
  }

  /** BitConverter.ToUInt32 on a little-endian host, over the four bytes it reads. */
  function UInt32FromBytes(b: seq<byte>): uint32
    requires |b| == 4
  {
    b[0] as int + 0x100 * (b[1] as int) + 0x1_0000 * (b[2] as int) + 0x100_0000 * (b[3] as int)
  }

  lemma UInt32BytesRoundTrip(n: uint32)
    ensures UInt32FromBytes(UInt32ToBytes(n)) == n
  {
    var q1 := n / 0x100;
    var q2 := q1 / 0x100;
    assert n == n % 0x100 + 0x100 * q1;
    assert q1 == q1 % 0x100 + 0x100 * q2;
    assert q2 / 0x100 == n / 0x100_0000;
  }

  /** Splitting `low + 0x100 * high` at the low byte gives back both parts. */
  lemma SplitLowByte(low: int, high: int)
    requires 0 <= low < 0x100 && 0 <= high
    ensures (low + 0x100 * high) % 0x100 == low && (low + 0x100 * high) / 0x100 == high
  {
  }

  lemma UInt32BytesInverse(b: seq<byte>)
    requires |b| == 4
    ensures UInt32ToBytes(UInt32FromBytes(b)) == b
  {
    var q2: int := b[2] as int + 0x100 * (b[3] as int);
    var q1: int := b[1] as int + 0x100 * q2;
    SplitLowByte(b[0], q1);
    SplitLowByte(b[1], q2);
    SplitLowByte(b[2], b[3]);
    assert UInt32FromBytes(b) == b[0] as int + 0x100 * q1;
  }

  /** The frame ToBytes writes for a packet: kind, sequence number, payload. */
  function Frame(p: Packet): seq<byte>
  {
    [p.kind] + UInt32ToBytes(p.sequenceNumber) + p.payload
  }

  function CreateDataPacket(data: seq<byte>, sequenceNumber: uint32): (p: Packet)
    ensures Frame(p) == [DataKind] + UInt32ToBytes(sequenceNumber) + data
  {
    Packet(DataKind, sequenceNumber, data)
  }

  function CreateAckPacket(sequenceNumber: uint32): (p: Packet)
    ensures Frame(p) == [AckKind] + UInt32ToBytes(sequenceNumber)
  {
    Packet(AckKind, sequenceNumber, [])
  }

  /**
   * Packet.ToBytes: allocate 1 + 4 + |payload| bytes, write the kind at 0,
   * copy the sequence number's bytes to 1..4 and the payload from 5 on.
   */
  method ToBytes(p: Packet) returns (data: array<byte>)
    ensures fresh(data)
    ensures data.Length == 5 + |p.payload|
    ensures data[0] == p.kind
    ensures data[1..5] == UInt32ToBytes(p.sequenceNumber)
    ensures data[5..] == p.payload
    ensures data[..] == Frame(p)
  {
    data := new byte[1 + 4 + |p.payload|];
    data[0] := p.kind;
    var sequenceBytes := UInt32ToBytes(p.sequenceNumber);
    for i := 0 to 4
      invariant data[0] == p.kind
      invariant forall k :: 0 <= k < i ==> data[1 + k] == sequenceBytes[k]
    {
      data[1 + i] := sequenceBytes[i];
    }
    for i := 0 to |p.payload|
      invariant data[0] == p.kind
      invariant forall k :: 0 <= k < 4 ==> data[1 + k] == sequenceBytes[k]
      invariant forall k :: 0 <= k < i ==> data[5 + k] == p.payload[k]
    {
      data[5 + i] := p.payload[i];
    }
    assert data[1..5] == sequenceBytes;
    assert data[5..] == p.payload;
    assert data[..] == [data[0]] + data[1..5] + data[5..];
  }

  /**
   * Packet.FromBytes. Fewer than five bytes make the source throw (the index
   * at 0 or BitConverter.ToUInt32 at 1); otherwise every buffer decodes, and
   * it decodes to the one packet whose frame it is.
   */
  function FromBytes(data: seq<byte>): (r: Result<Packet, DecodeError>)
    ensures r.Failure? <==> |data| < 5
    ensures r.Success? ==> Frame(r.value) == data && |r.value.payload| == |data| - 5
  {
    if |data| < 5 then
      Failure(TooShort(|data|))
    else
      UInt32BytesInverse(data[1..5]);
      var p := Packet(data[0], UInt32FromBytes(data[1..5]), data[5..]);
      assert data == [data[0]] + data[1..5] + data[5..];
      Success(p)
  }

  /** Decoding a frame gives back the packet, whatever its kind. */
  lemma FromBytesOfFrame(p: Packet)
    ensures FromBytes(Frame(p)) == Success(p)
  {
    var f := Frame(p);
    assert f[0] == p.kind;
    assert f[1..5] == UInt32ToBytes(p.sequenceNumber);
    assert f[5..] == p.payload;
    UInt32BytesRoundTrip(p.sequenceNumber);
  }

  /** Two packets with the same frame are the same packet. */
  lemma FrameInjective(p: Packet, q: Packet)
    requires Frame(p) == Frame(q)
    ensures p == q
  {
    FromBytesOfFrame(p);
    FromBytesOfFrame(q);
  }
}
