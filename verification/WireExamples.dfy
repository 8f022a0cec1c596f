/** What goes over the wire, byte for byte (renet2/src/packet.rs). */
module WireExamples {
  import opened Base
  import opened Varint
  import opened AckRanges
  import opened Wire

  /** The first byte tells the kind of packet. */
  lemma TypeByte(p: Packet)
    requires Writable(p)
    ensures Encode(p) != []
    ensures Encode(p)[0] == 0 <==> p.SmallReliable?
    ensures Encode(p)[0] == 1 <==> p.SmallUnreliable?
    ensures Encode(p)[0] == 2 <==> p.ReliableSlice?
    ensures Encode(p)[0] == 3 <==> p.UnreliableSlice?
    ensures Encode(p)[0] == 4 <==> p.Ack?
  {
    hide PutVarint;
  }

  lemma OneByte(v: nat)
    requires v < 64
    ensures PutVarint(v) == [v]
  {
  }

  lemma TwoBytes(v: nat, n: nat)
    ensures BigEndian(v, n + 2) == BigEndian(v / 65536, n) + [v / 256 % 256, v % 256]
  {
    assert BigEndian(v, n + 2) == BigEndian(v / 256, n + 1) + [v % 256];
  }

  /** The examples of section A.1 of RFC 9000. */
  lemma VarintExamples()
    ensures PutVarint(37) == [0x25]
    ensures PutVarint(15293) == [0x7b, 0xbd]
    ensures PutVarint(494878333) == [0x9d, 0x7f, 0x3e, 0x7d]
  {
    TwoBytes(15293, 0);
    TwoBytes(494878333, 2);
    TwoBytes(7551, 0);
  }

  lemma HighBytes()
    ensures BigEndian(35224670, 4) == [0x02, 0x19, 0x7c, 0x5e]
  {
    TwoBytes(35224670, 2);
    TwoBytes(537, 0);
    hide BigEndian;
  }

  lemma EightBytes()
    ensures BigEndian(151288809941952652, 8) == [0x02, 0x19, 0x7c, 0x5e, 0xff, 0x14, 0xe8, 0x8c]
  {
    TwoBytes(151288809941952652, 6);
    TwoBytes(2308484038420, 4);
    HighBytes();
    hide BigEndian;
  }

  lemma LongVarintExample()
    ensures PutVarint(151288809941952652) == [0xc2, 0x19, 0x7c, 0x5e, 0xff, 0x14, 0xe8, 0x8c]
  {
    EightBytes();
    hide BigEndian;
  }

  /** Kind, sequence, channel and the number of messages in two bytes; then id, length and bytes of each. */
  lemma SmallReliableBytes()
    ensures Encode(SmallReliable(7, 3, [(5, [0xaa, 0xbb]), (70, [])])) ==
              [0, 7, 3, 0, 2, 5, 2, 0xaa, 0xbb, 0x40, 70, 0]
  {
  }

  /** The same without ids. */
  lemma SmallUnreliableBytes()
    ensures Encode(SmallUnreliable(300, 3, [[0xaa, 0xbb], [0xcc]])) == [1, 0x41, 0x2c, 3, 0, 2, 2, 0xaa, 0xbb, 1, 0xcc]
  {
  }

  /** Message id, index and number of the slice, then its length and bytes. */
  lemma SliceBytes()
    ensures Encode(ReliableSlice(7, 3, Slice(9, 4, 5, [0xaa, 0xbb]))) == [2, 7, 3, 9, 4, 5, 2, 0xaa, 0xbb]
    ensures Encode(UnreliableSlice(7, 3, Slice(9, 4, 5, [0xaa, 0xbb]))) == [3, 7, 3, 9, 4, 5, 2, 0xaa, 0xbb]
  {
  }

  lemma FourBytes()
    ensures PutVarint(20039) == [0x80, 0, 0x4e, 0x47]
  {
    TwoBytes(20039, 2);
  }

  lemma LowerRangeBytes()
    ensures PutRanges([Range(20010, 20020)], 20035) == [14, 9]
  {
    assert [Range(20010, 20020)][..0] == [];
  }

  /**
   * The ranges from the last to the first: the last sequence and how many more the range has, the
   * number of ranges left, and for each the gap and how many more it has. The comment in the source
   * has 20040 5 1 15 10 for these two; the code writes each one less.
   */
  lemma AckBytes()
    ensures Normal([Range(20010, 20020), Range(20035, 20040)])
    ensures Encode(Ack(7, [Range(20010, 20020), Range(20035, 20040)])) == [4, 7, 0x80, 0, 0x4e, 0x47, 4, 1, 14, 9]
  {
    var rs := [Range(20010, 20020), Range(20035, 20040)];
    assert rs[..1] == [Range(20010, 20020)];
    LowerRangeBytes();
    FourBytes();
    OneByte(7);
    OneByte(4);
    OneByte(1);
    hide PutRanges;
    hide PutVarint;
  }
}

/** The bytes of a netcode frame (renetcode2/src/packet.rs), and the address of a client index. */
module FrameExamples {
  import opened Base
  import opened NetcodePackets
  import opened NetcodeFrames
  import A = ClientAddresses

  /** The low half of the first byte tells the kind of packet, the high half the length of the sequence. */
  lemma TypeByte(p: NetPacket, sequence: nat, protocolId: nat, filler: Bytes)
    requires sequence < U64
    ensures var b := Frame(p, sequence, protocolId, filler);
            && b != []
            && b[0] / 16 == (if p.ConnectionRequest? then 0 else SequenceLen(sequence))
            && (b[0] % 16 == 0 <==> p.ConnectionRequest?) && (b[0] % 16 == 1 <==> p.ConnectionDenied?)
            && (b[0] % 16 == 2 <==> p.Challenge?) && (b[0] % 16 == 3 <==> p.Response?)
            && (b[0] % 16 == 4 <==> p.KeepAlive?) && (b[0] % 16 == 5 <==> p.Payload?)
            && (b[0] % 16 == 6 <==> p.Disconnect?)
  {
    hide LittleEndian;
    hide Body;
    assert SequenceLen(0) == 0;
    hide SequenceLen;
  }

  lemma FourBytes(v: nat)
    requires v < 65536
    ensures LittleEndian(v, 4) == [v % 256, v / 256, 0, 0]
  {
    assert LittleEndian(v, 4) == [v % 256] + LittleEndian(v / 256, 3);
    assert LittleEndian(v / 256, 3) == [v / 256] + LittleEndian(0, 2);
  }

  lemma EightBytes(v: nat)
    requires v < 65536
    ensures LittleEndian(v, 8) == [v % 256, v / 256, 0, 0, 0, 0, 0, 0]
  {
    assert LittleEndian(v, 8) == [v % 256] + LittleEndian(v / 256, 7);
    assert LittleEndian(v / 256, 7) == [v / 256] + LittleEndian(0, 6);
    assert LittleEndian(0, 6) == [0, 0, 0, 0, 0, 0];
  }

  /** Numbers are written with the least significant byte first: sequence 300, client 1 of 258, protocol 770. */
  lemma KeepAliveBytes(filler: Bytes)
    ensures Frame(KeepAlive(1, 258), 300, 770, filler) ==
              [0x24, 0x2c, 1, 1, 0, 0, 0, 2, 1, 0, 0] + filler + [2, 3, 0, 0, 0, 0, 0, 0]
  {
    FourBytes(1);
    FourBytes(258);
    EightBytes(770);
    assert LittleEndian(300, 2) == [0x2c, 1];
    hide LittleEndian;
  }

  /** The address has the 16-bit groups 4, 3, 2 and 1. */
  lemma AddressBytes()
    ensures A.ToAddr(0x0001_0002_0003_0004) == A.V6([0, 4, 0, 3, 0, 2, 0, 1, 0, 0, 0, 0, 0, 0, 0, 0], 0)
  {
  }
}
