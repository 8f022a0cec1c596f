/** Packets that are cut short, and packets with more bytes after them (renet2/src/packet.rs). */
module Truncation {
  import opened Base
  import opened Varint
  import opened AckRanges
  import opened Wire

  /**
   * What was read from the bytes at the front does not change when more bytes follow, and neither
   * does an error, unless the bytes did not suffice.
   */
  ghost predicate Stable<T(!new)>(r: Parsed<T>, more: Parsed<T>, tail: Bytes) {
    match r
    case Ok(pair) => more == Ok((pair.0, pair.1 + tail))
    case Err(e) => e == BufferTooShort || more == Err(e)
  }

  lemma VarintStable(b: Bytes, tail: Bytes)
    ensures Stable(TakeVarint(b), TakeVarint(b + tail), tail)
  {
    hide FromBigEndian;
    if b != [] {
      var n := if b[0] < 0x40 then 1 else if b[0] < 0x80 then 2 else if b[0] < 0xc0 then 4 else 8;
      if n <= |b| {
        assert (b + tail)[1..n] == b[1..n] && (b + tail)[n..] == b[n..] + tail;
      }
    }
  }

  lemma U8Stable(b: Bytes, tail: Bytes)
    ensures Stable(TakeU8(b), TakeU8(b + tail), tail)
  {
    if b != [] {
      assert (b + tail)[1..] == b[1..] + tail;
    }
  }

  lemma U16Stable(b: Bytes, tail: Bytes)
    ensures Stable(TakeU16(b), TakeU16(b + tail), tail)
  {
    if |b| >= 2 {
      assert (b + tail)[..2] == b[..2] && (b + tail)[2..] == b[2..] + tail;
    }
  }

  lemma BytesStable(b: Bytes, tail: Bytes)
    ensures Stable(TakeBytes(b), TakeBytes(b + tail), tail)
  {
    VarintStable(b, tail);
    hide TakeVarint;
    if TakeVarint(b).Ok? {
      var (len, b1) := TakeVarint(b).value;
      if len <= |b1| {
        assert (b1 + tail)[..len] == b1[..len] && (b1 + tail)[len..] == b1[len..] + tail;
      }
    }
  }

  lemma {:induction false} MessagesStable(b: Bytes, n: nat, tail: Bytes)
    ensures Stable(TakeMessages(b, n), TakeMessages(b + tail, n), tail)
    decreases n
  {
    hide TakeVarint;
    hide TakeBytes;
    if n > 0 {
      VarintStable(b, tail);
      if TakeVarint(b).Ok? {
        var b1 := TakeVarint(b).value.1;
        BytesStable(b1, tail);
        if TakeBytes(b1).Ok? {
          MessagesStable(TakeBytes(b1).value.1, n - 1, tail);
        }
      }
    }
  }

  lemma {:induction false} PayloadsStable(b: Bytes, n: nat, tail: Bytes)
    ensures Stable(TakePayloads(b, n), TakePayloads(b + tail, n), tail)
    decreases n
  {
    hide TakeBytes;
    if n > 0 {
      BytesStable(b, tail);
      if TakeBytes(b).Ok? {
        PayloadsStable(TakeBytes(b).value.1, n - 1, tail);
      }
    }
  }

  lemma SliceStable(b: Bytes, tail: Bytes)
    ensures Stable(TakeSlice(b), TakeSlice(b + tail), tail)
  {
    hide TakeVarint;
    hide TakeBytes;
    VarintStable(b, tail);
    if TakeVarint(b).Ok? {
      var b1 := TakeVarint(b).value.1;
      VarintStable(b1, tail);
      if TakeVarint(b1).Ok? {
        var b2 := TakeVarint(b1).value.1;
        VarintStable(b2, tail);
        if TakeVarint(b2).Ok? {
          BytesStable(TakeVarint(b2).value.1, tail);
        }
      }
    }
  }

  lemma {:induction false} RangesStable(b: Bytes, n: nat, previousStart: nat, tail: Bytes)
    ensures Stable(TakeRanges(b, n, previousStart), TakeRanges(b + tail, n, previousStart), tail)
    decreases n
  {
    hide TakeVarint;
    if n > 0 {
      VarintStable(b, tail);
      if TakeVarint(b).Ok? {
        var (gap, b1) := TakeVarint(b).value;
        VarintStable(b1, tail);
        if TakeVarint(b1).Ok? && previousStart >= 2 + gap {
          var (size, b2) := TakeVarint(b1).value;
          if size <= previousStart - gap - 2 {
            RangesStable(b2, n - 1, previousStart - gap - 2 - size, tail);
          }
        }
      }
    }
  }

  // ----- Whole packets

  /** The packet at the front, and the bytes that the reader does not look at. */
  function Read(b: Bytes): Parsed<Packet> {
    var (kind, b1) :- TakeU8(b);
    if kind > 4 then Err(InvalidPacketType)
    else
      var (q, b2) :- TakeVarint(b1);
      if kind == 4 then ReadAck(q, b2) else ReadBody(kind, q, b2)
  }

  function ReadBody(kind: nat, q: nat, b: Bytes): Parsed<Packet>
    requires kind < 4
  {
    var (ch, b1) :- TakeU8(b);
    if kind == 0 then
      var (n, b2) :- TakeU16(b1);
      var (messages, rest) :- TakeMessages(b2, n);
      Ok((SmallReliable(q, ch, messages), rest))
    else if kind == 1 then
      var (n, b2) :- TakeU16(b1);
      var (payloads, rest) :- TakePayloads(b2, n);
      Ok((SmallUnreliable(q, ch, payloads), rest))
    else
      var (slice, rest) :- TakeSlice(b1);
      if kind == 3 then Ok((UnreliableSlice(q, ch, slice), rest))
      else if slice.payload == [] then Err(EmptySlice)
      else if |slice.payload| > SLICE_SIZE then Err(SliceSizeAboveLimit)
      else Ok((ReliableSlice(q, ch, slice), rest))
  }

  function ReadAck(q: nat, b: Bytes): Parsed<Packet> {
    var (end, b1) :- TakeVarint(b);
    var (size, b2) :- TakeVarint(b1);
    var (n, b3) :- TakeVarint(b2);
    if end < size then Err(InvalidAckRange)
    else
      var (below, rest) :- TakeRanges(b3, n, end - size);
      Ok((Ack(q, below + [Range(end - size, end + 1)]), rest))
  }

  /** The packet without the bytes after it. */
  function WithoutRest(r: Parsed<Packet>): Result<Packet, SerializationError> {
    match r
    case Ok(pair) => Ok(pair.0)
    case Err(e) => Err(e)
  }

  lemma ReadIsDecode(b: Bytes)
    ensures Decode(b) == WithoutRest(Read(b))
  {
    hide TakeU8;
    hide TakeU16;
    hide TakeVarint;
    hide TakeMessages;
    hide TakePayloads;
    hide TakeSlice;
    hide TakeRanges;
  }

  lemma BodyStable(kind: nat, q: nat, b: Bytes, tail: Bytes)
    requires kind < 4
    ensures Stable(ReadBody(kind, q, b), ReadBody(kind, q, b + tail), tail)
  {
    hide TakeU8;
    hide TakeU16;
    hide TakeMessages;
    hide TakePayloads;
    hide TakeSlice;
    U8Stable(b, tail);
    if TakeU8(b).Ok? {
      var b1 := TakeU8(b).value.1;
      U16Stable(b1, tail);
      SliceStable(b1, tail);
      if TakeU16(b1).Ok? {
        var (n, b2) := TakeU16(b1).value;
        MessagesStable(b2, n, tail);
        PayloadsStable(b2, n, tail);
      }
    }
  }

  lemma AckStable(q: nat, b: Bytes, tail: Bytes)
    ensures Stable(ReadAck(q, b), ReadAck(q, b + tail), tail)
  {
    hide TakeVarint;
    hide TakeRanges;
    VarintStable(b, tail);
    if TakeVarint(b).Ok? {
      var (end, b1) := TakeVarint(b).value;
      VarintStable(b1, tail);
      if TakeVarint(b1).Ok? {
        var (size, b2) := TakeVarint(b1).value;
        VarintStable(b2, tail);
        if TakeVarint(b2).Ok? && size <= end {
          var (n, b3) := TakeVarint(b2).value;
          RangesStable(b3, n, end - size, tail);
        }
      }
    }
  }

  lemma ReadStable(b: Bytes, tail: Bytes)
    ensures Stable(Read(b), Read(b + tail), tail)
  {
    hide TakeU8;
    hide TakeVarint;
    hide ReadAck;
    hide ReadBody;
    U8Stable(b, tail);
    if TakeU8(b).Ok? {
      var (kind, b1) := TakeU8(b).value;
      VarintStable(b1, tail);
      if TakeVarint(b1).Ok? && kind <= 4 {
        var (q, b2) := TakeVarint(b1).value;
        if kind == 4 {
          AckStable(q, b2, tail);
        } else {
          BodyStable(kind, q, b2, tail);
        }
      }
    }
  }

  /** Bytes after a packet are ignored: they change neither the packet nor an error in it. */
  lemma TrailingIgnored(b: Bytes, tail: Bytes)
    ensures Decode(b) == Err(BufferTooShort) || Decode(b + tail) == Decode(b)
  {
    hide Read;
    hide Decode;
    ReadIsDecode(b);
    ReadIsDecode(b + tail);
    ReadStable(b, tail);
  }

  lemma {:induction false} MessageErrors(b: Bytes, n: nat)
    ensures TakeMessages(b, n).Err? ==> TakeMessages(b, n).error == BufferTooShort
    decreases n
  {
    hide GetVarint;
    if n > 0 && TakeVarint(b).Ok? && TakeBytes(TakeVarint(b).value.1).Ok? {
      MessageErrors(TakeBytes(TakeVarint(b).value.1).value.1, n - 1);
    }
  }

  lemma {:induction false} PayloadErrors(b: Bytes, n: nat)
    ensures TakePayloads(b, n).Err? ==> TakePayloads(b, n).error == BufferTooShort
    decreases n
  {
    hide GetVarint;
    if n > 0 && TakeBytes(b).Ok? {
      PayloadErrors(TakeBytes(b).value.1, n - 1);
    }
  }

  lemma {:induction false} RangeErrors(b: Bytes, n: nat, previousStart: nat)
    ensures TakeRanges(b, n, previousStart) != Err(InvalidPacketType)
    decreases n
  {
    hide GetVarint;
    if n > 0 && TakeVarint(b).Ok? {
      var (gap, b1) := TakeVarint(b).value;
      if TakeVarint(b1).Ok? && previousStart >= 2 + gap {
        var (size, b2) := TakeVarint(b1).value;
        if size <= previousStart - gap - 2 {
          RangeErrors(b2, n - 1, previousStart - gap - 2 - size);
        }
      }
    }
  }

  lemma BodyErrors(kind: nat, q: nat, b: Bytes)
    requires kind < 4
    ensures ReadBody(kind, q, b) != Err(InvalidPacketType)
  {
    hide GetVarint;
    hide TakeMessages;
    hide TakePayloads;
    if TakeU8(b).Ok? && TakeU16(TakeU8(b).value.1).Ok? {
      var (n, b2) := TakeU16(TakeU8(b).value.1).value;
      MessageErrors(b2, n);
      PayloadErrors(b2, n);
    }
  }

  lemma AckErrors(q: nat, b: Bytes)
    ensures ReadAck(q, b) != Err(InvalidPacketType)
  {
    hide GetVarint;
    hide TakeRanges;
    if TakeVarint(b).Ok? {
      var (end, b1) := TakeVarint(b).value;
      if TakeVarint(b1).Ok? {
        var (size, b2) := TakeVarint(b1).value;
        if TakeVarint(b2).Ok? && size <= end {
          RangeErrors(TakeVarint(b2).value.1, TakeVarint(b2).value.0, end - size);
        }
      }
    }
  }

  /** Exactly a first byte above 4 is refused as an unknown kind of packet, whatever follows it. */
  lemma UnknownKind(b: Bytes)
    requires b != []
    ensures Decode(b) == Err(InvalidPacketType) <==> b[0] > 4
  {
    hide Decode;
    hide ReadBody;
    hide ReadAck;
    hide GetVarint;
    ReadIsDecode(b);
    if b[0] <= 4 && TakeVarint(b[1..]).Ok? {
      var (q, b2) := TakeVarint(b[1..]).value;
      if b[0] == 4 {
        AckErrors(q, b2);
      } else {
        BodyErrors(b[0], q, b2);
      }
    }
  }

  /** A packet that is cut short anywhere is refused as too short, never taken for another one. */
  lemma CutShort(p: Packet, k: nat)
    requires Writable(p) && Acceptable(p) && k < |Encode(p)|
    ensures Decode(Encode(p)[..k]) == Err(BufferTooShort)
  {
    hide Read;
    hide Decode;
    hide Encode;
    var b, tail := Encode(p)[..k], Encode(p)[k..];
    assert b + tail == Encode(p) && tail != [];
    ReadsAll(p);
    ReadIsDecode(b);
    ReadStable(b, tail);
  }

  lemma ReadsAll(p: Packet)
    requires Writable(p) && Acceptable(p)
    ensures Read(Encode(p)) == Ok((p, []))
  {
    hide PutVarint;
    hide TakeVarint;
    hide TakeU8;
    hide TakeU16;
    hide TakeMessages;
    hide TakePayloads;
    hide TakeSlice;
    hide TakeRanges;
    hide PutRanges;
    hide PutSlice;
    hide PutMessages;
    hide PutPayloads;
    hide BigEndian;
    if p.Ack? {
      AckReadsAll(p);
    } else {
      TakePutHeader(Kind(p), p.sequence, [p.channelId] + Body(p));
      TakePutByte(p.channelId, Body(p));
      match p
      case SmallReliable(_, _, messages) =>
        TakePutU16(|messages|, PutMessages(messages));
        TakePutMessages(messages);
      case SmallUnreliable(_, _, payloads) =>
        TakePutU16(|payloads|, PutPayloads(payloads));
        TakePutPayloads(payloads);
      case ReliableSlice(_, _, slice) =>
        TakePutSlice(slice);
      case UnreliableSlice(_, _, slice) =>
        TakePutSlice(slice);
    }
  }

  lemma AckReadsAll(p: Packet)
    requires Writable(p) && p.Ack?
    ensures Read(Encode(p)) == Ok((p, []))
  {
    hide PutVarint;
    hide TakeVarint;
    hide TakeU8;
    hide TakeRanges;
    hide PutRanges;
    hide ReadBody;
    var rs := p.ackRanges;
    var front, last := rs[..|rs| - 1], rs[|rs| - 1];
    var body := PutRanges(front, last.start);
    var counted := PutVarint(|front|) + body;
    var sized := PutVarint(last.end - 1 - last.start) + counted;
    TakePutHeader(4, p.sequence, PutVarint(last.end - 1) + sized);
    TakePutVarint(last.end - 1, sized);
    TakePutVarint(last.end - 1 - last.start, counted);
    TakePutVarint(|front|, body);
    TakePutRanges(front, last.start);
    assert rs == front + [last];
  }
}
