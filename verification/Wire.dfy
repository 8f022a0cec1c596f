/** The wire format of a packet (renet2/src/packet.rs). */
module Wire {
  import opened Base
  import opened Varint
  import opened AckRanges

  datatype SerializationError =
    BufferTooShort | InvalidNumSlices | SliceSizeAboveLimit | EmptySlice | InvalidAckRange | InvalidPacketType

  type Parsed<T> = Result<(T, Bytes), SerializationError>

  const MAX_NUM_SLICES: nat := 1_000_000

  // ----- Writing

  function PutMessages(messages: seq<(nat, Bytes)>): Bytes
    requires forall m :: m in messages ==> m.0 <= MAX_VARINT && |m.1| <= MAX_VARINT
  {
    if messages == [] then []
    else
      var (id, m) := messages[0];
      PutVarint(id) + (PutVarint(|m|) + (m + PutMessages(messages[1..])))
  }

  function PutPayloads(payloads: seq<Bytes>): Bytes
    requires forall m :: m in payloads ==> |m| <= MAX_VARINT
  {
    if payloads == [] then []
    else PutVarint(|payloads[0]|) + (payloads[0] + PutPayloads(payloads[1..]))
  }

  predicate SliceWritable(s: Slice) {
    && s.messageId <= MAX_VARINT && s.sliceIndex <= MAX_VARINT
    && s.numSlices <= MAX_VARINT && |s.payload| <= MAX_VARINT
  }

  function PutSlice(s: Slice): Bytes
    requires SliceWritable(s)
  {
    PutVarint(s.messageId) + (PutVarint(s.sliceIndex) + (PutVarint(s.numSlices) + (PutVarint(|s.payload|) + s.payload)))
  }

  /** Ranges from the last to the first, each as the gap to the one after it and its size. */
  function PutRanges(rs: seq<Range>, previousStart: nat): Bytes
    requires Normal(rs) && (rs != [] ==> rs[|rs| - 1].end < previousStart <= MAX_VARINT)
  {
    if rs == [] then []
    else
      var r := rs[|rs| - 1];
      PutVarint(previousStart - r.end - 1) + (PutVarint(r.end - 1 - r.start) + PutRanges(rs[..|rs| - 1], r.start))
  }

  /** Every number fits a varint, counts fit a u16, and an ack list is in normal form. */
  predicate Writable(p: Packet) {
    && p.sequence <= MAX_VARINT
    && match p
       case SmallReliable(_, ch, messages) =>
         ch < 256 && |messages| < 0x1_0000 && forall m :: m in messages ==> m.0 <= MAX_VARINT && |m.1| <= MAX_VARINT
       case SmallUnreliable(_, ch, payloads) =>
         ch < 256 && |payloads| < 0x1_0000 && forall m :: m in payloads ==> |m| <= MAX_VARINT
       case ReliableSlice(_, ch, slice) => ch < 256 && SliceWritable(slice)
       case UnreliableSlice(_, ch, slice) => ch < 256 && SliceWritable(slice)
       case Ack(_, rs) => rs != [] && Normal(rs) && rs[|rs| - 1].end <= MAX_VARINT && |rs| <= MAX_VARINT
  }

  /** What follows the packet type, the sequence and the channel. */
  function Body(p: Packet): Bytes
    requires Writable(p) && !p.Ack?
  {
    match p
    case SmallReliable(_, _, messages) => BigEndian(|messages|, 2) + PutMessages(messages)
    case SmallUnreliable(_, _, payloads) => BigEndian(|payloads|, 2) + PutPayloads(payloads)
    case ReliableSlice(_, _, slice) => PutSlice(slice)
    case UnreliableSlice(_, _, slice) => PutSlice(slice)
  }

  function AckBody(rs: seq<Range>): Bytes
    requires rs != [] && Normal(rs) && rs[|rs| - 1].end <= MAX_VARINT && |rs| <= MAX_VARINT
  {
    var last := rs[|rs| - 1];
    PutVarint(last.end - 1) + (PutVarint(last.end - 1 - last.start)
      + (PutVarint(|rs| - 1) + PutRanges(rs[..|rs| - 1], last.start)))
  }

  function Kind(p: Packet): Byte {
    match p
    case SmallReliable(_, _, _) => 0
    case SmallUnreliable(_, _, _) => 1
    case ReliableSlice(_, _, _) => 2
    case UnreliableSlice(_, _, _) => 3
    case Ack(_, _) => 4
  }

  function Encode(p: Packet): Bytes
    requires Writable(p)
  {
    [Kind(p)] + (PutVarint(p.sequence) + (if p.Ack? then AckBody(p.ackRanges) else [p.channelId] + Body(p)))
  }

  // ----- Reading

  function TakeVarint(b: Bytes): (r: Parsed<nat>)
    ensures r.Ok? ==> |r.value.1| < |b|
  {
    match GetVarint(b)
    case None => Err(BufferTooShort)
    case Some(pair) => Ok(pair)
  }

  function TakeU8(b: Bytes): Parsed<nat> {
    if b == [] then Err(BufferTooShort) else Ok((b[0], b[1..]))
  }

  function TakeU16(b: Bytes): Parsed<nat> {
    if |b| < 2 then Err(BufferTooShort) else Ok((FromBigEndian(b[..2]), b[2..]))
  }

  function TakeBytes(b: Bytes): Parsed<Bytes> {
    var (len, b1) :- TakeVarint(b);
    if |b1| < len then Err(BufferTooShort) else Ok((b1[..len], b1[len..]))
  }

  function TakeMessages(b: Bytes, n: nat): Parsed<seq<(nat, Bytes)>> {
    if n == 0 then Ok(([], b))
    else
      var (id, b1) :- TakeVarint(b);
      var (m, b2) :- TakeBytes(b1);
      var (rest, b3) :- TakeMessages(b2, n - 1);
      Ok(([(id, m)] + rest, b3))
  }

  function TakePayloads(b: Bytes, n: nat): Parsed<seq<Bytes>> {
    if n == 0 then Ok(([], b))
    else
      var (m, b1) :- TakeBytes(b);
      var (rest, b2) :- TakePayloads(b1, n - 1);
      Ok(([m] + rest, b2))
  }

  function TakeSlice(b: Bytes): Parsed<Slice> {
    var (id, b1) :- TakeVarint(b);
    var (index, b2) :- TakeVarint(b1);
    var (numSlices, b3) :- TakeVarint(b2);
    if numSlices == 0 || numSlices > MAX_NUM_SLICES then Err(InvalidNumSlices)
    else
      var (payload, b4) :- TakeBytes(b3);
      Ok((Slice(id, index, numSlices, payload), b4))
  }

  function TakeRanges(b: Bytes, n: nat, previousStart: nat): Parsed<seq<Range>> {
    if n == 0 then Ok(([], b))
    else
      var (gap, b1) :- TakeVarint(b);
      if previousStart < 2 + gap then Err(InvalidAckRange)
      else
        var end := previousStart - gap - 2;
        var (size, b2) :- TakeVarint(b1);
        if end < size then Err(InvalidAckRange)
        else
          var (rest, b3) :- TakeRanges(b2, n - 1, end - size);
          Ok((rest + [Range(end - size, end + 1)], b3))
  }

  function Decode(b: Bytes): Result<Packet, SerializationError> {
    var (kind, b1) :- TakeU8(b);
    if kind > 4 then Err(InvalidPacketType)
    else
      var (q, b2) :- TakeVarint(b1);
      if kind == 4 then DecodeAck(q, b2)
      else
        var (ch, b3) :- TakeU8(b2);
        if kind == 0 then
          var (n, b4) :- TakeU16(b3);
          var (messages, _) :- TakeMessages(b4, n);
          Ok(SmallReliable(q, ch, messages))
        else if kind == 1 then
          var (n, b4) :- TakeU16(b3);
          var (payloads, _) :- TakePayloads(b4, n);
          Ok(SmallUnreliable(q, ch, payloads))
        else
          var (slice, _) :- TakeSlice(b3);
          if kind == 3 then Ok(UnreliableSlice(q, ch, slice))
          else if slice.payload == [] then Err(EmptySlice)
          else if |slice.payload| > SLICE_SIZE then Err(SliceSizeAboveLimit)
          else Ok(ReliableSlice(q, ch, slice))
  }

  function DecodeAck(q: nat, b: Bytes): Result<Packet, SerializationError> {
    var (end, b1) :- TakeVarint(b);
    var (size, b2) :- TakeVarint(b1);
    var (n, b3) :- TakeVarint(b2);
    if end < size then Err(InvalidAckRange)
    else
      var (rest, _) :- TakeRanges(b3, n, end - size);
      Ok(Ack(q, rest + [Range(end - size, end + 1)]))
  }

  // ----- Round trip

  lemma TakePutVarint(v: nat, rest: Bytes)
    requires v <= MAX_VARINT
    ensures TakeVarint(PutVarint(v) + rest) == Ok((v, rest))
  {
    VarintRoundTrip(v, rest);
  }

  lemma TakePutBytes(m: Bytes, rest: Bytes)
    requires |m| <= MAX_VARINT
    ensures TakeBytes(PutVarint(|m|) + (m + rest)) == Ok((m, rest))
  {
    TakePutVarint(|m|, m + rest);
    assert (m + rest)[..|m|] == m && (m + rest)[|m|..] == rest;
  }

  lemma {:induction false} TakePutMessages(messages: seq<(nat, Bytes)>)
    requires forall m :: m in messages ==> m.0 <= MAX_VARINT && |m.1| <= MAX_VARINT
    ensures TakeMessages(PutMessages(messages), |messages|) == Ok((messages, []))
  {
    if messages != [] {
      var (id, m) := messages[0];
      var rest := PutMessages(messages[1..]);
      TakePutVarint(id, PutVarint(|m|) + (m + rest));
      TakePutBytes(m, rest);
      TakePutMessages(messages[1..]);
      assert messages == [(id, m)] + messages[1..];
    }
  }

  lemma {:induction false} TakePutPayloads(payloads: seq<Bytes>)
    requires forall m :: m in payloads ==> |m| <= MAX_VARINT
    ensures TakePayloads(PutPayloads(payloads), |payloads|) == Ok((payloads, []))
  {
    if payloads != [] {
      TakePutBytes(payloads[0], PutPayloads(payloads[1..]));
      TakePutPayloads(payloads[1..]);
      assert payloads == [payloads[0]] + payloads[1..];
    }
  }

  lemma TakePutSlice(s: Slice)
    requires SliceWritable(s)
    ensures TakeSlice(PutSlice(s))
         == if 0 < s.numSlices <= MAX_NUM_SLICES then Ok((s, [])) else Err(InvalidNumSlices)
  {
    var tail := PutVarint(|s.payload|) + s.payload;
    TakePutVarint(s.messageId, PutVarint(s.sliceIndex) + (PutVarint(s.numSlices) + tail));
    TakePutVarint(s.sliceIndex, PutVarint(s.numSlices) + tail);
    TakePutVarint(s.numSlices, tail);
    TakePutBytes(s.payload, []);
    assert s.payload + [] == s.payload;
  }

  /** One more range, written ahead of those below it. */
  lemma TakePutRange(rest: Bytes, front: seq<Range>, r: Range, previousStart: nat)
    requires r.start < r.end < previousStart <= MAX_VARINT && TakeRanges(rest, |front|, r.start) == Ok((front, []))
    ensures var b := PutVarint(previousStart - r.end - 1) + (PutVarint(r.end - 1 - r.start) + rest);
            TakeRanges(b, |front| + 1, previousStart) == Ok((front + [r], []))
  {
    hide PutVarint;
    hide TakeVarint;
    TakePutVarint(previousStart - r.end - 1, PutVarint(r.end - 1 - r.start) + rest);
    TakePutVarint(r.end - 1 - r.start, rest);
  }

  lemma {:induction false} TakePutRanges(rs: seq<Range>, previousStart: nat)
    requires Normal(rs) && (rs != [] ==> rs[|rs| - 1].end < previousStart <= MAX_VARINT)
    ensures TakeRanges(PutRanges(rs, previousStart), |rs|, previousStart) == Ok((rs, []))
  {
    hide PutVarint;
    hide TakeVarint;
    hide InRange;
    if rs != [] {
      hide TakeRanges;
      var front, r := rs[..|rs| - 1], rs[|rs| - 1];
      TakePutRanges(front, r.start);
      TakePutRange(PutRanges(front, r.start), front, r, previousStart);
      assert rs == front + [r];
    }
  }

  /** The decoder's own limits on slices; every other writable packet is within them. */
  predicate Acceptable(p: Packet) {
    match p
    case ReliableSlice(_, _, s) => 0 < s.numSlices <= MAX_NUM_SLICES && 0 < |s.payload| <= SLICE_SIZE
    case UnreliableSlice(_, _, s) => 0 < s.numSlices <= MAX_NUM_SLICES
    case _ => true
  }

  lemma TakePutHeader(kind: Byte, q: nat, rest: Bytes)
    requires q <= MAX_VARINT
    ensures var b := [kind] + (PutVarint(q) + rest);
            TakeU8(b) == Ok((kind, PutVarint(q) + rest)) && TakeVarint(PutVarint(q) + rest) == Ok((q, rest))
  {
    TakePutVarint(q, rest);
  }

  lemma TakePutByte(ch: Byte, rest: Bytes)
    ensures TakeU8([ch] + rest) == Ok((ch as nat, rest))
  {
  }

  lemma TakePutU16(n: nat, rest: Bytes)
    requires n < 0x1_0000
    ensures TakeU16(BigEndian(n, 2) + rest) == Ok((n, rest))
  {
    Powers();
    BigEndianRoundTrip(n, 2);
    var b := BigEndian(n, 2) + rest;
    assert b[..2] == BigEndian(n, 2) && b[2..] == rest;
  }

  lemma RoundTripSmallReliable(p: Packet)
    requires Writable(p) && p.SmallReliable?
    ensures Decode(Encode(p)) == Ok(p)
  {
    hide PutVarint;
    hide TakeVarint;
    hide TakeU8;
    hide TakeU16;
    hide BigEndian;
    hide TakeMessages;
    hide PutMessages;
    var body := PutMessages(p.messages);
    var counted := BigEndian(|p.messages|, 2) + body;
    TakePutHeader(0, p.sequence, [p.channelId] + counted);
    TakePutByte(p.channelId, counted);
    TakePutU16(|p.messages|, body);
    TakePutMessages(p.messages);
  }

  lemma RoundTripSmallUnreliable(p: Packet)
    requires Writable(p) && p.SmallUnreliable?
    ensures Decode(Encode(p)) == Ok(p)
  {
    hide PutVarint;
    hide TakeVarint;
    hide TakeU8;
    hide TakeU16;
    hide BigEndian;
    hide TakePayloads;
    hide PutPayloads;
    var body := PutPayloads(p.payloads);
    var counted := BigEndian(|p.payloads|, 2) + body;
    TakePutHeader(1, p.sequence, [p.channelId] + counted);
    TakePutByte(p.channelId, counted);
    TakePutU16(|p.payloads|, body);
    TakePutPayloads(p.payloads);
  }

  lemma RoundTripSlice(p: Packet)
    requires Writable(p) && (p.ReliableSlice? || p.UnreliableSlice?)
    ensures Decode(Encode(p)).Ok? <==> Acceptable(p)
    ensures Acceptable(p) ==> Decode(Encode(p)) == Ok(p)
  {
    hide PutVarint;
    hide TakeVarint;
    hide TakeU8;
    hide TakeSlice;
    hide PutSlice;
    TakePutHeader(if p.ReliableSlice? then 2 else 3, p.sequence, [p.channelId] + PutSlice(p.slice));
    TakePutByte(p.channelId, PutSlice(p.slice));
    TakePutSlice(p.slice);
  }

  lemma RoundTripAck(p: Packet)
    requires Writable(p) && p.Ack?
    ensures Decode(Encode(p)) == Ok(p)
  {
    hide PutVarint;
    hide TakeVarint;
    hide TakeU8;
    hide TakeRanges;
    hide PutRanges;
    var rs := p.ackRanges;
    var front, last := rs[..|rs| - 1], rs[|rs| - 1];
    var body := PutRanges(front, last.start);
    var counted := PutVarint(|front|) + body;
    var sized := PutVarint(last.end - 1 - last.start) + counted;
    TakePutHeader(4, p.sequence, PutVarint(last.end - 1) + sized);
    TakePutVarint(last.end - 1, sized);
    TakePutVarint(last.end - 1 - last.start, counted);
    TakePutVarint(|front|, body);
    TakePutRanges(front, last.start);
    assert rs == front + [last];
  }

  /** Every packet that can be written is read back, unless it breaks the limits on slices. */
  lemma RoundTrip(p: Packet)
    requires Writable(p)
    ensures Decode(Encode(p)).Ok? <==> Acceptable(p)
    ensures Acceptable(p) ==> Decode(Encode(p)) == Ok(p)
  {
    hide Encode;
    hide Decode;
    match p
    case SmallReliable(_, _, _) => RoundTripSmallReliable(p);
    case SmallUnreliable(_, _, _) => RoundTripSmallUnreliable(p);
    case Ack(_, _) => RoundTripAck(p);
    case _ => RoundTripSlice(p);
  }

  // ----- What the decoder lets through

  lemma {:induction false} TakenRangesNormal(b: Bytes, n: nat, previousStart: nat)
    ensures var r := TakeRanges(b, n, previousStart);
            r.Ok? ==> Normal(r.value.0) && |r.value.0| == n
                      && (n > 0 ==> r.value.0[n - 1].end < previousStart)
    decreases n
  {
    hide TakeVarint;
    var r := TakeRanges(b, n, previousStart);
    if n > 0 && r.Ok? {
      var (gap, b1) := TakeVarint(b).value;
      var end := previousStart - gap - 2;
      var (size, b2) := TakeVarint(b1).value;
      TakenRangesNormal(b2, n - 1, end - size);
    }
  }

  lemma DecodeAckNormal(q: nat, b: Bytes)
    requires DecodeAck(q, b).Ok?
    ensures var p := DecodeAck(q, b).value;
            p.Ack? && p.sequence == q && p.ackRanges != [] && Normal(p.ackRanges)
  {
    hide TakeVarint;
    hide TakeRanges;
    var (end, b1) := TakeVarint(b).value;
    var (size, b2) := TakeVarint(b1).value;
    var (n, b3) := TakeVarint(b2).value;
    TakenRangesNormal(b3, n, end - size);
  }

  /** Whatever the bytes, an ack list that is accepted is in normal form. */
  lemma DecodedAckNormal(b: Bytes)
    requires Decode(b).Ok? && Decode(b).value.Ack?
    ensures var rs := Decode(b).value.ackRanges; rs != [] && Normal(rs)
  {
    hide TakeVarint;
    hide DecodeAck;
    var (q, body) := TakeVarint(b[1..]).value;
    DecodeAckNormal(q, body);
  }

  // ----- Sizes

  lemma {:induction false} PutRangesSize(rs: seq<Range>, previousStart: nat)
    requires Normal(rs) && (rs != [] ==> rs[|rs| - 1].end < previousStart <= MAX_VARINT)
    ensures 2 * |rs| <= |PutRanges(rs, previousStart)| <= 16 * |rs|
  {
    hide PutVarint;
    if rs != [] {
      PutRangesSize(rs[..|rs| - 1], rs[|rs| - 1].start);
    }
  }

  /** An ack packet within the range limit always fits the buffer. */
  lemma AckSize(p: Packet)
    requires Writable(p) && p.Ack?
    ensures 3 + 2 * |p.ackRanges| <= |Encode(p)| <= 33 + 16 * (|p.ackRanges| - 1)
    ensures |p.ackRanges| <= MAX_PENDING_RANGES ==> |Encode(p)| <= 1034
  {
    hide PutVarint;
    hide AckBody;
    hide Normal;
    AckBodySize(p.ackRanges);
  }

  lemma AckBodySize(rs: seq<Range>)
    requires rs != [] && Normal(rs) && rs[|rs| - 1].end <= MAX_VARINT && |rs| <= MAX_VARINT
    ensures 1 + 2 * |rs| <= |AckBody(rs)| <= 24 + 16 * (|rs| - 1)
    ensures |rs| <= MAX_PENDING_RANGES ==> |AckBody(rs)| <= 17 + 16 * (|rs| - 1)
  {
    hide PutVarint;
    hide PutRanges;
    PutRangesSize(rs[..|rs| - 1], rs[|rs| - 1].start);
  }

  lemma SliceSize(p: Packet)
    requires Writable(p) && (p.ReliableSlice? || p.UnreliableSlice?) && |p.slice.payload| <= SLICE_SIZE
    ensures |Encode(p)| <= 1236
  {
    hide PutVarint;
  }
}

/** Writing to and reading from a buffer (renet2/src/packet.rs, `to_bytes` and `from_bytes`). */
module WireBuffers {
  import opened Base
  import opened Varint
  import opened AckRanges
  import opened Wire

  /** A buffer of fixed size with a cursor. */
  class Writer {
    const capacity: nat
    var out: Bytes

    constructor (capacity: nat)
      ensures this.capacity == capacity && out == []
    {
      this.capacity := capacity;
      out := [];
    }

    /** `rest` is what is still to come: a write that fails shows that all of it would not fit. */
    method Put(bytes: Bytes, ghost rest: Bytes) returns (r: Result<(), SerializationError>)
      requires |out| <= capacity
      modifies this
      ensures |out| <= capacity
      ensures r.Ok? ==> out == old(out) + bytes && out + rest == old(out) + (bytes + rest)
      ensures r.Err? ==> r.error == BufferTooShort && out == old(out) && capacity < |old(out) + (bytes + rest)|
    {
      if |out| + |bytes| > capacity {
        return Err(BufferTooShort);
      }
      out := out + bytes;
      assert out + rest == old(out) + (bytes + rest);
      return Ok(());
    }
  }

  method PutMessageList(w: Writer, messages: seq<(nat, Bytes)>) returns (r: Result<(), SerializationError>)
    requires forall m :: m in messages ==> m.0 <= MAX_VARINT && |m.1| <= MAX_VARINT
    requires |w.out| <= w.capacity
    modifies w
    ensures |w.out| <= w.capacity
    ensures r.Ok? ==> w.out == old(w.out) + PutMessages(messages)
    ensures r.Err? ==> r.error == BufferTooShort && w.capacity < |old(w.out) + PutMessages(messages)|
  {
    hide PutVarint;
    ghost var full := w.out + PutMessages(messages);
    var i := 0;
    while i < |messages|
      invariant 0 <= i <= |messages|
      invariant |w.out| <= w.capacity
      invariant w.out + PutMessages(messages[i..]) == full
    {
      var (id, m) := messages[i];
      assert messages[i..][0] == messages[i] && messages[i..][1..] == messages[i + 1..];
      ghost var rest := PutMessages(messages[i + 1..]);
      var _ :- w.Put(PutVarint(id), PutVarint(|m|) + (m + rest));
      var _ :- w.Put(PutVarint(|m|), m + rest);
      var _ :- w.Put(m, rest);
      i := i + 1;
    }
    assert messages[i..] == [];
    return Ok(());
  }

  method PutPayloadList(w: Writer, payloads: seq<Bytes>) returns (r: Result<(), SerializationError>)
    requires forall m :: m in payloads ==> |m| <= MAX_VARINT
    requires |w.out| <= w.capacity
    modifies w
    ensures |w.out| <= w.capacity
    ensures r.Ok? ==> w.out == old(w.out) + PutPayloads(payloads)
    ensures r.Err? ==> r.error == BufferTooShort && w.capacity < |old(w.out) + PutPayloads(payloads)|
  {
    hide PutVarint;
    ghost var full := w.out + PutPayloads(payloads);
    var i := 0;
    while i < |payloads|
      invariant 0 <= i <= |payloads|
      invariant |w.out| <= w.capacity
      invariant w.out + PutPayloads(payloads[i..]) == full
    {
      var m := payloads[i];
      assert payloads[i..][0] == m && payloads[i..][1..] == payloads[i + 1..];
      ghost var rest := PutPayloads(payloads[i + 1..]);
      var _ :- w.Put(PutVarint(|m|), m + rest);
      var _ :- w.Put(m, rest);
      i := i + 1;
    }
    assert payloads[i..] == [];
    return Ok(());
  }

  lemma PutRangesStep(rs: seq<Range>, i: nat, previousStart: nat)
    requires Normal(rs) && 0 < i <= |rs| && rs[i - 1].end < previousStart <= MAX_VARINT
    ensures var r := rs[i - 1];
            && r.start < r.end && (i > 1 ==> rs[i - 2].end < r.start)
            && Normal(rs[..i]) && Normal(rs[..i - 1])
            && PutRanges(rs[..i], previousStart)
               == PutVarint(previousStart - r.end - 1) +
                   (PutVarint(r.end - 1 - r.start) + PutRanges(rs[..i - 1], r.start))
  {
    hide PutVarint;
    assert rs[..i][..i - 1] == rs[..i - 1];
  }

  /** The loop over the ranges in reverse; the gap never goes below zero on a list in normal form. */
  method PutRangeList(w: Writer, rs: seq<Range>, lastStart: nat) returns (r: Result<(), SerializationError>)
    requires Normal(rs) && (rs != [] ==> rs[|rs| - 1].end < lastStart <= MAX_VARINT)
    requires |w.out| <= w.capacity
    modifies w
    ensures |w.out| <= w.capacity
    ensures r.Ok? ==> w.out == old(w.out) + PutRanges(rs, lastStart)
    ensures r.Err? ==> r.error == BufferTooShort && w.capacity < |old(w.out) + PutRanges(rs, lastStart)|
  {
    assert rs[..|rs|] == rs;
    assert PutRanges(rs[..0], 0) == [];
    hide PutVarint;
    hide Normal;
    ghost var full := w.out + PutRanges(rs, lastStart);
    var i: nat, previousStart: nat := |rs|, lastStart;
    while i > 0
      invariant 0 <= i <= |rs|
      invariant i > 0 ==> rs[i - 1].end < previousStart <= MAX_VARINT
      invariant |w.out| <= w.capacity
      invariant Normal(rs[..i]) && w.out + PutRanges(rs[..i], previousStart) == full
    {
      PutRangesStep(rs, i, previousStart);
      var range := rs[i - 1];
      var gap := previousStart - range.end - 1;
      var rangeSize := (range.end - 1) - range.start;
      ghost var rest := PutRanges(rs[..i - 1], range.start);
      var _ :- w.Put(PutVarint(gap), PutVarint(rangeSize) + rest);
      var _ :- w.Put(PutVarint(rangeSize), rest);
      previousStart := range.start;
      i := i - 1;
    }
    return Ok(());
  }

  method PutSliceFields(w: Writer, s: Slice) returns (r: Result<(), SerializationError>)
    requires SliceWritable(s)
    requires |w.out| <= w.capacity
    modifies w
    ensures |w.out| <= w.capacity
    ensures r.Ok? ==> w.out == old(w.out) + PutSlice(s)
    ensures r.Err? ==> r.error == BufferTooShort && w.capacity < |old(w.out) + PutSlice(s)|
  {
    hide PutVarint;
    ghost var tail := PutVarint(|s.payload|) + s.payload;
    assert s.payload + [] == s.payload;
    var _ :- w.Put(PutVarint(s.messageId), PutVarint(s.sliceIndex) + (PutVarint(s.numSlices) + tail));
    var _ :- w.Put(PutVarint(s.sliceIndex), PutVarint(s.numSlices) + tail);
    var _ :- w.Put(PutVarint(s.numSlices), tail);
    var _ :- w.Put(PutVarint(|s.payload|), s.payload);
    var _ :- w.Put(s.payload, []);
    assert w.out + [] == w.out;
    return Ok(());
  }

  method PutBody(w: Writer, p: Packet) returns (r: Result<(), SerializationError>)
    requires Writable(p) && !p.Ack?
    requires |w.out| <= w.capacity
    modifies w
    ensures |w.out| <= w.capacity
    ensures r.Ok? ==> w.out == old(w.out) + Body(p)
    ensures r.Err? ==> r.error == BufferTooShort && w.capacity < |old(w.out) + Body(p)|
  {
    hide PutVarint;
    hide PutMessages;
    hide PutPayloads;
    hide PutSlice;
    match p
    case SmallReliable(_, _, messages) =>
      var _ :- w.Put(BigEndian(|messages|, 2), PutMessages(messages));
      r := PutMessageList(w, messages);
    case SmallUnreliable(_, _, payloads) =>
      var _ :- w.Put(BigEndian(|payloads|, 2), PutPayloads(payloads));
      r := PutPayloadList(w, payloads);
    case ReliableSlice(_, _, slice) =>
      r := PutSliceFields(w, slice);
    case UnreliableSlice(_, _, slice) =>
      r := PutSliceFields(w, slice);
  }

  method PutAck(w: Writer, rs: seq<Range>) returns (r: Result<(), SerializationError>)
    requires rs != [] && Normal(rs) && rs[|rs| - 1].end <= MAX_VARINT && |rs| <= MAX_VARINT
    requires |w.out| <= w.capacity
    modifies w
    ensures |w.out| <= w.capacity
    ensures r.Ok? ==> w.out == old(w.out) + AckBody(rs)
    ensures r.Err? ==> r.error == BufferTooShort && w.capacity < |old(w.out) + AckBody(rs)|
  {
    hide PutVarint;
    hide PutRanges;
    var front, last := rs[..|rs| - 1], rs[|rs| - 1];
    ghost var ranges := PutRanges(front, last.start);
    ghost var counted := PutVarint(|front|) + ranges;
    var lastRangeSize := (last.end - 1) - last.start;
    var _ :- w.Put(PutVarint(last.end - 1), PutVarint(lastRangeSize) + counted);
    var _ :- w.Put(PutVarint(lastRangeSize), counted);
    var _ :- w.Put(PutVarint(|front|), ranges);
    r := PutRangeList(w, front, last.start);
  }

  /** Writing succeeds exactly when the encoded packet fits the buffer. */
  method ToBytes(p: Packet, capacity: nat) returns (r: Result<Bytes, SerializationError>)
    requires Writable(p)
    ensures r == if |Encode(p)| <= capacity then Ok(Encode(p)) else Err(BufferTooShort)
  {
    hide PutVarint;
    hide AckBody;
    hide Body;
    var w := new Writer(capacity);
    var res := PutPacket(w, p);
    match res
    case Err(e) => return Err(e);
    case Ok(_) => return Ok(w.out);
  }

  method PutPacket(w: Writer, p: Packet) returns (r: Result<(), SerializationError>)
    requires Writable(p) && w.out == []
    requires |w.out| <= w.capacity
    modifies w
    ensures |w.out| <= w.capacity
    ensures r.Ok? ==> w.out == Encode(p)
    ensures r.Err? ==> r.error == BufferTooShort && w.capacity < |Encode(p)|
  {
    hide PutVarint;
    hide AckBody;
    hide Body;
    ghost var tail := if p.Ack? then AckBody(p.ackRanges) else [p.channelId] + Body(p);
    var _ :- w.Put([Kind(p)], PutVarint(p.sequence) + tail);
    var _ :- w.Put(PutVarint(p.sequence), tail);
    if p.Ack? {
      r := PutAck(w, p.ackRanges);
    } else {
      var _ :- w.Put([p.channelId], Body(p));
      r := PutBody(w, p);
    }
  }

  function After<T>(done: seq<T>, r: Parsed<seq<T>>): Parsed<seq<T>> {
    if r.Err? then r else Ok((done + r.value.0, r.value.1))
  }

  method TakeMessageList(buffer: Bytes, n: nat) returns (r: Parsed<seq<(nat, Bytes)>>)
    ensures r == TakeMessages(buffer, n)
  {
    hide TakeVarint;
    hide TakeBytes;
    var messages: seq<(nat, Bytes)>, b := [], buffer;
    ghost var all := TakeMessages(buffer, n);
    assert all.Ok? ==> [] + all.value.0 == all.value.0;
    for i := 0 to n
      invariant all == After(messages, TakeMessages(b, n - i))
    {
      var idField :- TakeVarint(b);
      var (id, b1) := idField;
      var payloadField :- TakeBytes(b1);
      var (payload, b2) := payloadField;
      ghost var rest := TakeMessages(b2, n - i - 1);
      assert rest.Ok? ==> messages + ([(id, payload)] + rest.value.0) == (messages + [(id, payload)]) + rest.value.0;
      messages, b := messages + [(id, payload)], b2;
    }
    assert messages + [] == messages;
    return Ok((messages, b));
  }

  method TakePayloadList(buffer: Bytes, n: nat) returns (r: Parsed<seq<Bytes>>)
    ensures r == TakePayloads(buffer, n)
  {
    hide TakeBytes;
    var payloads: seq<Bytes>, b := [], buffer;
    ghost var all := TakePayloads(buffer, n);
    assert all.Ok? ==> [] + all.value.0 == all.value.0;
    for i := 0 to n
      invariant all == After(payloads, TakePayloads(b, n - i))
    {
      var payloadField :- TakeBytes(b);
      var (payload, b1) := payloadField;
      ghost var rest := TakePayloads(b1, n - i - 1);
      assert rest.Ok? ==> payloads + ([payload] + rest.value.0) == (payloads + [payload]) + rest.value.0;
      payloads, b := payloads + [payload], b1;
    }
    assert payloads + [] == payloads;
    return Ok((payloads, b));
  }

  function Reversed(rs: seq<Range>): (r: seq<Range>)
    ensures |r| == |rs|
  {
    if rs == [] then [] else [rs[|rs| - 1]] + Reversed(rs[..|rs| - 1])
  }

  function Before<T>(r: Parsed<seq<T>>, done: seq<T>): Parsed<seq<T>> {
    if r.Err? then r else Ok((r.value.0 + done, r.value.1))
  }

  lemma NoneReversed()
    ensures Reversed([]) == []
  {
  }

  /** A range read ahead of the rest is the first of those turned round. */
  lemma RangeMoved(rest: Parsed<seq<Range>>, range: Range, ranges: seq<Range>)
    ensures Before(Before(rest, [range]), Reversed(ranges)) == Before(rest, Reversed(ranges + [range]))
  {
    assert (ranges + [range])[..|ranges|] == ranges;
    if rest.Ok? {
      assert rest.value.0 + [range] + Reversed(ranges) == rest.value.0 + ([range] + Reversed(ranges));
    }
  }

  /** Ranges arrive from the last to the first and are turned round at the end. */
  method TakeRangeList(buffer: Bytes, n: nat, firstStart: nat) returns (r: Parsed<seq<Range>>)
    ensures r == TakeRanges(buffer, n, firstStart)
  {
    hide TakeVarint;
    hide Reversed;
    var ranges: seq<Range>, b, previousStart := [], buffer, firstStart;
    assert Reversed([]) == [] by {
      NoneReversed();
    }
    ghost var all := TakeRanges(buffer, n, firstStart);
    assert all.Ok? ==> all.value.0 + [] == all.value.0;
    for i := 0 to n
      invariant all == Before(TakeRanges(b, n - i, previousStart), Reversed(ranges))
    {
      var gapField :- TakeVarint(b);
      var (gap, b1) := gapField;
      if previousStart < 2 + gap {
        return Err(InvalidAckRange);
      }
      var rangeEnd := (previousStart - gap) - 2;
      var sizeField :- TakeVarint(b1);
      var (rangeSize, b2) := sizeField;
      if rangeEnd < rangeSize {
        return Err(InvalidAckRange);
      }
      var rangeStart := rangeEnd - rangeSize;
      var range := Range(rangeStart, rangeEnd + 1);
      RangeMoved(TakeRanges(b2, n - i - 1, rangeStart), range, ranges);
      ranges, b, previousStart := ranges + [range], b2, rangeStart;
    }
    assert [] + Reversed(ranges) == Reversed(ranges);
    return Ok((Reversed(ranges), b));
  }

  method FromBytes(buffer: Bytes) returns (r: Result<Packet, SerializationError>)
    ensures r == Decode(buffer)
  {
    hide TakeVarint;
    hide TakeU16;
    hide TakeSlice;
    hide TakeMessages;
    hide TakePayloads;
    hide TakeRanges;
    var typeField :- TakeU8(buffer);
    var (packetType, b1) := typeField;
    if packetType > 4 {
      return Err(InvalidPacketType);
    }
    var sequenceField :- TakeVarint(b1);
    var (sequence, b2) := sequenceField;
    if packetType == 4 {
      var endField :- TakeVarint(b2);
      var (firstEnd, b3) := endField;
      var sizeField :- TakeVarint(b3);
      var (firstSize, b4) := sizeField;
      var countField :- TakeVarint(b4);
      var (numRemaining, b5) := countField;
      if firstEnd < firstSize {
        return Err(InvalidAckRange);
      }
      var firstStart := firstEnd - firstSize;
      var res := TakeRangeList(b5, numRemaining, firstStart);
      var parsed :- res;
      var ranges := parsed.0;
      return Ok(Ack(sequence, ranges + [Range(firstStart, firstEnd + 1)]));
    }
    var channelField :- TakeU8(b2);
    var (channelId, b3) := channelField;
    if packetType == 0 {
      var countField :- TakeU16(b3);
      var (n, b4) := countField;
      var res := TakeMessageList(b4, n);
      var parsed :- res;
      var messages := parsed.0;
      return Ok(SmallReliable(sequence, channelId, messages));
    } else if packetType == 1 {
      var countField :- TakeU16(b3);
      var (n, b4) := countField;
      var res := TakePayloadList(b4, n);
      var parsed :- res;
      var payloads := parsed.0;
      return Ok(SmallUnreliable(sequence, channelId, payloads));
    }
    var sliceField :- TakeSlice(b3);
    var slice := sliceField.0;
    if packetType == 3 {
      return Ok(UnreliableSlice(sequence, channelId, slice));
    }
    if slice.payload == [] {
      return Err(EmptySlice);
    }
    if |slice.payload| > SLICE_SIZE {
      return Err(SliceSizeAboveLimit);
    }
    return Ok(ReliableSlice(sequence, channelId, slice));
  }
}
