/** How large the packets of a send pass become (renet2/src/packet.rs, renet2/src/channel). */
module PacketSizes {
  import opened Base
  import opened Varint
  import opened AckRanges
  import opened Slicing
  import opened Wire
  import P = SendPasses
  import U = UnreliableSending

  /** What every packet of a send pass keeps to. */
  predicate Built(p: Packet) {
    match p
    case SmallReliable(_, _, messages) =>
      && (P.GroupSize(messages) <= SLICE_SIZE || |messages| == 1)
      && forall k :: 0 <= k < |messages| ==> |messages[k].1| <= SLICE_SIZE
    case SmallUnreliable(_, _, payloads) =>
      U.GroupSize(payloads) <= SLICE_SIZE || (|payloads| == 1 && |payloads[0]| <= SLICE_SIZE)
    case ReliableSlice(_, _, s) => BuiltSlice(s)
    case UnreliableSlice(_, _, s) => BuiltSlice(s)
    case Ack(_, rs) => rs != [] && Normal(rs)
  }

  predicate BuiltSlice(s: Slice) {
    s.sliceIndex < s.numSlices && 0 < |s.payload| <= SLICE_SIZE
  }

  /** The numbers in the packet are within what the wire format can hold. */
  predicate Numbered(p: Packet) {
    && p.sequence <= MAX_VARINT
    && match p
       case SmallReliable(_, ch, messages) => ch < 256 && forall m :: m in messages ==> m.0 <= MAX_VARINT
       case SmallUnreliable(_, ch, _) => ch < 256
       case ReliableSlice(_, ch, s) => ch < 256 && s.messageId <= MAX_VARINT && s.numSlices <= MAX_VARINT
       case UnreliableSlice(_, ch, s) => ch < 256 && s.messageId <= MAX_VARINT && s.numSlices <= MAX_VARINT
       case Ack(_, rs) => rs != [] ==> rs[|rs| - 1].end <= MAX_VARINT && |rs| <= MAX_VARINT
  }

  lemma {:induction false} GroupFront(m: (nat, Bytes), rest: seq<(nat, Bytes)>)
    ensures P.GroupSize([m] + rest) == P.SerializedSize(m.0, m.1) + P.GroupSize(rest)
  {
    var all := [m] + rest;
    if rest == [] {
      assert all[..0] == [];
    } else {
      GroupFront(m, rest[..|rest| - 1]);
      assert all[..|all| - 1] == [m] + rest[..|rest| - 1];
    }
  }

  /** The size that packing keeps count of is the size written. */
  lemma {:induction false} MessagesSize(messages: seq<(nat, Bytes)>)
    requires forall m :: m in messages ==> m.0 <= MAX_VARINT && |m.1| <= MAX_VARINT
    ensures |PutMessages(messages)| == P.GroupSize(messages)
    ensures 2 * |messages| <= P.GroupSize(messages)
  {
    if messages != [] {
      MessagesSize(messages[1..]);
      GroupFront(messages[0], messages[1..]);
      assert messages == [messages[0]] + messages[1..];
    }
  }

  lemma {:induction false} PayloadFront(m: Bytes, rest: seq<Bytes>)
    ensures U.GroupSize([m] + rest) == |m| + VarintLen(|m|) + U.GroupSize(rest)
  {
    var all := [m] + rest;
    if rest == [] {
      assert all[..0] == [];
    } else {
      PayloadFront(m, rest[..|rest| - 1]);
      assert all[..|all| - 1] == [m] + rest[..|rest| - 1];
    }
  }

  lemma {:induction false} PayloadsSize(payloads: seq<Bytes>)
    requires forall m :: m in payloads ==> |m| <= MAX_VARINT
    ensures |PutPayloads(payloads)| == U.GroupSize(payloads)
    ensures |payloads| <= U.GroupSize(payloads)
  {
    if payloads != [] {
      PayloadsSize(payloads[1..]);
      PayloadFront(payloads[0], payloads[1..]);
      assert payloads == [payloads[0]] + payloads[1..];
    }
  }

  lemma {:induction false} PayloadWithin(payloads: seq<Bytes>, k: nat)
    requires k < |payloads|
    ensures |payloads[k]| <= U.GroupSize(payloads)
  {
    if k < |payloads| - 1 {
      PayloadWithin(payloads[..|payloads| - 1], k);
    }
  }

  lemma SmallReliableSize(p: Packet)
    requires p.SmallReliable? && Built(p) && Numbered(p)
    ensures Writable(p) && |Encode(p)| <= 1222
  {
    hide PutVarint;
    hide PutMessages;
    hide P.GroupSize;
    hide VarintLen;
    MessagesSize(p.messages);
    if |p.messages| == 1 {
      GroupFront(p.messages[0], []);
      assert p.messages == [p.messages[0]] + [];
      OneMessage(p.messages[0]);
    }
  }

  lemma OneMessage(m: (nat, Bytes))
    requires |m.1| <= SLICE_SIZE
    ensures P.SerializedSize(m.0, m.1) <= SLICE_SIZE + 10 && P.GroupSize([]) == 0
  {
  }

  lemma SmallUnreliableSize(p: Packet)
    requires p.SmallUnreliable? && Built(p) && Numbered(p)
    ensures Writable(p) && |Encode(p)| <= 1214
  {
    hide PutVarint;
    hide PutPayloads;
    hide VarintLen;
    forall m | m in p.payloads
      ensures |m| <= SLICE_SIZE
    {
      var k: nat :| k < |p.payloads| && p.payloads[k] == m;
      PayloadWithin(p.payloads, k);
    }
    PayloadsSize(p.payloads);
    if |p.payloads| == 1 {
      PayloadFront(p.payloads[0], []);
      assert p.payloads == [p.payloads[0]] + [];
      OneMessage((0, p.payloads[0]));
      OnePayload(p.payloads[0]);
    }
  }

  lemma OnePayload(m: Bytes)
    requires |m| <= SLICE_SIZE
    ensures VarintLen(|m|) <= 2 && U.GroupSize([]) == 0
  {
  }

  /**
   * Every packet of a send pass whose numbers the wire format can hold is written whole: small
   * packets in 1222 bytes, slices in 1236, acks of up to 64 ranges in 1034.
   */
  lemma BuiltSize(p: Packet)
    requires Built(p) && Numbered(p)
    ensures Writable(p)
    ensures p.SmallReliable? || p.SmallUnreliable? ==> |Encode(p)| <= 1222
    ensures p.ReliableSlice? || p.UnreliableSlice? ==> |Encode(p)| <= 1236
    ensures p.Ack? && |p.ackRanges| <= MAX_PENDING_RANGES ==> |Encode(p)| <= 1034
  {
    hide Encode;
    match p
    case SmallReliable(_, _, _) => SmallReliableSize(p);
    case SmallUnreliable(_, _, _) => SmallUnreliableSize(p);
    case Ack(_, _) => AckSize(p);
    case _ => SliceSize(p);
  }

  /** The slices of a message are read back exactly when it has at most a million of them. */
  lemma SliceReadBack(p: Packet, m: Bytes, i: nat)
    requires p.ReliableSlice? || p.UnreliableSlice?
    requires i < NumSlices(|m|) && p.slice == SliceOf(m, p.slice.messageId, i) && Numbered(p)
    ensures Writable(p)
    ensures Decode(Encode(p)) == Ok(p) <==> |m| <= MAX_NUM_SLICES * SLICE_SIZE
  {
    hide Encode;
    hide Decode;
    SliceBounds(m, i);
    RoundTrip(p);
  }

  /** A message of one byte more is accepted and cut up, and its slices are written but never read. */
  lemma TooManySlices() returns (m: Bytes, p: Packet)
    ensures |m| == 1_200_000_001 && p == ReliableSlice(0, 0, SliceOf(m, 0, 0))
    ensures Writable(p) && Decode(Encode(p)) != Ok(p)
  {
    hide Encode;
    hide Decode;
    m := seq(1_200_000_001, _ => 0);
    p := ReliableSlice(0, 0, SliceOf(m, 0, 0));
    SliceBounds(m, 0);
    SliceReadBack(p, m, 0);
  }

  lemma ReadBack(p: Packet)
    requires Built(p) && Numbered(p)
    requires p.ReliableSlice? || p.UnreliableSlice? ==> p.slice.numSlices <= MAX_NUM_SLICES
    ensures Writable(p) && Decode(Encode(p)) == Ok(p)
  {
    hide Encode;
    hide Decode;
    BuiltSize(p);
    RoundTrip(p);
  }
}
