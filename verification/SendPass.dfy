/**
 * One sending pass of a reliable channel: which units go out, in which packets
 * (renet2/src/channel/reliable.rs, `get_packets_to_send`).
 */
module SendPasses {
  import opened Base
  import opened Sums
  import opened Slicing
  import opened Varint
  import opened ReliableSending

  /** What is sent and acked as one: a small message, or one slice of a long one. */
  datatype Unit = Whole(id: nat) | Part(id: nat, index: nat)

  function Wholes(messages: seq<(nat, Bytes)>): (us: seq<Unit>)
    ensures |us| == |messages|
  {
    seq(|messages|, k requires 0 <= k < |messages| => Whole(messages[k].0))
  }

  function UnitsOf(p: Packet): seq<Unit> {
    match p
    case SmallReliable(_, _, messages) => Wholes(messages)
    case ReliableSlice(_, _, slice) => [Part(slice.messageId, slice.sliceIndex)]
    case _ => []
  }

  function Units(packets: seq<Packet>): seq<Unit> {
    if packets == [] then []
    else Units(packets[..|packets| - 1]) + UnitsOf(packets[|packets| - 1])
  }

  /** A message may be resent once the resend time has passed. */
  predicate Elapsed(last: Option<nat>, now: nat, resendTime: nat) {
    last.None? || now - last.value >= resendTime
  }

  predicate Due(s: Sender, u: Unit, now: nat) {
    && u.id in s.unacked
    && match s.unacked[u.id]
       case Small(_, last) => u.Whole? && Elapsed(last, now, s.resendTime)
       case Sliced(_, n, _, _, acked, last) =>
         && u.Part? && u.index < n == |acked| == |last|
         && !acked[u.index] && Elapsed(last[u.index], now, s.resendTime)
  }

  /** The budget that must be left for the unit to go out. */
  function Need(s: Sender, u: Unit): nat
    requires u.id in s.unacked
  {
    if u.Whole? then |s.unacked[u.id].message| else SLICE_SIZE
  }

  ghost predicate Carries(s: Sender, p: Packet) {
    match p
    case SmallReliable(_, ch, messages) => ch == s.channelId && CarriesAll(s, messages)
    case ReliableSlice(_, ch, slice) =>
      && ch == s.channelId && slice.messageId in s.unacked
      && var u := s.unacked[slice.messageId];
         u.Sliced? && slice.sliceIndex < NumSlices(|u.message|)
         && slice == SliceOf(u.message, slice.messageId, slice.sliceIndex)
    case _ => false
  }

  ghost predicate CarriesAll(s: Sender, messages: seq<(nat, Bytes)>) {
    forall k :: 0 <= k < |messages| ==>
      && messages[k].0 in s.unacked && s.unacked[messages[k].0].Small?
      && messages[k].1 == s.unacked[messages[k].0].message
  }

  ghost predicate NoRepeat(us: seq<Unit>) {
    forall u :: multiset(us)[u] <= 1
  }

  /** The slice of message `id` that was sent last. */
  function LastPart(sent: seq<Unit>, id: nat): (r: Option<nat>)
    ensures r.Some? ==> Part(id, r.value) in sent
    ensures r.None? ==> forall i: nat :: Part(id, i) !in sent
  {
    if sent == [] then None
    else
      var u := sent[|sent| - 1];
      if u.Part? && u.id == id then Some(u.index) else LastPart(sent[..|sent| - 1], id)
  }

  /**
   * `u'` is `u` with its timers set for the units of message `id` that were sent, and the next
   * round starting after the last.
   */
  ghost predicate Stamped(u: UnackedMessage, u': UnackedMessage, id: nat, sent: seq<Unit>, now: nat) {
    match u
    case Small(m, last) => u' == Small(m, if Whole(id) in sent then Some(now) else last)
    case Sliced(m, n, numAcked, next, acked, last) =>
      && u'.Sliced? && u' == u.(nextSlice := u'.nextSlice, sliceLastSent := u'.sliceLastSent)
      && |u'.sliceLastSent| == |last|
      && (forall i :: 0 <= i < |last| ==>
            u'.sliceLastSent[i] == if Part(id, i) in sent then Some(now) else last[i])
      && u'.nextSlice == (if LastPart(sent, id).Some? then LastPart(sent, id).value + 1 else next)
  }

  // ----- Bytes

  function MessageBytes(messages: seq<(nat, Bytes)>): nat {
    if messages == [] then 0
    else MessageBytes(messages[..|messages| - 1]) + |messages[|messages| - 1].1|
  }

  function PacketBytes(p: Packet): nat {
    match p
    case SmallReliable(_, _, messages) => MessageBytes(messages)
    case SmallUnreliable(_, _, payloads) => BytesOf(payloads)
    case ReliableSlice(_, _, slice) => |slice.payload|
    case UnreliableSlice(_, _, slice) => |slice.payload|
    case Ack(_, _) => 0
  }

  function TotalBytes(packets: seq<Packet>): nat {
    if packets == [] then 0
    else TotalBytes(packets[..|packets| - 1]) + PacketBytes(packets[|packets| - 1])
  }

  function SerializedSize(id: nat, m: Bytes): nat {
    |m| + VarintLen(|m|) + VarintLen(id)
  }

  function GroupSize(messages: seq<(nat, Bytes)>): nat {
    if messages == [] then 0
    else
      var (id, m) := messages[|messages| - 1];
      GroupSize(messages[..|messages| - 1]) + SerializedSize(id, m)
  }

  /** A packet of small messages stays within a slice, unless it is one message that cannot. */
  predicate Fits(messages: seq<(nat, Bytes)>) {
    GroupSize(messages) <= SLICE_SIZE || |messages| == 1
  }

  // ----- The pass

  /** Where a pass stands: stored messages, packets made, small messages waiting, budget left. */
  datatype Pass = Pass(
    unacked: map<nat, UnackedMessage>,
    packets: seq<Packet>,
    small: seq<(nat, Bytes)>,
    available: nat)

  function Sent(p: Pass): seq<Unit> {
    Units(p.packets) + Wholes(p.small)
  }

  ghost predicate PacketsOk(s: Sender, packets: seq<Packet>, sequence: nat) {
    forall i :: 0 <= i < |packets| ==>
      && Carries(s, packets[i])
      && packets[i].sequence == sequence + i
      && (packets[i].SmallReliable? ==> Fits(packets[i].messages))
  }

  /** Units of messages below `bound` have gone out exactly when they were due and affordable. */
  ghost predicate SentOk(s: Sender, sent: seq<Unit>, bound: nat, available: nat, now: nat) {
    && NoRepeat(sent)
    && (forall u :: u in sent ==> u.id < bound && Due(s, u, now))
    && (forall u: Unit :: u.id < bound && Due(s, u, now) && u !in sent ==> available < Need(s, u))
  }

  ghost predicate TimersOk(s: Sender, unacked: map<nat, UnackedMessage>, sent: seq<Unit>, now: nat) {
    && unacked.Keys == s.unacked.Keys
    && (forall id :: id in s.unacked ==> Stamped(s.unacked[id], unacked[id], id, sent, now))
  }

  /** What holds after the messages with an id below `bound` have been looked at. */
  ghost predicate PassInv(s: Sender, p: Pass, bound: nat, sequence: nat, budget: nat, now: nat) {
    && PacketsOk(s, p.packets, sequence)
    && CarriesAll(s, p.small) && Fits(p.small)
    && SentOk(s, Sent(p), bound, p.available, now)
    && TimersOk(s, p.unacked, Sent(p), now)
    && TotalBytes(p.packets) + MessageBytes(p.small) + p.available == budget
  }

  /** What a whole pass does to a channel. */
  ghost predicate SendPass(s: Sender, s': Sender, packets: seq<Packet>,
                           sequence: nat, budget: nat, available: nat, now: nat) {
    && s' == s.(unacked := s'.unacked)
    && PacketsOk(s, packets, sequence)
    && SentOk(s, Units(packets), s.nextId, available, now)
    && TimersOk(s, s'.unacked, Units(packets), now)
    && TotalBytes(packets) + available == budget
  }

  /** Timers and the place to go on from change, and nothing the channel accounts for. */
  lemma StampedKept(s: Sender, id: nat, u': UnackedMessage, sent: seq<Unit>, now: nat)
    requires id in s.unacked && WellKept(s.unacked[id]) && Stamped(s.unacked[id], u', id, sent, now)
    requires forall u :: u in sent ==> Due(s, u, now)
    ensures WellKept(u') && u'.message == s.unacked[id].message
  {
    hide Count;
    if LastPart(sent, id).Some? {
      assert Due(s, Part(id, LastPart(sent, id).value), now);
    }
  }

  lemma SendPassInv(s: Sender, s': Sender, packets: seq<Packet>, sequence: nat, budget: nat, available: nat, now: nat)
    requires Inv(s) && SendPass(s, s', packets, sequence, budget, available, now)
    ensures Inv(s')
  {
    hide WellKept;
    hide Stamped;
    hide PacketsOk;
    hide NoRepeat;
    hide Due;
    forall id | id in s.unacked
      ensures WellKept(s'.unacked[id]) && s'.unacked[id].message == s.unacked[id].message
    {
      StampedKept(s, id, s'.unacked[id], Units(packets), now);
    }
    assert Lengths(s'.unacked) == Lengths(s.unacked);
  }

  lemma UnitsSnoc(packets: seq<Packet>, p: Packet)
    ensures Units(packets + [p]) == Units(packets) + UnitsOf(p)
    ensures TotalBytes(packets + [p]) == TotalBytes(packets) + PacketBytes(p)
  {
    assert (packets + [p])[..|packets|] == packets;
  }

  lemma {:induction false} UnitsConcat(a: seq<Packet>, b: seq<Packet>)
    ensures Units(a + b) == Units(a) + Units(b)
  {
    hide UnitsOf;
    if b == [] {
      assert a + b == a;
    } else {
      var front, last := b[..|b| - 1], b[|b| - 1];
      assert a + b == (a + front) + [last];
      UnitsConcat(a, front);
      UnitsSnoc(a + front, last);
      calc {
        Units(a + b);
        (Units(a) + Units(front)) + UnitsOf(last);
        Units(a) + (Units(front) + UnitsOf(last));
        Units(a) + Units(b);
      }
    }
  }

  lemma {:induction false} BytesConcat(a: seq<Packet>, b: seq<Packet>)
    ensures TotalBytes(a + b) == TotalBytes(a) + TotalBytes(b)
  {
    if b == [] {
      assert a + b == a;
    } else {
      var front, last := b[..|b| - 1], b[|b| - 1];
      assert a + b == (a + front) + [last];
      BytesConcat(a, front);
      UnitsSnoc(a + front, last);
    }
  }

  lemma PacketsConcat(s: Sender, a: seq<Packet>, b: seq<Packet>, sequence: nat)
    requires PacketsOk(s, a, sequence) && PacketsOk(s, b, sequence + |a|)
    ensures PacketsOk(s, a + b, sequence)
  {
  }

  lemma SmallSnoc(small: seq<(nat, Bytes)>, id: nat, m: Bytes)
    ensures Wholes(small + [(id, m)]) == Wholes(small) + [Whole(id)]
    ensures MessageBytes(small + [(id, m)]) == MessageBytes(small) + |m|
    ensures GroupSize(small + [(id, m)]) == GroupSize(small) + SerializedSize(id, m)
  {
    assert (small + [(id, m)])[..|small|] == small;
  }

  lemma PassStart(s: Sender, sequence: nat, budget: nat, now: nat)
    ensures PassInv(s, Pass(s.unacked, [], [], budget), 0, sequence, budget, now)
  {
    hide BytesOf;
    hide Due;
    assert Sent(Pass(s.unacked, [], [], budget)) == [];
  }

  /** Nothing can or need be sent of the next message. */
  lemma PassSkip(s: Sender, p: Pass, id: nat, sequence: nat, budget: nat, now: nat)
    requires PassInv(s, p, id, sequence, budget, now)
    requires forall u: Unit :: u.id == id && Due(s, u, now) ==> p.available < Need(s, u)
    ensures PassInv(s, p, id + 1, sequence, budget, now)
  {
  }

  function Flushed(s: Sender, p: Pass, sequence: nat): Pass {
    p.(packets := p.packets + [SmallReliable(sequence + |p.packets|, s.channelId, p.small)], small := [])
  }

  lemma PassFlush(s: Sender, p: Pass, id: nat, sequence: nat, budget: nat, now: nat)
    requires PassInv(s, p, id, sequence, budget, now)
    ensures PassInv(s, Flushed(s, p, sequence), id, sequence, budget, now)
    ensures Units(Flushed(s, p, sequence).packets) == Sent(p)
  {
    hide SentOk;
    hide TimersOk;
    hide PacketsOk;
    hide Fits;
    hide CarriesAll;
    var packet := SmallReliable(sequence + |p.packets|, s.channelId, p.small);
    UnitsSnoc(p.packets, packet);
    SmallPacketOk(s, p.small, sequence + |p.packets|);
    PacketsConcat(s, p.packets, [packet], sequence);
    NothingWaits(s);
    assert Sent(Flushed(s, p, sequence)) == Sent(p);
  }

  lemma SmallPacketOk(s: Sender, small: seq<(nat, Bytes)>, sequence: nat)
    requires CarriesAll(s, small) && Fits(small)
    ensures PacketsOk(s, [SmallReliable(sequence, s.channelId, small)], sequence)
  {
  }

  lemma NothingWaits(s: Sender)
    ensures CarriesAll(s, []) && Fits([])
  {
  }

  lemma StampedNext(s: Sender, unacked: map<nat, UnackedMessage>, sent: seq<Unit>, more: seq<Unit>,
                    id: nat, u: UnackedMessage, now: nat)
    requires TimersOk(s, unacked, sent, now) && id in s.unacked
    requires forall x :: x in sent ==> x.id != id
    requires forall x: Unit :: x.id != id ==> (x in more <==> x in sent)
    requires forall k :: k != id ==> LastPart(more, k) == LastPart(sent, k)
    requires Stamped(s.unacked[id], u, id, more, now)
    ensures TimersOk(s, unacked[id := u], more, now)
  {
    hide LastPart;
    forall k | k in s.unacked && k != id
      ensures Stamped(s.unacked[k], unacked[k], k, more, now)
    {
      assert Stamped(s.unacked[k], unacked[k], k, sent, now);
    }
  }

  lemma {:induction false} LastPartConcat(a: seq<Unit>, b: seq<Unit>, id: nat)
    ensures LastPart(a + b, id) == if LastPart(b, id).Some? then LastPart(b, id) else LastPart(a, id)
    decreases |b|
  {
    if b == [] {
      assert a + b == a;
    } else {
      LastPartConcat(a, b[..|b| - 1], id);
      assert (a + b)[..|a + b| - 1] == a + b[..|b| - 1];
    }
  }

  /** Units of one message put in between change what was sent last of that message only. */
  lemma LastParts(a: seq<Unit>, mid: seq<Unit>, b: seq<Unit>, id: nat)
    requires (forall x :: x in mid ==> x.id == id) && (forall x :: x in a + b ==> x.id != id)
    ensures LastPart(a + mid + b, id) == LastPart(mid, id)
    ensures forall k :: k != id ==> LastPart(a + mid + b, k) == LastPart(a + b, k)
  {
    hide LastPart;
    assert forall x :: x in a || x in b ==> x in a + b;
    forall k: nat
      ensures k == id ==> LastPart(a + mid + b, k) == LastPart(mid, k)
      ensures k != id ==> LastPart(a + mid + b, k) == LastPart(a + b, k)
    {
      LastPartConcat(a + mid, b, k);
      LastPartConcat(a, mid, k);
      LastPartConcat(a, b, k);
    }
  }

  lemma NoRepeatInsert(a: seq<Unit>, mid: seq<Unit>, b: seq<Unit>)
    requires NoRepeat(a + b) && NoRepeat(mid)
    requires forall x :: x in mid ==> x !in a + b
    ensures NoRepeat(a + mid + b)
    ensures forall x :: x in a + mid + b <==> x in a + b || x in mid
  {
    assert multiset(a + mid + b) == multiset(a + b) + multiset(mid);
    assert forall x :: x in a + mid + b <==> x in multiset(a + mid + b);
    assert forall x :: x in a + b <==> x in multiset(a + b);
    assert forall x :: x in mid <==> x in multiset(mid);
  }

  lemma SentMore(s: Sender, a: seq<Unit>, mid: seq<Unit>, b: seq<Unit>, id: nat, available: nat, available': nat,
                 now: nat)
    requires SentOk(s, a + b, id, available, now) && available' <= available
    requires NoRepeat(mid) && (forall x :: x in mid ==> x.id == id && Due(s, x, now))
    requires forall u: Unit :: u.id == id && Due(s, u, now) && u !in mid ==> available' < Need(s, u)
    ensures SentOk(s, a + mid + b, id + 1, available', now)
    ensures forall x :: x in a + b ==> x.id != id
    ensures forall x :: x in a + mid + b <==> x in a + b || x in mid
  {
    NoRepeatInsert(a, mid, b);
  }

  lemma SmallJoins(s: Sender, small: seq<(nat, Bytes)>, id: nat)
    requires CarriesAll(s, small) && id in s.unacked && s.unacked[id].Small?
    requires small == [] || GroupSize(small) + SerializedSize(id, s.unacked[id].message) <= SLICE_SIZE
    ensures CarriesAll(s, small + [(id, s.unacked[id].message)]) && Fits(small + [(id, s.unacked[id].message)])
  {
    SmallSnoc(small, id, s.unacked[id].message);
  }

  lemma SmallStamped(u: UnackedMessage, id: nat, sent: seq<Unit>, now: nat)
    requires u.Small? && Whole(id) in sent
    ensures Stamped(u, Small(u.message, Some(now)), id, sent, now)
  {
  }

  lemma OnlyWhole(s: Sender, id: nat, now: nat)
    requires id in s.unacked && s.unacked[id].Small?
    ensures NoRepeat([Whole(id)]) && forall u: Unit :: u.id == id && Due(s, u, now) ==> u in [Whole(id)]
  {
  }

  /** One small message joins those waiting. */
  lemma PassPush(s: Sender, p: Pass, id: nat, sequence: nat, budget: nat, now: nat)
    requires PassInv(s, p, id, sequence, budget, now)
    requires id in s.unacked && s.unacked[id].Small? && Due(s, Whole(id), now)
    requires |s.unacked[id].message| <= p.available
    requires p.small == [] || GroupSize(p.small) + SerializedSize(id, s.unacked[id].message) <= SLICE_SIZE
    ensures var m := s.unacked[id].message;
            PassInv(s, Pass(p.unacked[id := Small(m, Some(now))], p.packets, p.small + [(id, m)], p.available - |m|),
                    id + 1, sequence, budget, now)
  {
    hide SentOk;
    hide TimersOk;
    hide PacketsOk;
    hide Stamped;
    hide LastPart;
    hide Fits;
    hide CarriesAll;
    hide GroupSize;
    hide SerializedSize;
    hide MessageBytes;
    hide TotalBytes;
    hide Units;
    hide Wholes;
    var m := s.unacked[id].message;
    var p' := Pass(p.unacked[id := Small(m, Some(now))], p.packets, p.small + [(id, m)], p.available - |m|);
    SmallSnoc(p.small, id, m);
    SmallJoins(s, p.small, id);
    OnlyWhole(s, id, now);
    assert Sent(p) + [] == Sent(p);
    assert Sent(p') == Sent(p) + [Whole(id)] == Sent(p) + [Whole(id)] + [];
    SentMore(s, Sent(p), [Whole(id)], [], id, p.available, p'.available, now);
    LastParts(Sent(p), [Whole(id)], [], id);
    SmallStamped(s.unacked[id], id, Sent(p'), now);
    StampedNext(s, p.unacked, Sent(p), Sent(p'), id, Small(m, Some(now)), now);
  }

  /** The slices of message `id` that went out: each due, none twice, and all that the budget allowed. */
  ghost predicate SlicesSent(s: Sender, id: nat, u: UnackedMessage, packets: seq<Packet>,
                             sequence: nat, budget: nat, available: nat, now: nat)
  {
    && id in s.unacked && s.unacked[id].Sliced?
    && PacketsOk(s, packets, sequence)
    && NoRepeat(Units(packets))
    && (forall x :: x in Units(packets) ==> x.id == id && Due(s, x, now))
    && (forall x: Unit :: x.id == id && Due(s, x, now) && x !in Units(packets) ==> available < SLICE_SIZE)
    && Stamped(s.unacked[id], u, id, Units(packets), now)
    && TotalBytes(packets) + available == budget
  }

  lemma PassSlices(s: Sender, p: Pass, id: nat, u: UnackedMessage, packets: seq<Packet>,
                   sequence: nat, budget: nat, available: nat, now: nat)
    requires PassInv(s, p, id, sequence, budget, now)
    requires SlicesSent(s, id, u, packets, sequence + |p.packets|, p.available, available, now)
    ensures PassInv(s, Pass(p.unacked[id := u], p.packets + packets, p.small, available),
                    id + 1, sequence, budget, now)
  {
    hide SentOk;
    hide TimersOk;
    hide Stamped;
    hide PacketsOk;
    var p' := Pass(p.unacked[id := u], p.packets + packets, p.small, available);
    PacketsConcat(s, p.packets, packets, sequence);
    UnitsConcat(p.packets, packets);
    BytesConcat(p.packets, packets);
    SentMore(s, Units(p.packets), Units(packets), Wholes(p.small), id, p.available, available, now);
    LastParts(Units(p.packets), Units(packets), Wholes(p.small), id);
    StampedAlso(s.unacked[id], u, id, Units(packets), Sent(p'), now);
    StampedNext(s, p.unacked, Sent(p), Sent(p'), id, u, now);
  }

  lemma StampedAlso(u: UnackedMessage, u': UnackedMessage, id: nat, sent: seq<Unit>, more: seq<Unit>, now: nat)
    requires Stamped(u, u', id, sent, now)
    requires forall x: Unit :: x.id == id ==> (x in more <==> x in sent)
    requires LastPart(more, id) == LastPart(sent, id)
    ensures Stamped(u, u', id, more, now)
  {
    hide LastPart;
  }

  lemma PassEnd(s: Sender, p: Pass, sequence: nat, budget: nat, now: nat)
    requires PassInv(s, p, s.nextId, sequence, budget, now) && p.small == []
    ensures SendPass(s, s.(unacked := p.unacked), p.packets, sequence, budget, p.available, now)
  {
    assert Sent(p) == Units(p.packets);
  }
}
