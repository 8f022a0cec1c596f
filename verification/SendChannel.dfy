/** The sending channel object (renet2/src/channel/reliable.rs, `SendChannelReliable`). */
module ReliableSendChannel {
  import opened Base
  import opened Sums
  import opened Slicing
  import opened Varint
  import opened SendPasses
  import opened GreedyPasses
  import S = ReliableSending

  /** The step of the round in which slice `x` is looked at: `Rotated` visits each slice once. */
  function StepOf(start: nat, x: nat, n: nat): (i: nat)
    requires x < n && start <= n
    ensures i < n && Rotated(start, i, n) == x
    ensures forall k :: 0 <= k < n && Rotated(start, k, n) == x ==> k == i
  {
    if start == n then x else if start <= x then x - start else x + n - start
  }

  lemma RotatedIsMod(start: nat, i: nat, n: nat)
    requires i < n && start <= n
    ensures (start + i) % n == Rotated(start, i, n)
  {
    if start + i < n {
    } else {
      assert (start + i) - n == (start + i) % n by {
        ModOnce(start + i, n);
      }
    }
  }

  lemma ModOnce(a: nat, n: nat)
    requires 0 < n <= a < 2 * n
    ensures a % n == a - n
  {
    var q := a / n;
    assert a == q * n + a % n;
    assert q == 1;
  }

  /** The first `i` steps of the round over the slices of message `id` have been taken. */
  ghost predicate RoundInv(s: S.Sender, id: nat, u: S.UnackedMessage, packets: seq<Packet>, start: nat, i: nat,
                           sequence: nat, budget: nat, available: nat, now: nat)
  {
    && id in s.unacked && S.WellKept(s.unacked[id]) && s.unacked[id].Sliced?
    && start <= s.unacked[id].numSlices && i <= s.unacked[id].numSlices
    && PacketsOk(s, packets, sequence)
    && NoRepeat(Units(packets))
    && (forall x :: x in Units(packets) ==>
          x.id == id && Due(s, x, now) && StepOf(start, x.index, s.unacked[id].numSlices) < i)
    && (forall x: Unit ::
          x.id == id && Due(s, x, now) && StepOf(start, x.index, s.unacked[id].numSlices) < i && x !in Units(packets)
          ==> available < SLICE_SIZE)
    && Stamped(s.unacked[id], u, id, Units(packets), now)
    && TotalBytes(packets) + available == budget
  }

  lemma RoundSkip(s: S.Sender, id: nat, u: S.UnackedMessage, packets: seq<Packet>, start: nat, i: nat,
                  sequence: nat, budget: nat, available: nat, now: nat)
    requires RoundInv(s, id, u, packets, start, i, sequence, budget, available, now)
    requires i < s.unacked[id].numSlices
    requires !Due(s, Part(id, Rotated(start, i, s.unacked[id].numSlices)), now)
    ensures RoundInv(s, id, u, packets, start, i + 1, sequence, budget, available, now)
  {
  }

  lemma NoRepeatSnoc(us: seq<Unit>, u: Unit)
    requires NoRepeat(us) && u !in us
    ensures NoRepeat(us + [u])
    ensures forall x :: x in us + [u] <==> x in us || x == u
  {
    assert multiset(us + [u]) == multiset(us) + multiset{u};
    assert u !in multiset(us);
  }

  lemma StampSlice(u: S.UnackedMessage, u': S.UnackedMessage, id: nat, sent: seq<Unit>, x: nat, now: nat)
    requires u.Sliced? && Stamped(u, u', id, sent, now) && x < |u.sliceLastSent|
    ensures Stamped(u, u'.(nextSlice := x + 1, sliceLastSent := u'.sliceLastSent[x := Some(now)]), id,
                    sent + [Part(id, x)], now)
  {
    assert forall y :: y in sent + [Part(id, x)] <==> y in sent || y == Part(id, x);
    assert LastPart(sent + [Part(id, x)], id) == Some(x);
  }

  lemma RoundSend(s: S.Sender, id: nat, u: S.UnackedMessage, packets: seq<Packet>, start: nat, i: nat,
                  sequence: nat, budget: nat, available: nat, now: nat)
    requires RoundInv(s, id, u, packets, start, i, sequence, budget, available, now)
    requires i < s.unacked[id].numSlices && available >= SLICE_SIZE
    requires Due(s, Part(id, Rotated(start, i, s.unacked[id].numSlices)), now)
    ensures var x := Rotated(start, i, s.unacked[id].numSlices);
            var slice := SliceOf(s.unacked[id].message, id, x);
            u.Sliced? && x < |u.sliceLastSent| &&
            RoundInv(s, id, u.(nextSlice := x + 1, sliceLastSent := u.sliceLastSent[x := Some(now)]),
                     packets + [ReliableSlice(sequence + |packets|, s.channelId, slice)], start, i + 1,
                     sequence, budget, available - |slice.payload|, now)
  {
    hide Stamped;
    hide PacketsOk;
    hide NoRepeat;
    hide UnitsOf;
    var x := Rotated(start, i, s.unacked[id].numSlices);
    var slice := SliceOf(s.unacked[id].message, id, x);
    var p := ReliableSlice(sequence + |packets|, s.channelId, slice);
    UnitsSnoc(packets, p);
    SlicePacket(s, id, x, sequence + |packets|);
    PacketsConcat(s, packets, [p], sequence);
    NoRepeatSnoc(Units(packets), Part(id, x));
    StampedShape(s.unacked[id], u, id, Units(packets), now);
    StampSlice(s.unacked[id], u, id, Units(packets), x, now);
  }

  lemma SlicePacket(s: S.Sender, id: nat, x: nat, sequence: nat)
    requires id in s.unacked && s.unacked[id].Sliced? && x < NumSlices(|s.unacked[id].message|)
    ensures var p := ReliableSlice(sequence, s.channelId, SliceOf(s.unacked[id].message, id, x));
            PacketsOk(s, [p], sequence) && UnitsOf(p) == [Part(id, x)]
            && PacketBytes(p) == |p.slice.payload|
  {
  }

  lemma StampedShape(u: S.UnackedMessage, u': S.UnackedMessage, id: nat, sent: seq<Unit>, now: nat)
    requires u.Sliced? && Stamped(u, u', id, sent, now)
    ensures u'.Sliced? && |u'.sliceLastSent| == |u.sliceLastSent|
  {
  }

  lemma RoundEnd(s: S.Sender, id: nat, u: S.UnackedMessage, packets: seq<Packet>, start: nat, i: nat,
                 sequence: nat, budget: nat, available: nat, now: nat)
    requires RoundInv(s, id, u, packets, start, i, sequence, budget, available, now)
    requires i == s.unacked[id].numSlices || available < SLICE_SIZE
    ensures SlicesSent(s, id, u, packets, sequence, budget, available, now)
  {
  }

  class SendChannelReliable {
    const channelId: nat
    const resendTime: nat
    const maxMemory: nat
    var unacked: map<nat, S.UnackedMessage>
    var nextId: nat
    var memory: nat

    ghost function View(): S.Sender
      reads this
    {
      S.Sender(channelId, unacked, nextId, resendTime, memory, maxMemory)
    }

    ghost predicate Valid()
      reads this
    {
      S.Inv(View())
    }

    constructor (channelId: nat, resendTime: nat, maxMemory: nat)
      ensures Valid() && View() == S.Empty(channelId, resendTime, maxMemory)
    {
      this.channelId, this.resendTime, this.maxMemory := channelId, resendTime, maxMemory;
      unacked, nextId, memory := map[], 0, 0;
    }

    method SendMessage(message: Bytes) returns (r: Result<(), ChannelError>)
      requires Valid()
      modifies this
      ensures Valid()
      ensures (View(), r) == S.SendMessage(old(View()), message)
    {
      S.SendMessageInv(View(), message);
      if memory + |message| > maxMemory {
        return Err(ReliableChannelMaxMemoryReached);
      }
      memory := memory + |message|;
      var unackedMessage;
      if |message| > SLICE_SIZE {
        var numSlices := NumSlices(|message|);
        unackedMessage := S.Sliced(message, numSlices, 0, 0, seq(numSlices, _ => false), seq(numSlices, _ => None));
      } else {
        unackedMessage := S.Small(message, None);
      }
      unacked := unacked[nextId := unackedMessage];
      nextId := nextId + 1;
      return Ok(());
    }

    method ProcessMessageAck(messageId: nat)
      requires Valid() && S.MessageAckOk(View(), messageId)
      modifies this
      ensures Valid() && View() == S.AckMessage(old(View()), messageId)
    {
      if messageId in unacked {
        S.FreedFits(View(), messageId);
        var payload := unacked[messageId].message;
        unacked := unacked - {messageId};
        memory := memory - |payload|;
      }
    }

    method ProcessSliceMessageAck(messageId: nat, sliceIndex: nat)
      requires Valid() && S.SliceAckOk(View(), messageId, sliceIndex)
      modifies this
      ensures Valid() && View() == S.AckSlice(old(View()), messageId, sliceIndex)
    {
      if messageId !in unacked {
        return;
      }
      var u := unacked[messageId];
      if u.acked[sliceIndex] {
        return;
      }
      S.FreedFits(View(), messageId);
      hide S.Inv;
      u := u.(acked := u.acked[sliceIndex := true], numAcked := u.numAcked + 1);
      if u.numAcked == u.numSlices {
        memory := memory - |u.message|;
        unacked := unacked - {messageId};
      } else {
        S.AckSliceInv(View(), messageId, sliceIndex);
        unacked := unacked[messageId := u];
      }
    }

    /** The round over the slices of one message, starting where the last one stopped. */
    method SendSlices(ghost s: S.Sender, id: nat, u: S.UnackedMessage, sequence: nat, availableBytes: nat, now: nat,
                      ghost sent: seq<Unit>, ghost budget: nat)
      returns (u': S.UnackedMessage, packets: seq<Packet>, available: nat)
      requires id in s.unacked && s.unacked[id] == u && S.WellKept(u) && u.Sliced?
      requires s.channelId == channelId && s.resendTime == resendTime
      requires Follows(s, sent, Queue(s, id, now), budget, availableBytes)
      ensures SlicesSent(s, id, u', packets, sequence, availableBytes, available, now)
      ensures forall k :: 0 <= k < |packets| ==> packets[k].ReliableSlice?
      ensures Follows(s, sent + Units(packets), Queue(s, id, now) + QueueOf(s, id, now), budget, available)
    {
      hide RoundInv;
      hide SlicesSent;
      hide Follows;
      hide Queue;
      hide DueSlices;
      hide Units;
      u', packets, available := u, [], availableBytes;
      var start, n := u.nextSlice, u.numSlices;
      var i := 0;
      RoundStart(s, id, sequence, availableBytes, now);
      SlicesStart(s, id, sent, availableBytes, budget, now);
      while i < n
        invariant 0 <= i <= n
        invariant u'.Sliced? && |u'.sliceLastSent| == n
        invariant u' == u.(nextSlice := u'.nextSlice, sliceLastSent := u'.sliceLastSent)
        invariant forall k :: i <= k < n ==>
                    u'.sliceLastSent[Rotated(start, k, n)] == u.sliceLastSent[Rotated(start, k, n)]
        invariant RoundInv(s, id, u', packets, start, i, sequence, availableBytes, available, now)
        invariant forall k :: 0 <= k < |packets| ==> packets[k].ReliableSlice?
        invariant Follows(s, sent + Units(packets), Queue(s, id, now) + DueSlices(s, id, i, now), budget, available)
      {
        if available < SLICE_SIZE {
          break;
        }
        RotatedIsMod(start, i, n);
        var x := (start + i) % n;
        if u.acked[x] {
          RoundSkip(s, id, u', packets, start, i, sequence, availableBytes, available, now);
          SlicesSkip(s, id, i, sent + Units(packets), available, budget, now);
          i := i + 1;
          continue;
        }
        if u'.sliceLastSent[x].Some? && now - u'.sliceLastSent[x].value < resendTime {
          RoundSkip(s, id, u', packets, start, i, sequence, availableBytes, available, now);
          SlicesSkip(s, id, i, sent + Units(packets), available, budget, now);
          i := i + 1;
          continue;
        }
        RoundSend(s, id, u', packets, start, i, sequence, availableBytes, available, now);
        SliceBounds(u.message, x);
        var end := if x == n - 1 then |u.message| else (x + 1) * SLICE_SIZE;
        var payload := u.message[x * SLICE_SIZE..end];
        available := available - |payload|;
        var slice := Slice(id, x, n, payload);
        SlicesNext(s, id, i, sent, packets, ReliableSlice(sequence + |packets|, channelId, slice),
                   available + |payload|, budget, now);
        packets := packets + [ReliableSlice(sequence + |packets|, channelId, slice)];
        u' := u'.(nextSlice := x + 1, sliceLastSent := u'.sliceLastSent[x := Some(now)]);
        i := i + 1;
      }
      RoundEnd(s, id, u', packets, start, i, sequence, availableBytes, available, now);
      SlicesEnd(s, id, i, sent + Units(packets), available, budget, now);
    }

    /** Adds one small message to those waiting; if they would outgrow a slice, they go out first. */
    method PackSmall(ghost s: S.Sender, ghost p: Pass, id: nat, message: Bytes,
                     packets: seq<Packet>, small: seq<(nat, Bytes)>, smallBytes: nat,
                     packetSequence: nat, ghost budget: nat, ghost now: nat)
      returns (packets': seq<Packet>, small': seq<(nat, Bytes)>, smallBytes': nat)
      requires PassInv(s, p, id, packetSequence, budget, now) && Tightly(packets, small)
      requires p.packets == packets && p.small == small && smallBytes == GroupSize(small)
      requires id in s.unacked && s.unacked[id].Small? && s.unacked[id].message == message
      requires Elapsed(s.unacked[id].lastSent, now, s.resendTime) && |message| <= p.available
      requires s.channelId == channelId
      ensures smallBytes' == GroupSize(small') && AlsoSent(packets, small, packets', small', [Whole(id)])
      ensures Tightly(packets', small')
      ensures PassInv(s, Pass(p.unacked[id := S.Small(message, Some(now))], packets', small', p.available - |message|),
                      id + 1, packetSequence, budget, now)
    {
      hide PassInv;
      hide AlsoSent;
      hide Tightly;
      TightlyPush(packets, small, SmallReliable(packetSequence + |packets|, channelId, small), id, message);
      AlsoFlushed(packets, small, SmallReliable(packetSequence + |packets|, channelId, small), id, message);
      packets', small', smallBytes' := packets, small, smallBytes;
      var serializedSize := |message| + VarintLen(|message|) + VarintLen(id);
      ghost var q := p;
      if smallBytes + serializedSize > SLICE_SIZE {
        PassFlush(s, p, id, packetSequence, budget, now);
        q := Flushed(s, p, packetSequence);
        packets' := packets + [SmallReliable(packetSequence + |packets|, channelId, small)];
        small', smallBytes' := [], 0;
      }
      PassPush(s, q, id, packetSequence, budget, now);
      SmallSnoc(small', id, message);
      smallBytes' := smallBytes' + serializedSize;
      small' := small' + [(id, message)];
    }

    method GetPacketsToSend(packetSequence: nat, availableBytes: nat, now: nat)
      returns (packets: seq<Packet>, sequence: nat, available: nat)
      requires Valid() && S.SentBefore(View(), now)
      modifies this`unacked
      ensures Valid() && S.SentBefore(View(), now)
      ensures SendPass(old(View()), View(), packets, packetSequence, availableBytes, available, now)
      ensures Greedy(old(View()), packets, availableBytes, available, now) && Tight(Groups(packets))
      ensures sequence == packetSequence + |packets|
    {
      hide Picked;
      hide Tightly;
      hide Tight;
      hide Groups;
      hide AlsoSent;
      hide Follows;
      hide Greedy;
      hide QueueOf;
      hide Queue;
      hide Units;
      hide Wholes;
      hide PassInv;
      hide SendPass;
      hide SlicesSent;
      hide S.Inv;
      hide S.SentBefore;
      hide Due;
      hide S.WellKept;
      packets, sequence, available := [], packetSequence, availableBytes;
      ghost var s := View();
      PassStart(s, packetSequence, availableBytes, now);
      PickedStart(s, availableBytes, now);
      TightlyStart();
      var small, smallBytes := [], 0;
      var id := 0;
      while id < nextId
        modifies this`unacked
        invariant 0 <= id <= nextId
        invariant sequence == packetSequence + |packets| && smallBytes == GroupSize(small)
        invariant unacked.Keys == s.unacked.Keys && forall k :: id <= k && k in unacked ==> unacked[k] == s.unacked[k]
        invariant PassInv(s, Pass(unacked, packets, small, available), id, packetSequence, availableBytes, now)
        invariant Picked(s, packets, small, id, availableBytes, available, now) && Tightly(packets, small)
      {
        ghost var p := Pass(unacked, packets, small, available);
        if id !in unacked {
          PassSkipAbsent(s, p, id, packetSequence, availableBytes, now);
          QueueAbsent(s, id, now);
          PickedNone(s, packets, small, id, availableBytes, available, now);
        } else {
          var u := unacked[id];
          match u
          case Small(message, lastSent) =>
            if available < |message| || (lastSent.Some? && now - lastSent.value < resendTime) {
              PassSkipSmall(s, p, id, packetSequence, availableBytes, now);
              PickedSkipSmall(s, packets, small, id, availableBytes, available, now);
            } else {
              packets, small, smallBytes :=
                PackSmall(s, p, id, message, packets, small, smallBytes, packetSequence, availableBytes, now);
              PickedSmall(s, p.packets, p.small, packets, small, id, availableBytes, available, now);
              sequence := packetSequence + |packets|;
              available := available - |message|;
              unacked := unacked[id := S.Small(message, Some(now))];
            }
          case _ =>
            KeptAt(s, id);
            PickedFollows(s, packets, small, id, availableBytes, available, now);
            var u', slicePackets, left :=
              SendSlices(s, id, u, sequence, available, now, Units(packets) + Wholes(small), availableBytes);
            PickedSlices(s, packets, small, slicePackets, id, availableBytes, left, now);
            TightlySlices(packets, small, slicePackets);
            PassSlices(s, p, id, u', slicePackets, packetSequence, availableBytes, left, now);
            packets := packets + slicePackets;
            sequence := sequence + |slicePackets|;
            available := left;
            unacked := unacked[id := u'];
        }
        id := id + 1;
      }
      TightlyEnd(packets, small, SmallReliable(sequence, channelId, small));
      if small != [] {
        PassFlush(s, Pass(unacked, packets, small, available), id, packetSequence, availableBytes, now);
        PickedFlush(s, packets, small, SmallReliable(sequence, channelId, small), id, availableBytes, available, now);
        packets := packets + [SmallReliable(sequence, channelId, small)];
        small := [];
        sequence := sequence + 1;
      }
      PickedAll(s, packets, availableBytes, available, now);
      PassEnd(s, Pass(unacked, packets, small, available), packetSequence, availableBytes, now);
      PassKeeps(s, View(), packets, packetSequence, availableBytes, available, now);
    }
  }

  lemma QueueAbsent(s: S.Sender, id: nat, now: nat)
    requires id !in s.unacked
    ensures QueueOf(s, id, now) == []
  {
  }

  lemma PickedFollows(s: S.Sender, packets: seq<Packet>, small: seq<(nat, Bytes)>, id: nat, budget: nat,
                      available: nat, now: nat)
    requires Picked(s, packets, small, id, budget, available, now)
    ensures Follows(s, Units(packets) + Wholes(small), Queue(s, id, now), budget, available)
  {
  }

  ghost predicate InRound(s: S.Sender, id: nat, i: nat) {
    id in s.unacked && s.unacked[id].Sliced? && S.WellKept(s.unacked[id]) && i <= s.unacked[id].numSlices
  }

  lemma SlicesStart(s: S.Sender, id: nat, sent: seq<Unit>, available: nat, budget: nat, now: nat)
    requires InRound(s, id, 0) && Follows(s, sent, Queue(s, id, now), budget, available)
    ensures Follows(s, sent + Units([]), Queue(s, id, now) + DueSlices(s, id, 0, now), budget, available)
  {
    hide Follows;
    assert sent + Units([]) == sent && Queue(s, id, now) + [] == Queue(s, id, now);
  }

  lemma SlicesSkip(s: S.Sender, id: nat, i: nat, sent: seq<Unit>, available: nat, budget: nat, now: nat)
    requires InRound(s, id, i + 1) && Follows(s, sent, Queue(s, id, now) + DueSlices(s, id, i, now), budget, available)
    requires !Due(s, Part(id, Rotated(s.unacked[id].nextSlice, i, s.unacked[id].numSlices)), now)
    ensures Follows(s, sent, Queue(s, id, now) + DueSlices(s, id, i + 1, now), budget, available)
  {
    hide Follows;
    DueSlicesStep(s, id, i, now);
    assert DueSlices(s, id, i, now) + [] == DueSlices(s, id, i, now);
  }

  lemma SlicesNext(s: S.Sender, id: nat, i: nat, sent: seq<Unit>, packets: seq<Packet>, p: Packet, available: nat,
                   budget: nat, now: nat)
    requires InRound(s, id, i + 1) && available >= SLICE_SIZE
    requires Follows(s, sent + Units(packets), Queue(s, id, now) + DueSlices(s, id, i, now), budget, available)
    requires var x := Rotated(s.unacked[id].nextSlice, i, s.unacked[id].numSlices);
             Due(s, Part(id, x), now) && p.ReliableSlice? && p.slice == SliceOf(s.unacked[id].message, id, x)
    ensures |p.slice.payload| <= available
    ensures Follows(s, sent + Units(packets + [p]), Queue(s, id, now) + DueSlices(s, id, i + 1, now), budget,
                    available - |p.slice.payload|)
  {
    hide Follows;
    var x := Rotated(s.unacked[id].nextSlice, i, s.unacked[id].numSlices);
    var queue := Queue(s, id, now) + DueSlices(s, id, i, now);
    SliceBounds(s.unacked[id].message, x);
    DueSlicesStep(s, id, i, now);
    UnitsSnoc(packets, p);
    assert sent + Units(packets + [p]) == (sent + Units(packets)) + [Part(id, x)];
    assert Queue(s, id, now) + DueSlices(s, id, i + 1, now) == queue + [Part(id, x)];
    FollowsNext(s, sent + Units(packets), queue, Part(id, x), sent + Units(packets + [p]), budget, available,
                available - |p.slice.payload|);
  }

  lemma SlicesEnd(s: S.Sender, id: nat, i: nat, sent: seq<Unit>, available: nat, budget: nat, now: nat)
    requires InRound(s, id, i) && Follows(s, sent, Queue(s, id, now) + DueSlices(s, id, i, now), budget, available)
    requires available < SLICE_SIZE || i == s.unacked[id].numSlices
    ensures Follows(s, sent, Queue(s, id, now) + QueueOf(s, id, now), budget, available)
  {
    hide Follows;
    DueStored(s, Queue(s, id, now), now);
    FollowsNoMore(s, sent, Queue(s, id, now), id, i, now, budget, available);
  }

  lemma {:induction false} DueInSlices(s: S.Sender, id: nat, i: nat, x: nat, now: nat)
    requires InRound(s, id, i) && x < s.unacked[id].numSlices && Due(s, Part(id, x), now)
    requires StepOf(s.unacked[id].nextSlice, x, s.unacked[id].numSlices) < i
    ensures Part(id, x) in DueSlices(s, id, i, now)
  {
    hide Due;
    if StepOf(s.unacked[id].nextSlice, x, s.unacked[id].numSlices) < i - 1 {
      DueInSlices(s, id, i - 1, x, now);
    }
  }

  /** The queue holds exactly the units that are due. */
  lemma {:induction false} QueueIsDue(s: S.Sender, bound: nat, u: Unit, now: nat)
    requires S.Inv(s)
    ensures u in Queue(s, bound, now) <==> Due(s, u, now) && u.id < bound
  {
    if bound > 0 {
      QueueIsDue(s, bound - 1, u, now);
      QueueOfIsDue(s, bound - 1, u, now);
    }
  }

  lemma QueueOfIsDue(s: S.Sender, id: nat, u: Unit, now: nat)
    requires S.Inv(s)
    ensures u in QueueOf(s, id, now) <==> Due(s, u, now) && u.id == id
  {
    hide Count;
    if id in s.unacked && s.unacked[id].Sliced? {
      KeptAt(s, id);
      OwnSlices(s, id, s.unacked[id].numSlices, now);
      if u.id == id && Due(s, u, now) {
        DueInSlices(s, id, s.unacked[id].numSlices, u.index, now);
      }
    }
  }

  lemma {:induction false} OwnSlices(s: S.Sender, id: nat, i: nat, now: nat)
    requires InRound(s, id, i)
    ensures forall u :: u in DueSlices(s, id, i, now) ==> u.id == id
  {
    hide Due;
    if i > 0 {
      OwnSlices(s, id, i - 1, now);
    }
  }

  lemma KeptAt(s: S.Sender, id: nat)
    requires S.Inv(s) && id in s.unacked
    ensures S.WellKept(s.unacked[id])
  {
  }

  lemma PassSkipAbsent(s: S.Sender, p: Pass, id: nat, sequence: nat, budget: nat, now: nat)
    requires PassInv(s, p, id, sequence, budget, now) && id !in s.unacked
    ensures PassInv(s, p, id + 1, sequence, budget, now)
  {
    PassSkip(s, p, id, sequence, budget, now);
  }

  lemma PassSkipSmall(s: S.Sender, p: Pass, id: nat, sequence: nat, budget: nat, now: nat)
    requires PassInv(s, p, id, sequence, budget, now)
    requires id in s.unacked && s.unacked[id].Small?
    requires p.available < |s.unacked[id].message| || !Elapsed(s.unacked[id].lastSent, now, s.resendTime)
    ensures PassInv(s, p, id + 1, sequence, budget, now)
  {
    PassSkip(s, p, id, sequence, budget, now);
  }

  /** A pass touches nothing but timers. */
  lemma PassKeeps(s: S.Sender, s': S.Sender, packets: seq<Packet>, sequence: nat, budget: nat, available: nat, now: nat)
    requires S.Inv(s) && S.SentBefore(s, now) && SendPass(s, s', packets, sequence, budget, available, now)
    ensures S.Inv(s') && S.SentBefore(s', now)
  {
    hide PacketsOk;
    hide NoRepeat;
    SendPassInv(s, s', packets, sequence, budget, available, now);
    hide S.Inv;
  }

  lemma RoundStart(s: S.Sender, id: nat, sequence: nat, budget: nat, now: nat)
    requires id in s.unacked && S.WellKept(s.unacked[id]) && s.unacked[id].Sliced?
    ensures RoundInv(s, id, s.unacked[id], [], s.unacked[id].nextSlice, 0, sequence, budget, budget, now)
  {
  }

  // ----- The order of the queue

  ghost predicate IsSlice(s: S.Sender, u: Unit, id: nat) {
    && u.Part? && u.id == id && id in s.unacked && s.unacked[id].Sliced?
    && 0 < s.unacked[id].numSlices && s.unacked[id].nextSlice <= s.unacked[id].numSlices
  }

  /** How many slices lie between the next one to send and this one, going round. */
  ghost function Ahead(s: S.Sender, u: Unit): nat
    requires IsSlice(s, u, u.id)
  {
    (u.index + s.unacked[u.id].numSlices - s.unacked[u.id].nextSlice) % s.unacked[u.id].numSlices
  }

  /** Messages go by age; the slices of a message go round from the next one to send. */
  ghost predicate Earlier(s: S.Sender, u: Unit, v: Unit) {
    u.id < v.id || (IsSlice(s, u, v.id) && IsSlice(s, v, v.id) && Ahead(s, u) < Ahead(s, v))
  }

  ghost predicate InLine(s: S.Sender, us: seq<Unit>) {
    forall p, q :: 0 <= p < q < |us| ==> Earlier(s, us[p], us[q])
  }

  lemma InLineJoined(s: S.Sender, a: seq<Unit>, b: seq<Unit>)
    requires InLine(s, a) && InLine(s, b)
    requires forall p, q :: 0 <= p < |a| && 0 <= q < |b| ==> Earlier(s, a[p], b[q])
    ensures InLine(s, a + b)
  {
    hide Earlier;
  }

  lemma AheadIsStep(s: S.Sender, id: nat, i: nat)
    requires InRound(s, id, i) && i < s.unacked[id].numSlices
    ensures var u := Part(id, Rotated(s.unacked[id].nextSlice, i, s.unacked[id].numSlices));
            IsSlice(s, u, id) && Ahead(s, u) == i
  {
    hide Count;
    var n, start := s.unacked[id].numSlices, s.unacked[id].nextSlice;
    if start + i < n {
      ModOnce(i + n, n);
    }
  }

  /** Each slice that is due comes after those of the steps before. */
  lemma {:induction false} SlicesInLine(s: S.Sender, id: nat, i: nat, now: nat)
    requires InRound(s, id, i)
    ensures InLine(s, DueSlices(s, id, i, now))
    ensures forall u :: u in DueSlices(s, id, i, now) ==> IsSlice(s, u, id) && Ahead(s, u) < i
  {
    hide Due;
    hide S.WellKept;
    hide Ahead;
    hide InLine;
    if i == 0 {
      NoneInLine(s);
    } else {
      RoundBound(s, id, i);
      SlicesInLine(s, id, i - 1, now);
      AheadIsStep(s, id, i - 1);
      DueSlicesStep(s, id, i - 1, now);
      var us := DueSlices(s, id, i - 1, now);
      var u := Part(id, Rotated(s.unacked[id].nextSlice, i - 1, s.unacked[id].numSlices));
      forall p | 0 <= p < |us|
        ensures Earlier(s, us[p], u)
      {
        assert us[p] in us;
      }
      OneInLine(s, u);
      InLineJoined(s, us, [u]);
      assert us + [] == us;
    }
  }

  lemma NoneInLine(s: S.Sender)
    ensures InLine(s, [])
  {
  }

  lemma OneInLine(s: S.Sender, u: Unit)
    ensures InLine(s, [u])
  {
  }

  lemma RoundBound(s: S.Sender, id: nat, i: nat)
    requires InRound(s, id, i)
    ensures 0 < s.unacked[id].numSlices && s.unacked[id].nextSlice <= s.unacked[id].numSlices
  {
  }

  lemma MessageInLine(s: S.Sender, id: nat, now: nat)
    requires S.Inv(s)
    ensures InLine(s, QueueOf(s, id, now)) && forall u :: u in QueueOf(s, id, now) ==> u.id == id
  {
    hide Due;
    hide Earlier;
    hide Ahead;
    if id in s.unacked && s.unacked[id].Sliced? {
      KeptAt(s, id);
      SlicesInLine(s, id, s.unacked[id].numSlices, now);
    }
  }

  /** The queue is in order: with `QueueIsDue` this leaves no other queue. */
  lemma {:induction false} QueueInLine(s: S.Sender, bound: nat, now: nat)
    requires S.Inv(s)
    ensures InLine(s, Queue(s, bound, now)) && forall u :: u in Queue(s, bound, now) ==> u.id < bound
  {
    hide S.Inv;
    hide InLine;
    hide QueueOf;
    if bound == 0 {
      NoneInLine(s);
    } else {
      QueueInLine(s, bound - 1, now);
      MessageInLine(s, bound - 1, now);
      var front, own := Queue(s, bound - 1, now), QueueOf(s, bound - 1, now);
      forall p, q | 0 <= p < |front| && 0 <= q < |own|
        ensures Earlier(s, front[p], own[q])
      {
        assert front[p] in front && own[q] in own;
      }
      InLineJoined(s, front, own);
    }
  }
}
