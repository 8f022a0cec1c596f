/**
 * The order an unreliable channel keeps on an ordered substrate. The comments in the source promise
 * that it behaves like a reliable ordered one (renet2/src/channel/unreliable.rs); these lemmas say
 * exactly when a pass does, and what a whole run then delivers.
 */
module UnreliableOrder {
  import opened Base
  import opened Sums
  import opened Slicing
  import opened SliceConstruction
  import opened Varint
  import opened UnreliableSending
  import opened ChannelTurns
  import UR = UnreliableReceiving

  // ----- One pass

  /** What a pass hands to the substrate, followed by what stays queued, is the queue as it was. */
  ghost predicate KeepsOrder(queue: seq<Bytes>, budget: nat, plan: seq<Item>) {
    MessagesOf(plan) + Remaining(queue, budget, true) == queue
  }

  /** The messages the budget does not pay for. */
  function Overflow(queue: seq<Bytes>, budget: nat): seq<Bytes> {
    queue[FitCount(queue, budget)..]
  }

  /**
   * A pass keeps the order exactly when it sends no small message before a long one and the
   * messages that overflow read the same both ways.
   */
  lemma KeepsOrderExactly(queue: seq<Bytes>, budget: nat, plan: seq<Item>, firstId: nat)
    requires Sends(Chosen(queue, budget, true), plan, firstId)
    ensures var rest := Overflow(queue, budget);
            KeepsOrder(queue, budget, plan) <==> LongFirst(Chosen(queue, budget, true)) && Reversed(rest) == rest
  {
    hide LongFirst;
    hide FitCount;
    hide PlanOk;
    var n := FitCount(queue, budget);
    SameParts(MessagesOf(plan), Reversed(queue[n..]), queue, n);
  }

  lemma SameParts(a: seq<Bytes>, b: seq<Bytes>, queue: seq<Bytes>, n: nat)
    requires n <= |queue| && multiset(a) == multiset(queue[..n])
    ensures a + b == queue <==> a == queue[..n] && b == queue[n..]
  {
    assert |multiset(a)| == |multiset(queue[..n])|;
    assert queue[..n] + queue[n..] == queue;
    if a + b == queue {
      assert a == (a + b)[..n] && b == (a + b)[n..];
    }
  }

  ghost predicate Distinct(queue: seq<Bytes>) {
    forall i, j :: 0 <= i < j < |queue| ==> queue[i] != queue[j]
  }

  /** At most one message reads the same both ways; of messages that differ, no more than one does. */
  lemma TurnedRound(rest: seq<Bytes>)
    ensures |rest| <= 1 ==> Reversed(rest) == rest
    ensures Distinct(rest) && Reversed(rest) == rest ==> |rest| <= 1
  {
    if |rest| > 1 {
      assert Reversed(rest)[0] == rest[|rest| - 1];
    }
  }

  /** Two messages that overflow together change places. */
  lemma OverflowSwaps(a: Bytes, b: Bytes)
    requires a != b && |a| > 0
    ensures Chosen([a, b], 0, true) == [] && Remaining([a, b], 0, true) == [b, a]
  {
    assert [a, b][0..] == [a, b];
  }

  /** A long message overtakes the small one queued before it, whatever the budget that pays for both. */
  lemma LongOvertakes(small: Bytes, long: Bytes, budget: nat, firstId: nat)
    requires !Long(small) && Long(long) && |small| + |long| <= budget
    ensures var taken := Chosen([small, long], budget, true);
            && taken == [small, long] && Remaining([small, long], budget, true) == []
            && MessagesOf(PlanOf(taken, firstId)) == [long, small]
  {
    var queue := [small, long];
    BothFit(small, long, budget);
    assert queue[..2] == queue && queue[2..] == [];
    hide FitCount;
    hide PlanOf;
    hide PlanOk;
    hide MessagesOf;
    PlanOfSends(queue, firstId);
    assert Long(queue[1]) && !Long(queue[0]);
    OtherWayRound(MessagesOf(PlanOf(queue, firstId)), small, long);
  }

  lemma BothFit(a: Bytes, b: Bytes, budget: nat)
    requires |a| + |b| <= budget
    ensures FitCount([a, b], budget) == 2
  {
    assert [a, b][1..] == [b] && [b][1..] == [];
    assert FitCount([b], budget - |a|) == 1 + FitCount([], budget - |a| - |b|);
  }

  lemma OtherWayRound(out: seq<Bytes>, a: Bytes, b: Bytes)
    requires multiset(out) == multiset([a, b]) && out != [a, b]
    ensures out == [b, a]
  {
    assert |multiset(out)| == 2;
    assert out == [out[0], out[1]];
    assert out[0] in multiset(out) && out[1] in multiset(out) && a in multiset(out) && b in multiset(out);
  }

  // ----- A pass that would keep the order

  /** Packing with the small messages that wait sent ahead of a long one. */
  function InOrder(taken: seq<Bytes>, firstId: nat): (seq<Item>, seq<Bytes>) {
    if taken == [] then ([], [])
    else
      var (plan, small) := InOrder(taken[..|taken| - 1], firstId);
      var m := taken[|taken| - 1];
      if Long(m) then
        var flushed := if small == [] then plan else plan + [Group(small)];
        (flushed + [Whole(firstId + Wholes(flushed), m)], [])
      else if GroupSize(small) + |m| + VarintLen(|m|) > SLICE_SIZE then (plan + [Group(small)], [m])
      else (plan, small + [m])
  }

  function InOrderPlan(taken: seq<Bytes>, firstId: nat): seq<Item> {
    var (plan, small) := InOrder(taken, firstId);
    if small == [] then plan else plan + [Group(small)]
  }

  /** A plan for some messages, in order, and the small ones that still wait. */
  ghost predicate Orderly(taken: seq<Bytes>, plan: seq<Item>, small: seq<Bytes>, firstId: nat) {
    PlanOk(plan, firstId) && SmallOk(small) && MessagesOf(plan) + small == taken
  }

  lemma OrderlyFlush(taken: seq<Bytes>, plan: seq<Item>, small: seq<Bytes>, firstId: nat)
    requires Orderly(taken, plan, small, firstId)
    ensures Orderly(taken, plan + [Group(small)], [], firstId)
  {
    hide PlanOk;
    PlanOkSnoc(plan, Group(small), firstId);
    PlanSnoc(plan, Group(small), 0, 0);
  }

  lemma OrderlyLong(taken: seq<Bytes>, plan: seq<Item>, firstId: nat, m: Bytes)
    requires Orderly(taken, plan, [], firstId) && Long(m)
    ensures Orderly(taken + [m], plan + [Whole(firstId + Wholes(plan), m)], [], firstId)
  {
    hide PlanOk;
    hide Wholes;
    hide MessagesOf;
    hide PacketsOf;
    hide SmallOk;
    PlanOkSnoc(plan, Whole(firstId + Wholes(plan), m), firstId);
    PlanSnoc(plan, Whole(firstId + Wholes(plan), m), 0, 0);
  }

  lemma OrderlySmall(taken: seq<Bytes>, plan: seq<Item>, small: seq<Bytes>, firstId: nat, m: Bytes)
    requires Orderly(taken, plan, small, firstId) && !Long(m)
    requires small == [] || GroupSize(small) + |m| + VarintLen(|m|) <= SLICE_SIZE
    ensures Orderly(taken + [m], plan, small + [m], firstId)
  {
    hide PlanOk;
    hide MessagesOf;
    hide VarintLen;
    assert (small + [m])[..|small|] == small;
    assert MessagesOf(plan) + (small + [m]) == (MessagesOf(plan) + small) + [m];
  }

  lemma {:induction false} InOrderIs(taken: seq<Bytes>, firstId: nat)
    ensures var (plan, small) := InOrder(taken, firstId);
            Orderly(taken, plan, small, firstId)
  {
    hide Orderly;
    hide Wholes;
    hide GroupSize;
    hide VarintLen;
    if taken == [] {
      assert Orderly([], [], [], firstId) by {
        NothingOrderly(firstId);
      }
    } else {
      var front, m := taken[..|taken| - 1], taken[|taken| - 1];
      assert taken == front + [m];
      InOrderIs(front, firstId);
      var (plan, small) := InOrder(front, firstId);
      if Long(m) {
        if small != [] {
          OrderlyFlush(front, plan, small, firstId);
        }
        OrderlyLong(front, if small == [] then plan else plan + [Group(small)], firstId, m);
      } else if GroupSize(small) + |m| + VarintLen(|m|) > SLICE_SIZE {
        OrderlyFlush(front, plan, small, firstId);
        OrderlySmall(front, plan + [Group(small)], [], firstId, m);
        assert [] + [m] == [m];
      } else {
        OrderlySmall(front, plan, small, firstId, m);
      }
    }
  }

  lemma NothingOrderly(firstId: nat)
    ensures Orderly([], [], [], firstId)
  {
  }

  lemma InOrderPlanIs(taken: seq<Bytes>, firstId: nat)
    ensures var plan := InOrderPlan(taken, firstId);
            PlanOk(plan, firstId) && MessagesOf(plan) == taken
  {
    hide InOrder;
    hide PlanOk;
    hide SmallOk;
    hide MessagesOf;
    var (plan, small) := InOrder(taken, firstId);
    InOrderIs(taken, firstId);
    if small != [] {
      OrderlyFlush(taken, plan, small, firstId);
    }
  }

  /** The plan that packing comes to. */
  lemma {:induction false} PackedIs(taken: seq<Bytes>, firstId: nat)
    ensures var (plan, small) := Packed(taken, firstId);
            Packing(taken, plan, small, firstId)
  {
    hide Packing;
    hide Wholes;
    hide GroupSize;
    hide VarintLen;
    if taken == [] {
      PackStart(firstId);
    } else {
      var front, m := taken[..|taken| - 1], taken[|taken| - 1];
      assert taken == front + [m];
      PackedIs(front, firstId);
      var (plan, small) := Packed(front, firstId);
      if Long(m) {
        PackLong(front, plan, small, firstId, m);
      } else if GroupSize(small) + |m| + VarintLen(|m|) > SLICE_SIZE {
        PackFlush(front, plan, small, firstId, m);
      } else {
        PackSmall(front, plan, small, firstId, m);
      }
    }
  }

  lemma PlanOfSends(taken: seq<Bytes>, firstId: nat)
    ensures Sends(taken, PlanOf(taken, firstId), firstId)
  {
    hide Packed;
    hide Packing;
    hide Sends;
    var (plan, small) := Packed(taken, firstId);
    PackedIs(taken, firstId);
    PackEnd(taken, plan, small, firstId);
  }

  // ----- A receiver that gets every packet, in order

  /** The channel after one packet. */
  ghost function Took(r: UR.Receiver, p: Packet, now: nat): UR.Receiver
    requires UR.Inv(r)
  {
    match p
    case SmallUnreliable(_, _, payloads) => Queued(r, payloads)
    case UnreliableSlice(_, _, slice) => if UR.Consistent(r, slice) then UR.ProcessSlice(r, slice, now).0 else r
    case _ => r
  }

  lemma {:induction false} QueuedIs(r: UR.Receiver, payloads: seq<Bytes>)
    requires UR.Inv(r)
    ensures UR.Inv(Queued(r, payloads))
    ensures r.memory + BytesOf(payloads) <= r.maxMemory ==>
              Queued(r, payloads) == r.(messages := r.messages + payloads, memory := r.memory + BytesOf(payloads))
    decreases |payloads|
  {
    hide UR.Inv;
    if payloads == [] {
      assert r.messages + [] == r.messages;
    } else {
      BytesFront(payloads);
      UR.ProcessMessageInv(r, payloads[0]);
      QueuedIs(UR.ProcessMessage(r, payloads[0]), payloads[1..]);
      assert r.messages + [payloads[0]] + payloads[1..] == r.messages + payloads;
    }
  }

  lemma TookInv(r: UR.Receiver, p: Packet, now: nat)
    requires UR.Inv(r)
    ensures UR.Inv(Took(r, p, now))
  {
    hide UR.Inv;
    hide UR.ProcessSlice;
    match p
    case SmallUnreliable(_, _, payloads) => QueuedIs(r, payloads);
    case UnreliableSlice(_, _, slice) =>
      if UR.Consistent(r, slice) {
        UR.ProcessSliceInv(r, slice, now);
      }
    case _ =>
  }

  ghost function Fed(r: UR.Receiver, packets: seq<Packet>, now: nat): (r': UR.Receiver)
    requires UR.Inv(r)
    ensures UR.Inv(r')
  {
    if packets == [] then r
    else
      var before := Fed(r, packets[..|packets| - 1], now);
      TookInv(before, packets[|packets| - 1], now);
      Took(before, packets[|packets| - 1], now)
  }

  lemma {:induction false} FedMore(r: UR.Receiver, a: seq<Packet>, b: seq<Packet>, now: nat)
    requires UR.Inv(r)
    ensures Fed(r, a + b, now) == Fed(Fed(r, a, now), b, now)
    decreases |b|
  {
    hide UR.Inv;
    hide Took;
    if b == [] {
      assert a + b == a;
    } else {
      assert (a + b)[..|a + b| - 1] == a + b[..|b| - 1];
      FedMore(r, a, b[..|b| - 1], now);
    }
  }

  /** All is put together and there is nothing in progress. */
  ghost predicate Settled(r: UR.Receiver) {
    UR.Inv(r) && r.slices == map[]
  }

  /** The first `k` slices of `m` have arrived, and not all. */
  ghost predicate Partway(r: UR.Receiver, m: Bytes, id: nat, k: nat, now: nat, r': UR.Receiver) {
    && r' == r.(slices := r'.slices, lastReceived := map[id := now], memory := r.memory + NumSlices(|m|) * SLICE_SIZE)
    && r'.slices.Keys == {id} && PartOf(r'.slices[id], m)
    && forall j :: 0 <= j < NumSlices(|m|) ==> (r'.slices[id].received[j] <==> j < k)
  }

  /** What `k` slices in order come to: a constructor, or the message once all are in. */
  ghost predicate SlicesIn(r: UR.Receiver, m: Bytes, id: nat, k: nat, now: nat, r': UR.Receiver) {
    if k == 0 then r' == r
    else if k < NumSlices(|m|) then Partway(r, m, id, k, now, r')
    else r' == r.(messages := r.messages + [m], memory := r.memory + |m|)
  }

  lemma FirstSliceIn(r: UR.Receiver, m: Bytes, id: nat, now: nat)
    requires Settled(r) && Long(m) && r.memory + NumSlices(|m|) * SLICE_SIZE <= r.maxMemory
    ensures 0 < NumSlices(|m|) && UR.Consistent(r, SliceOf(m, id, 0))
    ensures SlicesIn(r, m, id, 1, now, UR.ProcessSlice(r, SliceOf(m, id, 0), now).0)
  {
    hide SliceConstruction.Accept;
    hide BytesOf;
    SliceBounds(m, 0);
    FreshIsPart(m);
    assert r.lastReceived == map[];
    hide UR.Inv;
    hide PartOf;
    AcceptHonest(Fresh(NumSlices(|m|)), m, 0);
    assert !Fresh(NumSlices(|m|)).received[1];
  }

  lemma FedSlice(r: UR.Receiver, m: Bytes, id: nat, k: nat, now: nat)
    requires UR.Inv(r) && k < NumSlices(|m|) && id in r.slices && PartOf(r.slices[id], m)
    ensures var s, a := SliceOf(m, id, k), r.slices[id];
            && UR.Consistent(r, s) && Open(a) && s.numSlices * SLICE_SIZE <= r.memory
            && UR.ProcessSlice(r, s, now).0 == UR.Feed(r, s, now).0
  {
    hide BytesOf;
    UR.WithConstructorInv(r, SliceOf(m, id, k));
  }

  lemma MiddleSliceIn(r: UR.Receiver, m: Bytes, id: nat, k: nat, now: nat, r': UR.Receiver)
    requires Settled(r) && Long(m) && UR.Inv(r') && Partway(r, m, id, k, now, r') && 0 < k < NumSlices(|m|) - 1
    ensures UR.Consistent(r', SliceOf(m, id, k))
    ensures Partway(r, m, id, k + 1, now, UR.ProcessSlice(r', SliceOf(m, id, k), now).0)
  {
    hide SliceConstruction.Accept;
    hide UR.Inv;
    hide UR.ProcessSlice;
    FedSlice(r', m, id, k, now);
    AcceptHonest(r'.slices[id], m, k);
    assert !r'.slices[id].received[k + 1];
  }

  lemma LastSliceIn(r: UR.Receiver, m: Bytes, id: nat, k: nat, now: nat, r': UR.Receiver)
    requires Settled(r) && Long(m) && UR.Inv(r') && Partway(r, m, id, k, now, r') && 0 < k == NumSlices(|m|) - 1
    ensures UR.Consistent(r', SliceOf(m, id, k))
    ensures SlicesIn(r, m, id, k + 1, now, UR.ProcessSlice(r', SliceOf(m, id, k), now).0)
  {
    hide SliceConstruction.Accept;
    hide PartOf;
    hide UR.ProcessSlice;
    hide Open;
    hide BytesOf;
    assert r.lastReceived == map[];
    hide UR.Inv;
    FedSlice(r', m, id, k, now);
    AcceptHonest(r'.slices[id], m, k);
    assert r'.slices - {id} == map[] && r'.lastReceived - {id} == map[];
  }

  lemma SliceIn(r: UR.Receiver, m: Bytes, id: nat, ch: nat, first: nat, k: nat, now: nat, r': UR.Receiver)
    requires Settled(r) && Long(m) && r.memory + NumSlices(|m|) * SLICE_SIZE <= r.maxMemory
    requires k < NumSlices(|m|) && UR.Inv(r') && SlicesIn(r, m, id, k, now, r')
    ensures SlicesIn(r, m, id, k + 1, now, Took(r', UnreliableSlice(first, ch, SliceOf(m, id, k)), now))
  {
    hide UR.Inv;
    hide UR.ProcessSlice;
    hide Partway;
    hide SliceOf;
    if k == 0 {
      FirstSliceIn(r, m, id, now);
    } else if k < NumSlices(|m|) - 1 {
      MiddleSliceIn(r, m, id, k, now, r');
    } else {
      LastSliceIn(r, m, id, k, now, r');
    }
  }

  lemma {:induction false} LongIn(r: UR.Receiver, m: Bytes, id: nat, ch: nat, first: nat, k: nat, now: nat)
    requires Settled(r) && Long(m) && r.memory + NumSlices(|m|) * SLICE_SIZE <= r.maxMemory && k <= NumSlices(|m|)
    ensures SlicesIn(r, m, id, k, now, Fed(r, SlicePackets(m, id, ch, first)[..k], now))
    decreases k
  {
    hide UR.Inv;
    hide SlicesIn;
    hide SliceOf;
    hide Took;
    var packets := SlicePackets(m, id, ch, first);
    if k == 0 {
      assert packets[..0] == [];
      NothingIn(r, m, id, now);
    } else {
      LongIn(r, m, id, ch, first, k - 1, now);
      assert packets[..k][..k - 1] == packets[..k - 1];
      SliceIn(r, m, id, ch, first + (k - 1), k - 1, now, Fed(r, packets[..k - 1], now));
    }
  }

  lemma NothingIn(r: UR.Receiver, m: Bytes, id: nat, now: nat)
    ensures SlicesIn(r, m, id, 0, now, r)
  {
  }

  /** Memory that surely suffices for an item: a long message is given whole slices while it is put together. */
  function Needs(item: Item): nat {
    match item
    case Group(messages) => BytesOf(messages)
    case Whole(_, m) => NumSlices(|m|) * SLICE_SIZE
  }

  function NeedsAll(plan: seq<Item>): nat {
    if plan == [] then 0 else NeedsAll(plan[..|plan| - 1]) + Needs(plan[|plan| - 1])
  }

  lemma ItemIn(r: UR.Receiver, item: Item, ch: nat, first: nat, now: nat)
    requires Settled(r) && ItemOk(item) && r.memory + Needs(item) <= r.maxMemory
    ensures var r' := Fed(r, PacketsFor(item, ch, first), now);
            && r' == r.(messages := r.messages + Out(item), memory := r'.memory)
            && r'.memory <= r.memory + Needs(item)
  {
    hide UR.Inv;
    match item
    case Group(messages) =>
      var p := SmallUnreliable(first, ch, messages);
      assert [p][..0] == [];
      assert Fed(r, [p], now) == Took(r, p, now);
      QueuedIs(r, messages);
    case Whole(id, m) =>
      var packets := SlicePackets(m, id, ch, first);
      LongIn(r, m, id, ch, first, |packets|, now);
      assert packets[..|packets|] == packets;
  }

  /** Everything a plan sends comes out at the other end, in the order of the plan, byte for byte. */
  lemma {:induction false} PlanIn(r: UR.Receiver, plan: seq<Item>, firstId: nat, ch: nat, first: nat, now: nat)
    requires Settled(r) && PlanOk(plan, firstId) && r.memory + NeedsAll(plan) <= r.maxMemory
    ensures var r' := Fed(r, PacketsOf(plan, ch, first), now);
            && r' == r.(messages := r.messages + MessagesOf(plan), memory := r'.memory)
            && r'.memory <= r.memory + NeedsAll(plan)
    decreases |plan|
  {
    hide UR.Inv;
    hide ItemOk;
    hide PacketsFor;
    hide Needs;
    hide Out;
    if plan == [] {
      assert r.messages + [] == r.messages;
    } else {
      LastItem(plan, ch, first);
      hide Fed;
      hide MessagesOf;
      hide PacketsOf;
      hide NeedsAll;
      hide PlanOk;
      var front, item := plan[..|plan| - 1], plan[|plan| - 1];
      FrontOk(plan, firstId);
      PlanIn(r, front, firstId, ch, first, now);
      var packets := PacketsOf(front, ch, first);
      var r1 := Fed(r, packets, now);
      FedMore(r, packets, PacketsFor(item, ch, first + |packets|), now);
      ItemIn(r1, item, ch, first + |packets|, now);
      Regroup(r.messages, MessagesOf(front), Out(item));
    }
  }

  lemma Regroup(a: seq<Bytes>, b: seq<Bytes>, c: seq<Bytes>)
    ensures a + b + c == a + (b + c)
  {
  }

  lemma LastItem(plan: seq<Item>, ch: nat, first: nat)
    requires plan != []
    ensures var front, item := plan[..|plan| - 1], plan[|plan| - 1];
            && MessagesOf(plan) == MessagesOf(front) + Out(item) && NeedsAll(plan) == NeedsAll(front) + Needs(item)
            && var packets := PacketsOf(front, ch, first);
               PacketsOf(plan, ch, first) == packets + PacketsFor(item, ch, first + |packets|)
  {
    hide Out;
    hide Needs;
    hide PacketsFor;
  }

  lemma FrontOk(plan: seq<Item>, firstId: nat)
    requires PlanOk(plan, firstId) && plan != []
    ensures PlanOk(plan[..|plan| - 1], firstId) && ItemOk(plan[|plan| - 1])
  {
    hide ItemOk;
    hide Wholes;
    var front := plan[..|plan| - 1];
    forall i | 0 <= i < |front| && front[i].Whole?
      ensures front[i].id == firstId + Wholes(front[..i])
    {
      assert front[..i] == plan[..i];
    }
  }

  // ----- Whole runs

  datatype Event = Accept(m: Bytes) | Pass(budget: nat, ch: nat, first: nat, now: nat) | Receive

  /** A channel and its other end, with all that was accepted and all that was handed over. */
  datatype Stream = Stream(queue: seq<Bytes>, nextId: nat, r: UR.Receiver, handed: seq<Bytes>, log: seq<Bytes>)

  /** The plan of a pass and what it leaves queued, as the code has it or repaired. */
  function Plan(s: Stream, budget: nat, repaired: bool): seq<Item> {
    var taken := Chosen(s.queue, budget, true);
    if repaired then InOrderPlan(taken, s.nextId) else PlanOf(taken, s.nextId)
  }

  function Left(s: Stream, budget: nat, repaired: bool): seq<Bytes> {
    if repaired then Overflow(s.queue, budget) else Remaining(s.queue, budget, true)
  }

  /** Every packet of a pass arrives, in order, at a channel that has the memory for it. */
  ghost predicate Moves(s: Stream, e: Event, s': Stream, repaired: bool) {
    && UR.Inv(s.r)
    && match e
       case Accept(m) => s' == s.(queue := s.queue + [m], log := s.log + [m])
       case Receive =>
         var (r, message) := UR.Receive(s.r);
         s' == s.(r := r, handed := s.handed + if message.Some? then [message.value] else [])
       case Pass(budget, ch, first, now) =>
         var plan := Plan(s, budget, repaired);
         && s.r.memory + NeedsAll(plan) <= s.r.maxMemory
         && s' == s.(queue := Left(s, budget, repaired), nextId := s.nextId + Wholes(plan),
                     r := Fed(s.r, PacketsOf(plan, ch, first), now))
  }

  /** The condition under which a pass of the code keeps the order, which the caller can read off the queue. */
  ghost predicate Gentle(s: Stream, e: Event) {
    e.Pass? ==>
      LongFirst(Chosen(s.queue, e.budget, true)) && Reversed(Overflow(s.queue, e.budget)) == Overflow(s.queue, e.budget)
  }

  ghost predicate InLine(s: Stream) {
    Settled(s.r) && s.handed + s.r.messages + s.queue == s.log
  }

  lemma InOrderPass(s: Stream, budget: nat, repaired: bool)
    requires repaired || Gentle(s, Pass(budget, 0, 0, 0))
    ensures var plan := Plan(s, budget, repaired);
            PlanOk(plan, s.nextId) && MessagesOf(plan) + Left(s, budget, repaired) == s.queue
  {
    hide FitCount;
    hide PlanOk;
    hide PlanOf;
    hide InOrderPlan;
    hide MessagesOf;
    hide LongFirst;
    var n := FitCount(s.queue, budget);
    assert s.queue[..n] + s.queue[n..] == s.queue;
    if repaired {
      InOrderPlanIs(s.queue[..n], s.nextId);
    } else {
      PlanOfSends(s.queue[..n], s.nextId);
    }
  }

  lemma MovesInLine(s: Stream, e: Event, s': Stream, repaired: bool)
    requires InLine(s) && Moves(s, e, s', repaired) && (repaired || Gentle(s, e))
    ensures InLine(s')
  {
    hide UR.Inv;
    hide PlanOk;
    hide Fed;
    hide Plan;
    hide Left;
    hide NeedsAll;
    hide Gentle;
    match e
    case Accept(m) =>
      assert s.handed + s.r.messages + (s.queue + [m]) == s.handed + s.r.messages + s.queue + [m];
    case Receive =>
      if s.r.messages != [] {
        UR.ReceiveInv(s.r);
        var m := s.r.messages[0];
        assert s.handed + [m] + s.r.messages[1..] == s.handed + s.r.messages;
      } else {
        assert s.handed + [] == s.handed;
      }
    case Pass(budget, ch, first, now) =>
      var plan := Plan(s, budget, repaired);
      SameGentle(s, e);
      InOrderPass(s, budget, repaired);
      PlanIn(s.r, plan, s.nextId, ch, first, now);
      assert s.handed + (s.r.messages + MessagesOf(plan)) + s'.queue ==
               s.handed + s.r.messages + (MessagesOf(plan) + s'.queue);
  }

  lemma SameGentle(s: Stream, e: Event)
    requires e.Pass?
    ensures Gentle(s, e) <==> Gentle(s, Pass(e.budget, 0, 0, 0))
  {
  }

  /**
   * First in, first out, from end to end: what was handed over, then what waits at the receiver, then
   * what is queued is what was accepted, in order. It holds over every run of gentle passes of the
   * code, and over every run at all once the pass is repaired.
   */
  lemma {:induction false} Fifo(states: seq<Stream>, events: seq<Event>, repaired: bool, maxMemory: nat)
    requires |states| == |events| + 1 && states[0] == Stream([], 0, UR.Empty(maxMemory), [], [])
    requires forall i :: 0 <= i < |events| ==> Moves(states[i], events[i], states[i + 1], repaired)
    requires repaired || forall i :: 0 <= i < |events| ==> Gentle(states[i], events[i])
    ensures var s := states[|events|];
            s.handed + s.r.messages + s.queue == s.log && s.handed <= s.log
    decreases |events|
  {
    FifoInLine(states, events, repaired, maxMemory);
    var s := states[|events|];
    assert s.handed + s.r.messages + s.queue == s.handed + (s.r.messages + s.queue);
  }

  lemma {:induction false} FifoInLine(states: seq<Stream>, events: seq<Event>, repaired: bool, maxMemory: nat)
    requires |states| == |events| + 1 && states[0] == Stream([], 0, UR.Empty(maxMemory), [], [])
    requires forall i :: 0 <= i < |events| ==> Moves(states[i], events[i], states[i + 1], repaired)
    requires repaired || forall i :: 0 <= i < |events| ==> Gentle(states[i], events[i])
    ensures InLine(states[|events|])
    decreases |events|
  {
    hide Moves;
    hide Gentle;
    if events == [] {
      UR.EmptyInv(maxMemory);
    } else {
      hide InLine;
      var n := |events| - 1;
      FifoInLine(states[..n + 1], events[..n], repaired, maxMemory);
      MovesInLine(states[n], events[n], states[n + 1], repaired);
    }
  }
}
