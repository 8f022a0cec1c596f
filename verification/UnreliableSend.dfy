/** Sending side of an unreliable channel (renet2/src/channel/unreliable.rs). */
module UnreliableSending {
  import opened Base
  import opened Sums
  import opened Slicing
  import opened Varint

  predicate Long(m: Bytes) {
    |m| > SLICE_SIZE
  }

  function Reversed(queue: seq<Bytes>): (r: seq<Bytes>)
    ensures |r| == |queue| && forall i :: 0 <= i < |r| ==> r[i] == queue[|queue| - 1 - i]
  {
    if queue == [] then [] else [queue[|queue| - 1]] + Reversed(queue[..|queue| - 1])
  }

  /** How many messages from the front of the queue the budget pays for, one after the other. */
  function FitCount(queue: seq<Bytes>, budget: nat): (n: nat)
    ensures n <= |queue|
  {
    if queue == [] || budget < |queue[0]| then 0 else 1 + FitCount(queue[1..], budget - |queue[0]|)
  }

  /** On a substrate that is not ordered, messages the budget does not pay for are dropped. */
  function Affordable(queue: seq<Bytes>, budget: nat): seq<Bytes> {
    if queue == [] then []
    else if budget < |queue[0]| then Affordable(queue[1..], budget)
    else [queue[0]] + Affordable(queue[1..], budget - |queue[0]|)
  }

  /** What a pass sends from the queue. */
  function Chosen(queue: seq<Bytes>, budget: nat, ordered: bool): seq<Bytes> {
    if ordered then queue[..FitCount(queue, budget)] else Affordable(queue, budget)
  }

  /** What a pass keeps. The code puts messages back one by one at the front, which turns them round. */
  function Remaining(queue: seq<Bytes>, budget: nat, ordered: bool): seq<Bytes> {
    if ordered then Reversed(queue[FitCount(queue, budget)..]) else []
  }

  /** The messages sent are the longest front of the queue that the budget pays for. */
  lemma {:induction false} FitsExactly(queue: seq<Bytes>, budget: nat, n: nat)
    requires n <= |queue|
    ensures n <= FitCount(queue, budget) <==> BytesOf(queue[..n]) <= budget
    decreases |queue|
  {
    if n > 0 {
      assert queue[..n][1..] == queue[1..][..n - 1];
      BytesFront(queue[..n]);
      if |queue[0]| <= budget {
        FitsExactly(queue[1..], budget - |queue[0]|, n - 1);
      }
    }
  }

  /** A message is sent exactly when the budget pays for it on top of those already chosen. */
  lemma {:induction false} AffordableExactly(queue: seq<Bytes>, m: Bytes, budget: nat)
    ensures BytesOf(Affordable(queue, budget)) <= budget
    ensures Affordable(queue + [m], budget) ==
              Affordable(queue, budget) + if BytesOf(Affordable(queue, budget)) + |m| <= budget then [m] else []
    decreases |queue|
  {
    if queue == [] {
      assert [m] == [] + [m];
    } else {
      assert (queue + [m])[1..] == queue[1..] + [m];
      if budget < |queue[0]| {
        AffordableExactly(queue[1..], m, budget);
      } else {
        var rest := Affordable(queue[1..], budget - |queue[0]|);
        AffordableExactly(queue[1..], m, budget - |queue[0]|);
        BytesFront([queue[0]] + rest);
        assert ([queue[0]] + rest)[1..] == rest;
      }
    }
  }

  /** What goes out in one go: a packet of small messages, or the slices of a long one. */
  datatype Item = Group(messages: seq<Bytes>) | Whole(id: nat, message: Bytes)

  function Out(item: Item): seq<Bytes> {
    if item.Group? then item.messages else [item.message]
  }

  function MessagesOf(plan: seq<Item>): seq<Bytes> {
    if plan == [] then [] else MessagesOf(plan[..|plan| - 1]) + Out(plan[|plan| - 1])
  }

  function SlicePackets(m: Bytes, id: nat, ch: nat, first: nat): (ps: seq<Packet>)
    ensures |ps| == NumSlices(|m|)
  {
    seq(NumSlices(|m|), i requires 0 <= i < NumSlices(|m|) => UnreliableSlice(first + i, ch, SliceOf(m, id, i)))
  }

  function PacketsFor(item: Item, ch: nat, first: nat): seq<Packet> {
    match item
    case Group(messages) => [SmallUnreliable(first, ch, messages)]
    case Whole(id, m) => SlicePackets(m, id, ch, first)
  }

  /** The packets a plan comes out as, numbered from `first`. */
  function PacketsOf(plan: seq<Item>, ch: nat, first: nat): seq<Packet> {
    if plan == [] then []
    else
      var front := PacketsOf(plan[..|plan| - 1], ch, first);
      front + PacketsFor(plan[|plan| - 1], ch, first + |front|)
  }

  function GroupSize(messages: seq<Bytes>): nat {
    if messages == [] then 0
    else
      var m := messages[|messages| - 1];
      GroupSize(messages[..|messages| - 1]) + |m| + VarintLen(|m|)
  }

  /** Small messages share packets of limited size, long ones are cut up. */
  ghost predicate ItemOk(item: Item) {
    match item
    case Group(messages) =>
      && (GroupSize(messages) <= SLICE_SIZE || |messages| == 1)
      && forall k :: 0 <= k < |messages| ==> !Long(messages[k])
    case Whole(_, m) => Long(m)
  }

  /** Ids of long messages are consecutive. */
  ghost predicate PlanOk(plan: seq<Item>, firstId: nat) {
    && (forall i :: 0 <= i < |plan| ==> ItemOk(plan[i]))
    && (forall i :: 0 <= i < |plan| && plan[i].Whole? ==> plan[i].id == firstId + Wholes(plan[..i]))
  }

  function Wholes(plan: seq<Item>): nat {
    if plan == [] then 0 else Wholes(plan[..|plan| - 1]) + if plan[|plan| - 1].Whole? then 1 else 0
  }

  lemma PlanSnoc(plan: seq<Item>, item: Item, ch: nat, first: nat)
    ensures MessagesOf(plan + [item]) == MessagesOf(plan) + Out(item)
    ensures var front := PacketsOf(plan, ch, first);
            PacketsOf(plan + [item], ch, first) == front + PacketsFor(item, ch, first + |front|)
    ensures Wholes(plan + [item]) == Wholes(plan) + if item.Whole? then 1 else 0
  {
    hide Out;
    hide PacketsFor;
    assert (plan + [item])[..|plan|] == plan;
  }

  lemma PlanOkSnoc(plan: seq<Item>, item: Item, firstId: nat)
    requires PlanOk(plan, firstId) && ItemOk(item) && (item.Whole? ==> item.id == firstId + Wholes(plan))
    ensures PlanOk(plan + [item], firstId)
  {
    var plan' := plan + [item];
    forall i | 0 <= i < |plan'| && plan'[i].Whole?
      ensures plan'[i].id == firstId + Wholes(plan'[..i])
    {
      if i < |plan| {
        assert plan'[..i] == plan[..i];
      } else {
        assert plan'[..i] == plan;
      }
    }
  }

  // ----- The order in which messages go out

  /** No small message stands before a long one. */
  ghost predicate LongFirst(messages: seq<Bytes>) {
    forall i, j :: 0 <= i < j < |messages| ==> Long(messages[i]) || !Long(messages[j])
  }

  lemma LongFirstSnoc(messages: seq<Bytes>, m: Bytes)
    ensures LongFirst(messages + [m]) <==>
              LongFirst(messages) && (Long(m) ==> forall k :: 0 <= k < |messages| ==> Long(messages[k]))
  {
    hide Long;
    var more := messages + [m];
    assert forall k :: 0 <= k < |messages| ==> more[k] == messages[k];
    assert more[|messages|] == m;
    if LongFirst(more) && Long(m) {
      assert forall k :: 0 <= k < |messages| ==> Long(more[k]) || !Long(more[|messages|]);
    }
  }

  /** A long message went out where a small one was due. */
  ghost predicate OutOfPlace(taken: seq<Bytes>, out: seq<Bytes>, i: nat) {
    i < |out| && i < |taken| && Long(out[i]) && !Long(taken[i])
  }

  /**
   * Small messages wait for a packet while long ones go out at once. As long as no small message
   * stands before a long one the order is kept; from then on a long message is out of place.
   */
  ghost predicate OrderInv(taken: seq<Bytes>, out: seq<Bytes>, small: seq<Bytes>) {
    && (forall k :: 0 <= k < |small| ==> !Long(small[k]))
    && (small == [] ==> forall k :: 0 <= k < |taken| ==> Long(taken[k]))
    && multiset(taken) == multiset(out) + multiset(small)
    && (LongFirst(taken) ==> out + small == taken)
    && (!LongFirst(taken) ==> exists i :: OutOfPlace(taken, out, i))
  }

  lemma StillOutOfPlace(taken: seq<Bytes>, out: seq<Bytes>, i: nat, taken': seq<Bytes>, out': seq<Bytes>)
    requires OutOfPlace(taken, out, i) && taken <= taken' && out <= out'
    ensures OutOfPlace(taken', out', i)
  {
  }

  lemma OrderSmall(taken: seq<Bytes>, out: seq<Bytes>, small: seq<Bytes>, m: Bytes)
    requires OrderInv(taken, out, small) && !Long(m)
    ensures OrderInv(taken + [m], out, small + [m])
  {
    hide LongFirst;
    hide Long;
    hide OutOfPlace;
    LongFirstSnoc(taken, m);
    assert out + (small + [m]) == (out + small) + [m];
    if !LongFirst(taken) {
      var i: nat :| OutOfPlace(taken, out, i);
      StillOutOfPlace(taken, out, i, taken + [m], out);
    }
  }

  /** Sending the waiting messages as a packet leaves the order as it is. */
  lemma OrderFlush(taken: seq<Bytes>, out: seq<Bytes>, small: seq<Bytes>, m: Bytes)
    requires OrderInv(taken, out, small) && !Long(m)
    ensures OrderInv(taken + [m], out + small, [m])
  {
    hide LongFirst;
    hide Long;
    hide OutOfPlace;
    LongFirstSnoc(taken, m);
    if !LongFirst(taken) {
      var i: nat :| OutOfPlace(taken, out, i);
      StillOutOfPlace(taken, out, i, taken + [m], out + small);
    }
  }

  lemma OrderLong(taken: seq<Bytes>, out: seq<Bytes>, small: seq<Bytes>, m: Bytes)
    requires OrderInv(taken, out, small) && Long(m)
    ensures OrderInv(taken + [m], out + [m], small)
  {
    hide LongFirst;
    hide Long;
    LongFirstSnoc(taken, m);
    var taken', out' := taken + [m], out + [m];
    if !LongFirst(taken) {
      var i: nat :| OutOfPlace(taken, out, i);
      StillOutOfPlace(taken, out, i, taken', out');
    } else if small != [] {
      assert taken[|out|] == small[0];
      assert OutOfPlace(taken', out', |out|);
    } else {
      assert out + [] == out && out' + [] == out';
    }
  }

  /** At the end of a pass: nothing lost or made up, and in order exactly when long ones came first. */
  lemma OrderEnd(taken: seq<Bytes>, out: seq<Bytes>, small: seq<Bytes>)
    requires OrderInv(taken, out, small)
    ensures multiset(out + small) == multiset(taken)
    ensures out + small == taken <==> LongFirst(taken)
  {
    hide LongFirst;
    if !LongFirst(taken) {
      var i: nat :| OutOfPlace(taken, out, i);
      assert (out + small)[i] == out[i];
    }
  }

  // ----- Packing

  /** Messages waiting for a packet are small and will fit one. */
  ghost predicate SmallOk(small: seq<Bytes>) {
    && (forall k :: 0 <= k < |small| ==> !Long(small[k]))
    && (GroupSize(small) <= SLICE_SIZE || |small| == 1)
  }

  ghost predicate Packing(taken: seq<Bytes>, plan: seq<Item>, small: seq<Bytes>, firstId: nat) {
    PlanOk(plan, firstId) && SmallOk(small) && OrderInv(taken, MessagesOf(plan), small)
  }

  /** The plan that packing comes to, and the small messages still waiting: each joins them if there is room. */
  function Packed(taken: seq<Bytes>, firstId: nat): (seq<Item>, seq<Bytes>) {
    if taken == [] then ([], [])
    else
      var (plan, small) := Packed(taken[..|taken| - 1], firstId);
      var m := taken[|taken| - 1];
      if Long(m) then (plan + [Whole(firstId + Wholes(plan), m)], small)
      else if GroupSize(small) + |m| + VarintLen(|m|) > SLICE_SIZE then (plan + [Group(small)], [m])
      else (plan, small + [m])
  }

  function PlanOf(taken: seq<Bytes>, firstId: nat): seq<Item> {
    var (plan, small) := Packed(taken, firstId);
    if small == [] then plan else plan + [Group(small)]
  }

  lemma PackedSnoc(taken: seq<Bytes>, m: Bytes, firstId: nat)
    ensures var (plan, small) := Packed(taken, firstId);
            Packed(taken + [m], firstId) ==
              if Long(m) then (plan + [Whole(firstId + Wholes(plan), m)], small)
              else if GroupSize(small) + |m| + VarintLen(|m|) > SLICE_SIZE then (plan + [Group(small)], [m])
              else (plan, small + [m])
  {
    hide Wholes;
    hide GroupSize;
    assert (taken + [m])[..|taken|] == taken;
  }

  /** The small messages, in order. */
  function Smalls(taken: seq<Bytes>): seq<Bytes> {
    if taken == [] then []
    else Smalls(taken[..|taken| - 1]) + if Long(taken[|taken| - 1]) then [] else [taken[|taken| - 1]]
  }

  /** The groups of small messages that share a packet. */
  function GroupsOf(plan: seq<Item>): seq<seq<Bytes>> {
    if plan == [] then []
    else GroupsOf(plan[..|plan| - 1]) + if plan[|plan| - 1].Group? then [plan[|plan| - 1].messages] else []
  }

  lemma GroupsOfSnoc(plan: seq<Item>, item: Item)
    ensures GroupsOf(plan + [item]) == GroupsOf(plan) + if item.Group? then [item.messages] else []
  {
    assert (plan + [item])[..|plan|] == plan;
  }

  ghost predicate NoRoom(group: seq<Bytes>, next: seq<Bytes>) {
    next != [] && GroupSize(group) + |next[0]| + VarintLen(|next[0]|) > SLICE_SIZE
  }

  /** What a group is followed by did not fit in it. */
  ghost predicate Outgrown(groups: seq<seq<Bytes>>) {
    forall i, j :: 0 <= i < j < |groups| && j == i + 1 ==> NoRoom(groups[i], groups[j])
  }

  /** Only the first group can be empty: when the first small message alone outgrows a slice. */
  ghost predicate EmptyFirst(groups: seq<seq<Bytes>>, ms: seq<Bytes>) {
    forall i :: 0 <= i < |groups| ==>
      (groups[i] == [] <==> i == 0 && ms != [] && |ms[0]| + VarintLen(|ms[0]|) > SLICE_SIZE)
  }

  lemma {:induction false} PackedShape(taken: seq<Bytes>, firstId: nat)
    ensures var (plan, small) := Packed(taken, firstId);
            var groups := GroupsOf(plan);
            && (small == [] <==> Smalls(taken) == []) && (small == [] ==> groups == [])
            && Outgrown(groups + [small]) && (small != [] ==> EmptyFirst(groups + [small], Smalls(taken)))
  {
    hide VarintLen;
    hide Wholes;
    if taken != [] {
      var front, m := taken[..|taken| - 1], taken[|taken| - 1];
      PackedShape(front, firstId);
      var (plan, small) := Packed(front, firstId);
      var groups := GroupsOf(plan);
      GroupsOfSnoc(plan, Group(small));
      GroupsOfSnoc(plan, Whole(firstId + Wholes(plan), m));
      if Long(m) {
        assert Smalls(front) + [] == Smalls(front) && groups + [] == groups;
      } else if GroupSize(small) + |m| + VarintLen(|m|) > SLICE_SIZE {
        OutgrownNew(groups, small, m);
        EmptyNew(groups, small, Smalls(front), m);
      } else {
        OutgrownLonger(groups, small, m);
        EmptyLonger(groups, small, Smalls(front), m);
      }
    }
  }

  lemma OutgrownNew(groups: seq<seq<Bytes>>, small: seq<Bytes>, m: Bytes)
    requires Outgrown(groups + [small]) && GroupSize(small) + |m| + VarintLen(|m|) > SLICE_SIZE
    ensures Outgrown((groups + [small]) + [[m]])
  {
    hide GroupSize;
    hide VarintLen;
    var before := groups + [small];
    assert NoRoom(small, [m]);
    assert forall i :: 0 <= i < |before| ==> (before + [[m]])[i] == before[i];
  }

  lemma OutgrownLonger(groups: seq<seq<Bytes>>, small: seq<Bytes>, m: Bytes)
    requires Outgrown(groups + [small]) && (small == [] ==> groups == [])
    ensures Outgrown(groups + [small + [m]])
  {
    hide GroupSize;
    hide VarintLen;
    var before: seq<seq<Bytes>>, after: seq<seq<Bytes>> := groups + [small], groups + [small + [m]];
    forall i, j | 0 <= i < j < |after| && j == i + 1
      ensures NoRoom(after[i], after[j])
    {
      assert NoRoom(before[i], before[j]);
      assert after[i] == before[i] && after[j][0] == before[j][0];
    }
  }

  lemma EmptyNew(groups: seq<seq<Bytes>>, small: seq<Bytes>, ms: seq<Bytes>, m: Bytes)
    requires (small == [] <==> ms == []) && (small == [] ==> groups == [])
    requires small != [] ==> EmptyFirst(groups + [small], ms)
    requires GroupSize(small) + |m| + VarintLen(|m|) > SLICE_SIZE
    ensures EmptyFirst((groups + [small]) + [[m]], ms + [m])
  {
    hide VarintLen;
    var before := groups + [small];
    assert ms != [] ==> (ms + [m])[0] == ms[0];
    assert forall i :: 0 <= i < |before| ==> (before + [[m]])[i] == before[i];
  }

  lemma EmptyLonger(groups: seq<seq<Bytes>>, small: seq<Bytes>, ms: seq<Bytes>, m: Bytes)
    requires (small == [] <==> ms == []) && (small == [] ==> groups == [])
    requires small != [] ==> EmptyFirst(groups + [small], ms)
    requires GroupSize(small) + |m| + VarintLen(|m|) <= SLICE_SIZE
    ensures EmptyFirst(groups + [small + [m]], ms + [m])
  {
    hide VarintLen;
    var before: seq<seq<Bytes>>, after: seq<seq<Bytes>> := groups + [small], groups + [small + [m]];
    assert ms != [] ==> (ms + [m])[0] == ms[0];
    forall i | 0 <= i < |after|
      ensures after[i] == [] <==> i == 0 && |(ms + [m])[0]| + VarintLen(|(ms + [m])[0]|) > SLICE_SIZE
    {
      if i < |groups| {
        assert after[i] == before[i];
      } else {
        assert ms != [] && |groups| == 0 ==> before[0] == small;
      }
    }
  }

  /**
   * A small message starts a new packet only when the one before has no room for it, and an empty
   * packet goes out exactly ahead of a first one that alone outgrows a slice.
   */
  lemma PlanTight(taken: seq<Bytes>, firstId: nat)
    ensures var groups := GroupsOf(PlanOf(taken, firstId)); Outgrown(groups) && EmptyFirst(groups, Smalls(taken))
  {
    hide VarintLen;
    hide GroupSize;
    PackedShape(taken, firstId);
    var (plan, small) := Packed(taken, firstId);
    GroupsOfSnoc(plan, Group(small));
    hide Packed;
    hide GroupsOf;
    hide Smalls;
  }

  lemma StartPlan(ch: nat, first: nat)
    ensures PacketsOf([], ch, first) == [] && Wholes([]) == 0 && forall firstId: nat :: Packed([], firstId) == ([], [])
  {
  }

  lemma PackStart(firstId: nat)
    ensures Packing([], [], [], firstId)
  {
  }

  lemma PackSmall(taken: seq<Bytes>, plan: seq<Item>, small: seq<Bytes>, firstId: nat, m: Bytes)
    requires Packing(taken, plan, small, firstId) && !Long(m)
    requires small == [] || GroupSize(small) + |m| + VarintLen(|m|) <= SLICE_SIZE
    ensures Packing(taken + [m], plan, small + [m], firstId)
    ensures GroupSize(small + [m]) == GroupSize(small) + |m| + VarintLen(|m|)
  {
    hide PlanOk;
    hide OrderInv;
    hide VarintLen;
    OrderSmall(taken, MessagesOf(plan), small, m);
    assert (small + [m])[..|small|] == small;
  }

  lemma PackFlush(taken: seq<Bytes>, plan: seq<Item>, small: seq<Bytes>, firstId: nat, m: Bytes)
    requires Packing(taken, plan, small, firstId) && !Long(m)
    ensures Packing(taken + [m], plan + [Group(small)], [m], firstId)
  {
    hide PlanOk;
    hide OrderInv;
    hide MessagesOf;
    hide PacketsOf;
    hide Wholes;
    PlanOkSnoc(plan, Group(small), firstId);
    PlanSnoc(plan, Group(small), 0, 0);
    OrderFlush(taken, MessagesOf(plan), small, m);
  }

  lemma PackLong(taken: seq<Bytes>, plan: seq<Item>, small: seq<Bytes>, firstId: nat, m: Bytes)
    requires Packing(taken, plan, small, firstId) && Long(m)
    ensures Packing(taken + [m], plan + [Whole(firstId + Wholes(plan), m)], small, firstId)
  {
    hide PlanOk;
    hide OrderInv;
    hide MessagesOf;
    hide PacketsOf;
    hide Wholes;
    hide GroupSize;
    var item := Whole(firstId + Wholes(plan), m);
    PlanOkSnoc(plan, item, firstId);
    PlanSnoc(plan, item, 0, 0);
    OrderLong(taken, MessagesOf(plan), small, m);
  }

  /**
   * What a pass makes of the messages it sends: packets that follow a plan, which carries every
   * message once, and in order exactly when no small message stands before a long one.
   */
  ghost predicate Sends(taken: seq<Bytes>, plan: seq<Item>, firstId: nat) {
    && PlanOk(plan, firstId)
    && multiset(MessagesOf(plan)) == multiset(taken)
    && (MessagesOf(plan) == taken <==> LongFirst(taken))
  }

  lemma PackEnd(taken: seq<Bytes>, plan: seq<Item>, small: seq<Bytes>, firstId: nat)
    requires Packing(taken, plan, small, firstId)
    ensures Sends(taken, if small == [] then plan else plan + [Group(small)], firstId)
  {
    hide PlanOk;
    hide LongFirst;
    OrderEnd(taken, MessagesOf(plan), small);
    if small == [] {
      assert MessagesOf(plan) + [] == MessagesOf(plan);
    } else {
      PlanOkSnoc(plan, Group(small), firstId);
      PlanSnoc(plan, Group(small), 0, 0);
    }
    hide OrderInv;
  }

  // ----- Choosing

  /** Where the choice stands after part of `all` has been looked at. */
  ghost predicate Choosing(all: seq<Bytes>, budget: nat, ordered: bool,
                           taken: seq<Bytes>, overflow: seq<Bytes>, queue: seq<Bytes>, available: nat)
  {
    && BytesOf(taken) + available == budget
    && (if !ordered then overflow == [] && Affordable(all, budget) == taken + Affordable(queue, available)
        else if overflow == [] then
          all == taken + queue && FitCount(all, budget) == |taken| + FitCount(queue, available)
        else all == taken + (overflow + queue) && FitCount(all, budget) == |taken|)
  }

  lemma ChooseSend(all: seq<Bytes>, budget: nat, ordered: bool,
                   taken: seq<Bytes>, queue: seq<Bytes>, available: nat)
    requires Choosing(all, budget, ordered, taken, [], queue, available)
    requires queue != [] && |queue[0]| <= available
    ensures Choosing(all, budget, ordered, taken + [queue[0]], [], queue[1..], available - |queue[0]|)
  {
    hide BytesOf;
    var m := queue[0];
    BytesSnoc(taken, m);
    if ordered {
      assert taken + queue == (taken + [m]) + queue[1..];
    } else {
      var rest := Affordable(queue[1..], available - |m|);
      assert taken + ([m] + rest) == (taken + [m]) + rest;
    }
  }

  lemma ChooseSkip(all: seq<Bytes>, budget: nat, ordered: bool,
                   taken: seq<Bytes>, overflow: seq<Bytes>, queue: seq<Bytes>, available: nat)
    requires Choosing(all, budget, ordered, taken, overflow, queue, available)
    requires queue != [] && (available < |queue[0]| || overflow != [])
    ensures Choosing(all, budget, ordered, taken, if ordered then overflow + [queue[0]] else [], queue[1..], available)
  {
    assert queue == [queue[0]] + queue[1..];
    assert overflow + queue == (overflow + [queue[0]]) + queue[1..];
    assert overflow == [] ==> taken + queue == taken + (overflow + queue);
  }

  lemma ChooseEnd(all: seq<Bytes>, budget: nat, ordered: bool, taken: seq<Bytes>, overflow: seq<Bytes>, available: nat)
    requires Choosing(all, budget, ordered, taken, overflow, [], available)
    ensures taken == Chosen(all, budget, ordered)
    ensures Reversed(overflow) == Remaining(all, budget, ordered)
    ensures BytesOf(overflow) <= BytesOf(all) && BytesOf(taken) + available == budget
  {
    assert taken + [] == taken && overflow + [] == overflow;
    if ordered {
      assert all == taken + overflow;
      assert all[|taken|..] == overflow;
      BytesConcat(taken, overflow);
    }
  }

  lemma StartChoosing(all: seq<Bytes>, budget: nat, ordered: bool)
    ensures Choosing(all, budget, ordered, [], [], all, budget)
  {
    assert [] + all == all;
    assert [] + Affordable(all, budget) == Affordable(all, budget);
  }
}

/** The unreliable sending channel object. */
module UnreliableSendChannel {
  import opened Base
  import opened Sums
  import opened Slicing
  import opened Varint
  import opened UnreliableSending

  class SendChannelUnreliable {
    const channelId: nat
    const maxMemory: nat
    const orderedReliableSubstrate: bool
    var messages: seq<Bytes>
    var slicedMessageId: nat
    var memory: nat

    ghost predicate Valid()
      reads this
    {
      memory == BytesOf(messages) <= maxMemory
    }

    constructor (channelId: nat, maxMemory: nat, orderedReliableSubstrate: bool)
      ensures Valid() && messages == [] && slicedMessageId == 0
      ensures this.channelId == channelId && this.orderedReliableSubstrate == orderedReliableSubstrate
    {
      this.channelId, this.maxMemory := channelId, maxMemory;
      this.orderedReliableSubstrate := orderedReliableSubstrate;
      messages, slicedMessageId, memory := [], 0, 0;
    }

    /** A message that does not fit the memory is dropped. */
    method SendMessage(message: Bytes)
      requires Valid()
      modifies this
      ensures Valid() && slicedMessageId == old(slicedMessageId)
      ensures messages == if BytesOf(old(messages)) + |message| > maxMemory then old(messages)
                else old(messages) + [message]
    {
      if memory + |message| > maxMemory {
        return;
      }
      BytesSnoc(messages, message);
      memory := memory + |message|;
      messages := messages + [message];
    }

    /** The slices of one long message, in order. */
    method SliceMessage(message: Bytes, id: nat, sequence: nat) returns (packets: seq<Packet>)
      requires Long(message)
      ensures packets == SlicePackets(message, id, channelId, sequence)
    {
      packets := [];
      var numSlices := NumSlices(|message|);
      for sliceIndex := 0 to numSlices
        invariant |packets| == sliceIndex
        invariant packets == SlicePackets(message, id, channelId, sequence)[..sliceIndex]
      {
        SliceBounds(message, sliceIndex);
        var end := if sliceIndex == numSlices - 1 then |message| else (sliceIndex + 1) * SLICE_SIZE;
        var slice := Slice(id, sliceIndex, numSlices, message[sliceIndex * SLICE_SIZE..end]);
        packets := packets + [UnreliableSlice(sequence + sliceIndex, channelId, slice)];
      }
    }

    /** Messages that overflowed go back to the front one by one, so the last comes first. */
    method PutBack(overflow: seq<Bytes>)
      requires messages == [] && memory == 0
      modifies `messages, `memory
      ensures messages == Reversed(overflow) && memory == BytesOf(messages) == BytesOf(overflow)
    {
      for i := 0 to |overflow|
        modifies `messages, `memory
        invariant messages == Reversed(overflow[..i])
        invariant memory == BytesOf(messages) == BytesOf(overflow[..i])
      {
        var message := overflow[i];
        assert overflow[..i + 1][..i] == overflow[..i];
        memory := memory + |message|;
        messages := [message] + messages;
        BytesFront(messages);
        assert messages[1..] == Reversed(overflow[..i]);
      }
      assert overflow[..|overflow|] == overflow;
    }

    /** One message goes out: a long one at once, a small one with those that wait. */
    method PackMessage(message: Bytes, packets: seq<Packet>, small: seq<Bytes>, smallBytes: nat, packetSequence: nat,
                       ghost taken: seq<Bytes>, ghost plan: seq<Item>, ghost firstId: nat)
      returns (packets': seq<Packet>, small': seq<Bytes>, smallBytes': nat, ghost plan': seq<Item>)
      requires Packing(taken, plan, small, firstId) && smallBytes == GroupSize(small)
      requires Packed(taken, firstId) == (plan, small)
      requires packets == PacketsOf(plan, channelId, packetSequence) && slicedMessageId == firstId + Wholes(plan)
      modifies `slicedMessageId
      ensures Packing(taken + [message], plan', small', firstId) && smallBytes' == GroupSize(small')
      ensures Packed(taken + [message], firstId) == (plan', small')
      ensures packets' == PacketsOf(plan', channelId, packetSequence) && slicedMessageId == firstId + Wholes(plan')
    {
      hide Packing;
      hide PacketsOf;
      hide MessagesOf;
      hide Packed;
      PackedSnoc(taken, message, firstId);
      packets', small', smallBytes', plan' := packets, small, smallBytes, plan;
      if |message| > SLICE_SIZE {
        PackLong(taken, plan, small, firstId, message);
        PlanSnoc(plan, Whole(slicedMessageId, message), channelId, packetSequence);
        var slices := SliceMessage(message, slicedMessageId, packetSequence + |packets|);
        packets' := packets + slices;
        plan' := plan + [Whole(slicedMessageId, message)];
        slicedMessageId := slicedMessageId + 1;
      } else {
        var serializedSize := |message| + VarintLen(|message|);
        if smallBytes + serializedSize > SLICE_SIZE {
          PackFlush(taken, plan, small, firstId, message);
          PlanSnoc(plan, Group(small), channelId, packetSequence);
          packets' := packets + [SmallUnreliable(packetSequence + |packets|, channelId, small)];
          plan' := plan + [Group(small)];
          small', smallBytes' := [message], serializedSize;
          assert GroupSize([message]) == GroupSize([]) + |message| + VarintLen(|message|);
        } else {
          PackSmall(taken, plan, small, firstId, message);
          smallBytes' := smallBytes + serializedSize;
          small' := small + [message];
        }
      }
    }

    method GetPacketsToSend(packetSequence: nat, availableBytes: nat)
      returns (packets: seq<Packet>, sequence: nat, available: nat, ghost plan: seq<Item>)
      requires Valid()
      modifies this
      ensures Valid()
      ensures messages == Remaining(old(messages), availableBytes, orderedReliableSubstrate)
      ensures Sends(Chosen(old(messages), availableBytes, orderedReliableSubstrate), plan, old(slicedMessageId))
      ensures packets == PacketsOf(plan, channelId, packetSequence) && sequence == packetSequence + |packets|
      ensures plan == PlanOf(Chosen(old(messages), availableBytes, orderedReliableSubstrate), old(slicedMessageId))
      ensures slicedMessageId == old(slicedMessageId) + Wholes(plan)
      ensures BytesOf(Chosen(old(messages), availableBytes, orderedReliableSubstrate)) + available == availableBytes
    {
      hide Packing;
      hide Choosing;
      hide Sends;
      hide PacketsOf;
      hide MessagesOf;
      hide Wholes;
      hide Chosen;
      hide Remaining;
      hide Reversed;
      hide Packed;
      packets, available, plan := [], availableBytes, [];
      StartPlan(channelId, packetSequence);
      var small, smallBytes := [], 0;
      var overflow := [];
      ghost var taken := [];
      ghost var firstId := slicedMessageId;
      PackStart(firstId);
      StartChoosing(messages, availableBytes, orderedReliableSubstrate);
      while messages != []
        invariant Packing(taken, plan, small, firstId) && smallBytes == GroupSize(small)
        invariant Packed(taken, firstId) == (plan, small)
        invariant Choosing(old(messages), availableBytes, orderedReliableSubstrate, taken, overflow, messages,
                           available)
        invariant !orderedReliableSubstrate ==> overflow == []
        invariant packets == PacketsOf(plan, channelId, packetSequence)
        invariant slicedMessageId == firstId + Wholes(plan)
        invariant memory == BytesOf(messages)
        decreases |messages|
      {
        BytesFront(messages);
        var message := messages[0];
        ghost var queue := messages;
        messages := messages[1..];
        memory := memory - |message|;
        if available < |message| || overflow != [] {
          ChooseSkip(old(messages), availableBytes, orderedReliableSubstrate, taken, overflow, queue, available);
          if orderedReliableSubstrate {
            overflow := overflow + [message];
          }
        } else {
          ChooseSend(old(messages), availableBytes, orderedReliableSubstrate, taken, queue, available);
          available := available - |message|;
          packets, small, smallBytes, plan :=
            PackMessage(message, packets, small, smallBytes, packetSequence, taken, plan, firstId);
          taken := taken + [message];
        }
      }
      ChooseEnd(old(messages), availableBytes, orderedReliableSubstrate, taken, overflow, available);
      PutBack(overflow);
      PackEnd(taken, plan, small, firstId);
      if small != [] {
        PlanSnoc(plan, Group(small), channelId, packetSequence);
        packets := packets + [SmallUnreliable(packetSequence + |packets|, channelId, small)];
        plan := plan + [Group(small)];
      }
      sequence := packetSequence + |packets|;
    }
  }
}
