/**
 * Which units a sending pass picks, as a plain queue and a budget
 * (renet2/src/channel/reliable.rs, `get_packets_to_send`).
 */
module GreedyPasses {
  import opened Base
  import opened Slicing
  import opened ReliableSending
  import opened SendPasses

  /** The slice looked at in step `i` of a round over `n` slices that starts at `start`. */
  function Rotated(start: nat, i: nat, n: nat): (x: nat)
    requires i < n && start <= n
    ensures x < n
  {
    if start + i < n then start + i else start + i - n
  }

  /** The slices of a message that are due, in the first `i` steps of the round. */
  function DueSlices(s: Sender, id: nat, i: nat, now: nat): (us: seq<Unit>)
    requires id in s.unacked && s.unacked[id].Sliced? && s.unacked[id].nextSlice <= s.unacked[id].numSlices
    requires i <= s.unacked[id].numSlices
    ensures forall u :: u in us ==> Due(s, u, now)
  {
    if i == 0 then []
    else
      var u := Part(id, Rotated(s.unacked[id].nextSlice, i - 1, s.unacked[id].numSlices));
      DueSlices(s, id, i - 1, now) + if Due(s, u, now) then [u] else []
  }

  /** The units of one message that are due, in the order they are looked at. */
  function QueueOf(s: Sender, id: nat, now: nat): (us: seq<Unit>)
    ensures forall u :: u in us ==> Due(s, u, now)
  {
    if id !in s.unacked then []
    else
      match s.unacked[id]
      case Small(_, _) => if Due(s, Whole(id), now) then [Whole(id)] else []
      case Sliced(_, n, _, next, _, _) => if next <= n then DueSlices(s, id, n, now) else []
  }

  /** All units that are due, by message id. */
  function Queue(s: Sender, bound: nat, now: nat): (us: seq<Unit>)
    ensures forall u :: u in us ==> Due(s, u, now)
  {
    if bound == 0 then [] else Queue(s, bound - 1, now) + QueueOf(s, bound - 1, now)
  }

  function Cost(s: Sender, u: Unit): nat
    requires u.id in s.unacked
  {
    if u.Part? && u.index < NumSlices(|s.unacked[u.id].message|) then |SlicePayload(s.unacked[u.id].message, u.index)|
    else |s.unacked[u.id].message|
  }

  /** One after the other, each unit is picked if the budget still covers what it needs. */
  function Pick(s: Sender, queue: seq<Unit>, budget: nat): (r: (seq<Unit>, nat))
    requires forall u :: u in queue ==> u.id in s.unacked
  {
    if queue == [] then ([], budget)
    else
      var (picked, left) := Pick(s, queue[..|queue| - 1], budget);
      var u := queue[|queue| - 1];
      if Need(s, u) <= left && Cost(s, u) <= left then (picked + [u], left - Cost(s, u)) else (picked, left)
  }

  lemma PickSnoc(s: Sender, queue: seq<Unit>, u: Unit, budget: nat)
    requires u.id in s.unacked && forall v :: v in queue ==> v.id in s.unacked
    ensures var (picked, left) := Pick(s, queue, budget);
            Pick(s, queue + [u], budget) ==
              if Need(s, u) <= left && Cost(s, u) <= left then (picked + [u], left - Cost(s, u)) else (picked, left)
  {
    assert (queue + [u])[..|queue|] == queue;
  }

  /** Once the budget is below a slice, no further slice is picked. */
  lemma {:induction false} NoMoreSlices(s: Sender, queue: seq<Unit>, id: nat, i: nat, n: nat, now: nat, budget: nat)
    requires id in s.unacked && s.unacked[id].Sliced? && s.unacked[id].nextSlice <= s.unacked[id].numSlices
    requires i <= n <= s.unacked[id].numSlices && forall u :: u in queue ==> u.id in s.unacked
    requires Pick(s, queue + DueSlices(s, id, i, now), budget).1 < SLICE_SIZE
    ensures Pick(s, queue + DueSlices(s, id, n, now), budget) == Pick(s, queue + DueSlices(s, id, i, now), budget)
    decreases n - i
  {
    hide Pick;
    hide Due;
    hide DueSlices;
    hide Cost;
    if i < n {
      NoMoreSlices(s, queue, id, i, n - 1, now, budget);
      DueSlicesStep(s, id, n - 1, now);
      var u := Part(id, Rotated(s.unacked[id].nextSlice, n - 1, s.unacked[id].numSlices));
      if Due(s, u, now) {
        assert queue + DueSlices(s, id, n, now) == (queue + DueSlices(s, id, n - 1, now)) + [u];
        DueStored(s, DueSlices(s, id, n - 1, now), now);
        PickSnoc(s, queue + DueSlices(s, id, n - 1, now), u, budget);
      } else {
        assert DueSlices(s, id, n - 1, now) + [] == DueSlices(s, id, n - 1, now);
      }
    }
  }

  lemma DueSlicesStep(s: Sender, id: nat, i: nat, now: nat)
    requires id in s.unacked && s.unacked[id].Sliced? && s.unacked[id].nextSlice <= s.unacked[id].numSlices
    requires i < s.unacked[id].numSlices
    ensures var u := Part(id, Rotated(s.unacked[id].nextSlice, i, s.unacked[id].numSlices));
            DueSlices(s, id, i + 1, now) == DueSlices(s, id, i, now) + if Due(s, u, now) then [u] else []
  {
  }

  lemma DueStored(s: Sender, us: seq<Unit>, now: nat)
    requires forall u :: u in us ==> Due(s, u, now)
    ensures forall u :: u in us ==> u.id in s.unacked
  {
  }

  // ----- The pass follows it

  /** The slices among the units, or the small messages, in order. */
  function Only(us: seq<Unit>, slices: bool): seq<Unit> {
    if us == [] then []
    else Only(us[..|us| - 1], slices) + if us[|us| - 1].Part? == slices then [us[|us| - 1]] else []
  }

  /** The same units, slices in the same order and small messages in the same order. */
  ghost predicate SameOrder(a: seq<Unit>, b: seq<Unit>) {
    Only(a, true) == Only(b, true) && Only(a, false) == Only(b, false)
  }

  lemma OnlySnoc(us: seq<Unit>, u: Unit, slices: bool)
    ensures Only(us + [u], slices) == Only(us, slices) + if u.Part? == slices then [u] else []
  {
    assert (us + [u])[..|us|] == us;
  }

  lemma {:induction false} OnlyConcat(a: seq<Unit>, b: seq<Unit>, slices: bool)
    ensures Only(a + b, slices) == Only(a, slices) + Only(b, slices)
    decreases |b|
  {
    if b == [] {
      assert a + b == a;
    } else {
      var front, u := b[..|b| - 1], b[|b| - 1];
      assert a + b == (a + front) + [u] && b == front + [u];
      OnlySnoc(a + front, u, slices);
      OnlyConcat(a, front, slices);
    }
  }

  lemma {:induction false} OnlyAll(us: seq<Unit>, slices: bool)
    requires forall u :: u in us ==> u.Part? == slices
    ensures Only(us, slices) == us && Only(us, !slices) == []
  {
    if us != [] {
      OnlyAll(us[..|us| - 1], slices);
    }
  }

  lemma {:induction false} OnlyIs(us: seq<Unit>)
    ensures multiset(us) == multiset(Only(us, true)) + multiset(Only(us, false))
  {
    if us != [] {
      var front, u := us[..|us| - 1], us[|us| - 1];
      assert us == front + [u];
      OnlyIs(front);
    }
  }

  /** What has gone out, together with `waiting`, is what the queue so far picks, in order. */
  ghost predicate Follows(s: Sender, sent: seq<Unit>, queue: seq<Unit>, budget: nat, available: nat) {
    && (forall u :: u in queue ==> u.id in s.unacked)
    && SameOrder(sent, Pick(s, queue, budget).0)
    && available == Pick(s, queue, budget).1
  }

  lemma FollowsStart(s: Sender, budget: nat)
    ensures Follows(s, [], [], budget, budget)
  {
  }

  /** The next unit goes out exactly when the budget covers it. */
  lemma FollowsNext(s: Sender, sent: seq<Unit>, queue: seq<Unit>, u: Unit, sent': seq<Unit>, budget: nat,
                    available: nat, available': nat)
    requires Follows(s, sent, queue, budget, available) && u.id in s.unacked
    requires if Need(s, u) <= available && Cost(s, u) <= available
             then SameOrder(sent', sent + [u]) && available' == available - Cost(s, u)
             else sent' == sent && available' == available
    ensures Follows(s, sent', queue + [u], budget, available')
  {
    hide Cost;
    hide Need;
    PickSnoc(s, queue, u, budget);
    assert forall v :: v in queue + [u] ==> v.id in s.unacked;
    SnocSame(sent, Pick(s, queue, budget).0, u);
    hide Only;
  }

  lemma SnocSame(a: seq<Unit>, b: seq<Unit>, u: Unit)
    requires SameOrder(a, b)
    ensures SameOrder(a + [u], b + [u])
  {
    OnlySnoc(a, u, true);
    OnlySnoc(a, u, false);
    OnlySnoc(b, u, true);
    OnlySnoc(b, u, false);
  }

  lemma FollowsSame(s: Sender, sent: seq<Unit>, sent': seq<Unit>, queue: seq<Unit>, queue': seq<Unit>, budget: nat,
                    available: nat)
    requires Follows(s, sent, queue, budget, available) && SameOrder(sent', sent) && queue' == queue
    ensures Follows(s, sent', queue', budget, available)
  {
  }

  lemma FollowsNoMore(s: Sender, sent: seq<Unit>, queue: seq<Unit>, id: nat, i: nat, now: nat, budget: nat,
                      available: nat)
    requires id in s.unacked && s.unacked[id].Sliced? && s.unacked[id].nextSlice <= s.unacked[id].numSlices
    requires i <= s.unacked[id].numSlices && forall u :: u in queue ==> u.id in s.unacked
    requires Follows(s, sent, queue + DueSlices(s, id, i, now), budget, available)
    requires available < SLICE_SIZE || i == s.unacked[id].numSlices
    ensures Follows(s, sent, queue + DueSlices(s, id, s.unacked[id].numSlices, now), budget, available)
  {
    hide Pick;
    hide DueSlices;
    var n := s.unacked[id].numSlices;
    DueStored(s, DueSlices(s, id, n, now), now);
    if i < n {
      NoMoreSlices(s, queue, id, i, n, now, budget);
    }
  }

  /** The same for a pass that stands before message `id`, with small messages waiting. */
  ghost predicate Picked(s: Sender, packets: seq<Packet>, small: seq<(nat, Bytes)>, id: nat, budget: nat,
                         available: nat, now: nat) {
    Follows(s, Units(packets) + Wholes(small), Queue(s, id, now), budget, available)
  }

  lemma PickedStart(s: Sender, budget: nat, now: nat)
    ensures Picked(s, [], [], 0, budget, budget, now)
  {
    FollowsStart(s, budget);
    assert Units([]) + Wholes([]) == [];
  }

  /** Nothing of message `id` is due. */
  lemma PickedNone(s: Sender, packets: seq<Packet>, small: seq<(nat, Bytes)>, id: nat, budget: nat, available: nat,
                   now: nat)
    requires Picked(s, packets, small, id, budget, available, now) && QueueOf(s, id, now) == []
    ensures Picked(s, packets, small, id + 1, budget, available, now)
  {
    hide Follows;
    assert Queue(s, id, now) + [] == Queue(s, id, now);
  }

  lemma PickedSkipSmall(s: Sender, packets: seq<Packet>, small: seq<(nat, Bytes)>, id: nat, budget: nat,
                        available: nat, now: nat)
    requires Picked(s, packets, small, id, budget, available, now) && id in s.unacked && s.unacked[id].Small?
    requires available < |s.unacked[id].message| || !Elapsed(s.unacked[id].lastSent, now, s.resendTime)
    ensures Picked(s, packets, small, id + 1, budget, available, now)
  {
    hide Follows;
    if Due(s, Whole(id), now) {
      var sent := Units(packets) + Wholes(small);
      FollowsNext(s, sent, Queue(s, id, now), Whole(id), sent, budget, available, available);
    } else {
      PickedNone(s, packets, small, id, budget, available, now);
    }
  }

  lemma PickedSmall(s: Sender, packets: seq<Packet>, small: seq<(nat, Bytes)>, packets': seq<Packet>,
                    small': seq<(nat, Bytes)>,
                    id: nat, budget: nat, available: nat, now: nat)
    requires Picked(s, packets, small, id, budget, available, now) && id in s.unacked && s.unacked[id].Small?
    requires available >= |s.unacked[id].message| && Elapsed(s.unacked[id].lastSent, now, s.resendTime)
    requires AlsoSent(packets, small, packets', small', [Whole(id)])
    ensures Picked(s, packets', small', id + 1, budget, available - |s.unacked[id].message|, now)
  {
    hide Follows;
    FollowsNext(s, Units(packets) + Wholes(small), Queue(s, id, now), Whole(id), Units(packets') + Wholes(small'),
                budget, available, available - |s.unacked[id].message|);
  }

  lemma PickedSlices(s: Sender, packets: seq<Packet>, small: seq<(nat, Bytes)>, more: seq<Packet>, id: nat,
                     budget: nat, available: nat, now: nat)
    requires Follows(s, (Units(packets) + Wholes(small)) + Units(more), Queue(s, id, now) + QueueOf(s, id, now),
                     budget, available)
    requires forall k :: 0 <= k < |more| ==> more[k].ReliableSlice?
    ensures Picked(s, packets + more, small, id + 1, budget, available, now)
  {
    hide Follows;
    hide Units;
    hide Wholes;
    hide QueueOf;
    UnitsConcat(packets, more);
    AllSlices(more);
    AllWhole(small);
    Swapped(Units(packets), Wholes(small), Units(more));
    FollowsSame(s, (Units(packets) + Wholes(small)) + Units(more), Units(packets + more) + Wholes(small),
                Queue(s, id, now) + QueueOf(s, id, now), Queue(s, id + 1, now), budget, available);
  }

  lemma Swapped(a: seq<Unit>, b: seq<Unit>, c: seq<Unit>)
    requires (forall u :: u in b ==> u.Whole?) && forall u :: u in c ==> u.Part?
    ensures SameOrder((a + c) + b, (a + b) + c)
  {
    OnlyAll(b, false);
    OnlyAll(c, true);
    SwappedOnly(a, b, c, true);
    SwappedOnly(a, b, c, false);
    hide Only;
  }

  lemma SwappedOnly(a: seq<Unit>, b: seq<Unit>, c: seq<Unit>, slices: bool)
    requires Only(b, slices) == [] || Only(c, slices) == []
    ensures Only((a + c) + b, slices) == Only((a + b) + c, slices)
  {
    OnlyConcat(a + c, b, slices);
    OnlyConcat(a, c, slices);
    OnlyConcat(a + b, c, slices);
    OnlyConcat(a, b, slices);
    hide Only;
  }

  lemma {:induction false} AllSlices(more: seq<Packet>)
    requires forall k :: 0 <= k < |more| ==> more[k].ReliableSlice?
    ensures forall u :: u in Units(more) ==> u.Part?
  {
    if more != [] {
      AllSlices(more[..|more| - 1]);
    }
  }

  lemma AllWhole(small: seq<(nat, Bytes)>)
    ensures forall u :: u in Wholes(small) ==> u.Whole?
  {
  }

  lemma PickedFlush(s: Sender, packets: seq<Packet>, small: seq<(nat, Bytes)>, p: Packet, id: nat, budget: nat,
                    available: nat, now: nat)
    requires Picked(s, packets, small, id, budget, available, now) && p.SmallReliable? && p.messages == small
    ensures Picked(s, packets + [p], [], id, budget, available, now)
  {
    hide Pick;
    UnitsSnoc(packets, p);
    assert Units(packets + [p]) + Wholes([]) == Units(packets) + Wholes(small);
  }

  /** The units that have gone out or wait to are those before and then `more`. */
  ghost predicate AlsoSent(packets: seq<Packet>, small: seq<(nat, Bytes)>, packets': seq<Packet>,
                           small': seq<(nat, Bytes)>, more: seq<Unit>) {
    SameOrder(Units(packets') + Wholes(small'), (Units(packets) + Wholes(small)) + more)
  }

  lemma AlsoFlushed(packets: seq<Packet>, small: seq<(nat, Bytes)>, p: Packet, id: nat, m: Bytes)
    requires p.SmallReliable? && p.messages == small
    ensures AlsoSent(packets, small, packets + [p], [] + [(id, m)], [Whole(id)])
    ensures AlsoSent(packets, small, packets, small + [(id, m)], [Whole(id)])
  {
    UnitsSnoc(packets, p);
    SmallSnoc([], id, m);
    SmallSnoc(small, id, m);
    assert Units(packets + [p]) + Wholes([] + [(id, m)]) == (Units(packets) + Wholes(small)) + [Whole(id)];
    assert Units(packets) + Wholes(small + [(id, m)]) == (Units(packets) + Wholes(small)) + [Whole(id)];
  }

  /** In one pass a channel sends exactly what a greedy run over the queue of due units picks. */
  ghost predicate Greedy(s: Sender, packets: seq<Packet>, budget: nat, available: nat, now: nat) {
    Follows(s, Units(packets), Queue(s, s.nextId, now), budget, available)
  }

  lemma PickedAll(s: Sender, packets: seq<Packet>, budget: nat, available: nat, now: nat)
    requires Picked(s, packets, [], s.nextId, budget, available, now)
    ensures Greedy(s, packets, budget, available, now)
  {
    hide Pick;
    assert Units(packets) + Wholes([]) == Units(packets);
  }

  // ----- Packing

  /** The groups of small messages that share a packet. */
  function Groups(packets: seq<Packet>): seq<seq<(nat, Bytes)>> {
    if packets == [] then []
    else
      var front, p := Groups(packets[..|packets| - 1]), packets[|packets| - 1];
      if p.SmallReliable? then front + [p.messages] else front
  }

  function AllOf(groups: seq<seq<(nat, Bytes)>>): seq<(nat, Bytes)> {
    if groups == [] then [] else AllOf(groups[..|groups| - 1]) + groups[|groups| - 1]
  }

  /**
   * The groups that small messages are packed into one after the other, and those still waiting: each
   * joins them if there is room, and otherwise they become a group, even if there are none.
   */
  function Packed(ms: seq<(nat, Bytes)>): (seq<seq<(nat, Bytes)>>, seq<(nat, Bytes)>) {
    if ms == [] then ([], [])
    else
      var (groups, small) := Packed(ms[..|ms| - 1]);
      var m := ms[|ms| - 1];
      if GroupSize(small) + SerializedSize(m.0, m.1) > SLICE_SIZE then (groups + [small], [m])
      else (groups, small + [m])
  }

  /** The groups are those that packing their messages comes to. */
  ghost predicate Tight(groups: seq<seq<(nat, Bytes)>>) {
    var (front, small) := Packed(AllOf(groups));
    groups == if small == [] then front else front + [small]
  }

  /** The packets so far, and the messages waiting, are packed so. */
  ghost predicate Tightly(packets: seq<Packet>, small: seq<(nat, Bytes)>) {
    Packed(AllOf(Groups(packets)) + small) == (Groups(packets), small)
  }

  lemma AllSnoc(groups: seq<seq<(nat, Bytes)>>, small: seq<(nat, Bytes)>)
    ensures AllOf(groups + [small]) == AllOf(groups) + small
  {
    assert (groups + [small])[..|groups|] == groups;
  }

  lemma PackedNext(ms: seq<(nat, Bytes)>, m: (nat, Bytes))
    ensures var (groups, small) := Packed(ms);
            Packed(ms + [m]) ==
              if GroupSize(small) + SerializedSize(m.0, m.1) > SLICE_SIZE then (groups + [small], [m])
              else (groups, small + [m])
  {
    hide GroupSize;
    hide SerializedSize;
    assert (ms + [m])[..|ms|] == ms;
  }

  ghost predicate NoRoom(group: seq<(nat, Bytes)>, next: seq<(nat, Bytes)>) {
    next != [] && GroupSize(group) + SerializedSize(next[0].0, next[0].1) > SLICE_SIZE
  }

  /** What a group is followed by did not fit in it. */
  ghost predicate Outgrown(groups: seq<seq<(nat, Bytes)>>) {
    forall i, j :: 0 <= i < j < |groups| && j == i + 1 ==> NoRoom(groups[i], groups[j])
  }

  /** Only the first group can be empty: when the first message alone outgrows a slice. */
  ghost predicate EmptyFirst(groups: seq<seq<(nat, Bytes)>>, ms: seq<(nat, Bytes)>) {
    forall i :: 0 <= i < |groups| ==>
      (groups[i] == [] <==> i == 0 && ms != [] && SerializedSize(ms[0].0, ms[0].1) > SLICE_SIZE)
  }

  lemma {:induction false} PackedShape(ms: seq<(nat, Bytes)>)
    ensures var (groups, small) := Packed(ms);
            && (small == [] <==> ms == []) && (small == [] ==> groups == [])
            && Outgrown(groups + [small]) && (ms != [] ==> EmptyFirst(groups + [small], ms))
            && AllOf(groups) + small == ms
  {
    if ms == [] {
      OneOutgrown([]);
    } else {
      var front, m := ms[..|ms| - 1], ms[|ms| - 1];
      assert ms == front + [m];
      PackedShape(front);
      var (groups, small) := Packed(front);
      hide SerializedSize;
      hide GroupSize;
      hide Outgrown;
      hide EmptyFirst;
      hide AllOf;
      AllSnoc(groups, small);
      if GroupSize(small) + SerializedSize(m.0, m.1) > SLICE_SIZE {
        OutgrownNew(groups, small, m);
        EmptyNew(groups, small, front, m);
      } else {
        OutgrownLonger(groups, small, m);
        EmptyLonger(groups, small, front, m);
      }
    }
  }

  lemma OneOutgrown(small: seq<(nat, Bytes)>)
    ensures Outgrown([] + [small])
  {
  }

  lemma OutgrownNew(groups: seq<seq<(nat, Bytes)>>, small: seq<(nat, Bytes)>, m: (nat, Bytes))
    requires Outgrown(groups + [small]) && GroupSize(small) + SerializedSize(m.0, m.1) > SLICE_SIZE
    ensures Outgrown((groups + [small]) + [[m]])
  {
    hide GroupSize;
    hide SerializedSize;
    var before := groups + [small];
    assert NoRoom(small, [m]);
    assert forall i :: 0 <= i < |before| ==> (before + [[m]])[i] == before[i];
  }

  lemma OutgrownLonger(groups: seq<seq<(nat, Bytes)>>, small: seq<(nat, Bytes)>, m: (nat, Bytes))
    requires Outgrown(groups + [small]) && (small == [] ==> groups == [])
    ensures Outgrown(groups + [small + [m]])
  {
    hide GroupSize;
    hide SerializedSize;
    var before: seq<seq<(nat, Bytes)>>, after: seq<seq<(nat, Bytes)>> := groups + [small], groups + [small + [m]];
    forall i, j | 0 <= i < j < |after| && j == i + 1
      ensures NoRoom(after[i], after[j])
    {
      assert NoRoom(before[i], before[j]);
      assert after[i] == before[i] && after[j][0] == before[j][0];
    }
  }

  lemma EmptyNew(groups: seq<seq<(nat, Bytes)>>, small: seq<(nat, Bytes)>, ms: seq<(nat, Bytes)>, m: (nat, Bytes))
    requires (small == [] <==> ms == []) && (small == [] ==> groups == [])
    requires ms != [] ==> EmptyFirst(groups + [small], ms)
    requires GroupSize(small) + SerializedSize(m.0, m.1) > SLICE_SIZE
    ensures EmptyFirst((groups + [small]) + [[m]], ms + [m])
  {
    hide SerializedSize;
    var before := groups + [small];
    assert ms != [] ==> (ms + [m])[0] == ms[0];
    assert forall i :: 0 <= i < |before| ==> (before + [[m]])[i] == before[i];
  }

  lemma EmptyLonger(groups: seq<seq<(nat, Bytes)>>, small: seq<(nat, Bytes)>, ms: seq<(nat, Bytes)>, m: (nat, Bytes))
    requires (small == [] <==> ms == []) && (small == [] ==> groups == [])
    requires ms != [] ==> EmptyFirst(groups + [small], ms)
    requires GroupSize(small) + SerializedSize(m.0, m.1) <= SLICE_SIZE
    ensures EmptyFirst(groups + [small + [m]], ms + [m])
  {
    hide SerializedSize;
    var before: seq<seq<(nat, Bytes)>>, after: seq<seq<(nat, Bytes)>> := groups + [small], groups + [small + [m]];
    assert ms != [] ==> (ms + [m])[0] == ms[0];
    forall i | 0 <= i < |after|
      ensures after[i] == [] <==> i == 0 && SerializedSize((ms + [m])[0].0, (ms + [m])[0].1) > SLICE_SIZE
    {
      if i < |groups| {
        assert after[i] == before[i];
      } else {
        assert ms != [] && |groups| == 0 ==> before[0] == small;
      }
    }
  }

  /**
   * A message starts a new packet only when the one before has no room for it, and an empty packet
   * goes out exactly ahead of a first message that alone outgrows a slice.
   */
  lemma TightMeans(groups: seq<seq<(nat, Bytes)>>)
    requires Tight(groups)
    ensures Outgrown(groups) && EmptyFirst(groups, AllOf(groups))
  {
    var ms := AllOf(groups);
    PackedShape(ms);
    hide GroupSize;
    hide SerializedSize;
    hide Packed;
    hide AllOf;
  }

  /** A message of 1200 bytes goes out behind an empty packet. */
  lemma EmptyAhead(m: Bytes)
    requires |m| == 1200
    ensures Tight([[], [(0, m)]]) && AllOf([[], [(0, m)]]) == [(0, m)]
  {
    var none: seq<(nat, Bytes)> := [];
    AllSnoc([none], [(0, m)]);
    AllSnoc([], none);
    assert [] + [(0, m)] == [(0, m)] && [none] + [[(0, m)]] == [[], [(0, m)]];
    PackedNext([], (0, m));
  }

  lemma GroupsSnoc(packets: seq<Packet>, p: Packet)
    ensures Groups(packets + [p]) == if p.SmallReliable? then Groups(packets) + [p.messages] else Groups(packets)
  {
    assert (packets + [p])[..|packets|] == packets;
  }

  lemma TightlyStart()
    ensures Tightly([], [])
  {
  }

  /** A message joins those waiting, or starts a new group when there is no room. */
  lemma TightlyPush(packets: seq<Packet>, small: seq<(nat, Bytes)>, p: Packet, id: nat, m: Bytes)
    requires Tightly(packets, small) && p.SmallReliable? && p.messages == small
    ensures GroupSize(small) + SerializedSize(id, m) <= SLICE_SIZE ==> Tightly(packets, small + [(id, m)])
    ensures GroupSize(small) + SerializedSize(id, m) > SLICE_SIZE ==> Tightly(packets + [p], [] + [(id, m)])
  {
    hide GroupSize;
    hide SerializedSize;
    var all := AllOf(Groups(packets));
    GroupsSnoc(packets, p);
    AllSnoc(Groups(packets), small);
    PackedNext(all + small, (id, m));
    hide Packed;
    hide Groups;
    hide AllOf;
    assert all + (small + [(id, m)]) == (all + small) + [(id, m)];
    assert [] + [(id, m)] == [(id, m)];
  }

  /** Slices between small packets do not matter. */
  lemma {:induction false} TightlySlices(packets: seq<Packet>, small: seq<(nat, Bytes)>, more: seq<Packet>)
    requires Tightly(packets, small) && forall i :: 0 <= i < |more| ==> !more[i].SmallReliable?
    ensures Tightly(packets + more, small)
    decreases |more|
  {
    hide Packed;
    if more == [] {
      assert packets + more == packets;
    } else {
      var front, p := more[..|more| - 1], more[|more| - 1];
      TightlySlices(packets, small, front);
      GroupsSnoc(packets + front, p);
      assert packets + more == packets + front + [p];
    }
  }

  lemma TightlyEnd(packets: seq<Packet>, small: seq<(nat, Bytes)>, p: Packet)
    requires Tightly(packets, small) && p.SmallReliable? && p.messages == small
    ensures Tight(Groups(if small == [] then packets else packets + [p]))
  {
    GroupsSnoc(packets, p);
    AllSnoc(Groups(packets), small);
    hide Packed;
    hide AllOf;
    assert AllOf(Groups(packets)) + [] == AllOf(Groups(packets));
  }
}
