/** The unreliable channels of two endpoints, and what every action keeps between them. */
module UnreliableLinks {
  import opened Base
  import opened Slicing
  import opened SliceConstruction
  import opened SendPasses
  import opened ChannelTurns
  import GreedyPasses
  import Sums
  import L = ReliableLinks
  import US = UnreliableSending
  import UR = UnreliableReceiving

  /**
   * The unreliable channels of an endpoint with their history: per channel the messages accepted
   * for sending, the long ones that went out by the id of their slices, and the messages handed to
   * the application.
   */
  datatype Loose = Loose(
    outboxes: map<nat, Outbox>,
    inboxes: map<nat, UR.Receiver>,
    accepted: map<nat, seq<Bytes>>,
    longs: map<nat, seq<Bytes>>,
    handed: map<nat, seq<Bytes>>)

  predicate AllIn(messages: seq<Bytes>, log: seq<Bytes>) {
    forall k :: 0 <= k < |messages| ==> messages[k] in log
  }

  // ----- Operations

  function Send(u: Loose, ch: nat, m: Bytes): Loose
    requires ch in u.outboxes && ch in u.accepted
  {
    var o := WithMessage(u.outboxes[ch], m);
    if o == u.outboxes[ch] then u
    else u.(outboxes := u.outboxes[ch := o], accepted := u.accepted[ch := u.accepted[ch] + [m]])
  }

  function Receive(u: Loose, ch: nat): Loose
    requires ch in u.inboxes && ch in u.handed && UR.Inv(u.inboxes[ch])
  {
    var (r, message) := UR.Receive(u.inboxes[ch]);
    u.(inboxes := u.inboxes[ch := r],
       handed := u.handed[ch := u.handed[ch] + if message.Some? then [message.value] else []])
  }

  /** The long messages of a plan, in the order of their ids. */
  function LongsOf(plan: seq<US.Item>): (longs: seq<Bytes>)
    ensures |longs| == US.Wholes(plan)
  {
    if plan == [] then []
    else
      var item := plan[|plan| - 1];
      LongsOf(plan[..|plan| - 1]) + if item.Whole? then [item.message] else []
  }

  /** The long messages sent so far, once one more channel has had its turn. */
  function Sent(longs: map<nat, seq<Bytes>>, order: ChannelOrder, a: Stage): map<nat, seq<Bytes>> {
    if order.Unreliable? && order.ch in longs && order.ch in a.outboxes then
      var o := a.outboxes[order.ch];
      var plan := US.PlanOf(US.Chosen(o.messages, a.available, o.ordered), o.nextId);
      longs[order.ch := longs[order.ch] + LongsOf(plan)]
    else longs
  }

  function History(longs: map<nat, seq<Bytes>>, order: seq<ChannelOrder>, stages: seq<Stage>): map<nat, seq<Bytes>>
    requires |stages| == |order| + 1
  {
    if order == [] then longs
    else
      var n := |order| - 1;
      Sent(History(longs, order[..n], stages[..n + 1]), order[n], stages[n])
  }

  // ----- The invariant

  /** A packet of an unreliable channel carries messages that were accepted, or slices of one that was sent. */
  ghost predicate Honest(accepted: map<nat, seq<Bytes>>, longs: map<nat, seq<Bytes>>, p: Packet) {
    match p
    case SmallUnreliable(_, ch, payloads) => ch in accepted && AllIn(payloads, accepted[ch])
    case UnreliableSlice(_, ch, slice) => ch in longs && L.HonestSlice(longs[ch], slice)
    case _ => true
  }

  ghost predicate BoxOk(o: Outbox, accepted: seq<Bytes>, longs: seq<Bytes>) {
    o.nextId == |longs| && AllIn(o.messages, accepted) && AllIn(longs, accepted)
  }

  ghost predicate BoxesOk(outboxes: map<nat, Outbox>, accepted: map<nat, seq<Bytes>>, longs: map<nat, seq<Bytes>>) {
    && outboxes.Keys == accepted.Keys == longs.Keys
    && forall ch :: ch in outboxes ==> BoxOk(outboxes[ch], accepted[ch], longs[ch])
  }

  ghost predicate Network(u: Loose, out: map<nat, Packet>) {
    forall q :: q in out ==> Honest(u.accepted, u.longs, out[q])
  }

  /** A channel holds messages that were accepted, and parts of long ones that were sent. */
  ghost predicate Holding(r: UR.Receiver, accepted: seq<Bytes>, longs: seq<Bytes>) {
    && UR.Inv(r) && AllIn(r.messages, accepted)
    && forall id :: id in r.slices ==> id < |longs| && PartOf(r.slices[id], longs[id])
  }

  /** What holds between a sending end and the receiving one. */
  ghost predicate Link(x: Loose, y: Loose) {
    && x.outboxes.Keys == y.inboxes.Keys == y.handed.Keys == x.accepted.Keys == x.longs.Keys
    && forall ch :: ch in x.outboxes ==>
         Holding(y.inboxes[ch], x.accepted[ch], x.longs[ch]) && AllIn(y.handed[ch], x.accepted[ch])
  }

  ghost predicate Grows(log: map<nat, seq<Bytes>>, log': map<nat, seq<Bytes>>) {
    log.Keys == log'.Keys && forall ch :: ch in log ==> log[ch] <= log'[ch]
  }

  lemma AllInMore(messages: seq<Bytes>, log: seq<Bytes>, log': seq<Bytes>)
    requires AllIn(messages, log) && log <= log'
    ensures AllIn(messages, log')
  {
    assert forall m :: m in log ==> m in log';
  }

  lemma HonestStays(accepted: map<nat, seq<Bytes>>, accepted': map<nat, seq<Bytes>>, longs: map<nat, seq<Bytes>>,
                    longs': map<nat, seq<Bytes>>, p: Packet)
    requires Honest(accepted, longs, p) && Grows(accepted, accepted') && Grows(longs, longs')
    ensures Honest(accepted', longs', p)
  {
    if p.SmallUnreliable? {
      AllInMore(p.payloads, accepted[p.channelId], accepted'[p.channelId]);
    }
  }

  lemma NetworkStays(u: Loose, u': Loose, out: map<nat, Packet>)
    requires Network(u, out) && Grows(u.accepted, u'.accepted) && Grows(u.longs, u'.longs)
    ensures Network(u', out)
  {
    hide Honest;
    forall q | q in out
      ensures Honest(u'.accepted, u'.longs, out[q])
    {
      HonestStays(u.accepted, u'.accepted, u.longs, u'.longs, out[q]);
    }
  }

  lemma HoldingStays(r: UR.Receiver, accepted: seq<Bytes>, accepted': seq<Bytes>, longs: seq<Bytes>, longs': seq<Bytes>)
    requires Holding(r, accepted, longs) && accepted <= accepted' && longs <= longs'
    ensures Holding(r, accepted', longs')
  {
    hide UR.Inv;
    hide PartOf;
    AllInMore(r.messages, accepted, accepted');
  }

  /** The sending end accepts or sends more. */
  lemma LinkFrom(x: Loose, x': Loose, y: Loose)
    requires Link(x, y) && Grows(x.accepted, x'.accepted) && Grows(x.longs, x'.longs)
    requires x'.outboxes.Keys == x.outboxes.Keys
    ensures Link(x', y)
  {
    hide Holding;
    hide AllIn;
    forall ch | ch in x.outboxes
      ensures Holding(y.inboxes[ch], x'.accepted[ch], x'.longs[ch]) && AllIn(y.handed[ch], x'.accepted[ch])
    {
      HoldingStays(y.inboxes[ch], x.accepted[ch], x'.accepted[ch], x.longs[ch], x'.longs[ch]);
      AllInMore(y.handed[ch], x.accepted[ch], x'.accepted[ch]);
    }
  }

  // ----- Accepting and handing over

  lemma SendKeeps(u: Loose, ch: nat, m: Bytes, out: map<nat, Packet>, y: Loose)
    requires BoxesOk(u.outboxes, u.accepted, u.longs) && Network(u, out) && Link(u, y) && ch in u.outboxes
    ensures var u' := Send(u, ch, m);
            BoxesOk(u'.outboxes, u'.accepted, u'.longs) && Network(u', out) && Link(u', y)
  {
    hide Holding;
    hide Honest;
    hide Sums.BytesOf;
    var u' := Send(u, ch, m);
    SendGrows(u, ch, m);
    AllInMore(u.longs[ch], u.accepted[ch], u'.accepted[ch]);
    AllInMore(u.outboxes[ch].messages, u.accepted[ch], u'.accepted[ch]);
    NetworkStays(u, u', out);
    LinkFrom(u, u', y);
  }

  lemma SendGrows(u: Loose, ch: nat, m: Bytes)
    requires ch in u.outboxes && ch in u.accepted
    ensures Grows(u.accepted, Send(u, ch, m).accepted) && Grows(u.longs, Send(u, ch, m).longs)
  {
    hide Sums.BytesOf;
  }

  /** One channel of the receiving end changes. */
  lemma LinkAt(y: Loose, x: Loose, ch: nat, r: UR.Receiver, handed: seq<Bytes>)
    requires Link(y, x) && ch in x.inboxes
    requires Holding(r, y.accepted[ch], y.longs[ch]) && AllIn(handed, y.accepted[ch])
    ensures Link(y, x.(inboxes := x.inboxes[ch := r], handed := x.handed[ch := handed]))
  {
    hide Holding;
    hide AllIn;
  }

  lemma ReceiveHolding(r: UR.Receiver, accepted: seq<Bytes>, longs: seq<Bytes>)
    requires Holding(r, accepted, longs)
    ensures var (r', message) := UR.Receive(r);
            Holding(r', accepted, longs) && (message.Some? ==> message.value in accepted)
  {
    hide PartOf;
    hide UR.Inv;
    if r.messages != [] {
      UR.ReceiveInv(r);
    }
  }

  lemma ReceiveKeeps(x: Loose, ch: nat, y: Loose)
    requires Link(y, x) && ch in x.inboxes && UR.Inv(x.inboxes[ch])
    ensures Link(y, Receive(x, ch))
    ensures Receive(x, ch) == x.(inboxes := Receive(x, ch).inboxes, handed := Receive(x, ch).handed)
  {
    hide Holding;
    hide UR.Receive;
    hide UR.Inv;
    var (r, message) := UR.Receive(x.inboxes[ch]);
    ReceiveHolding(x.inboxes[ch], y.accepted[ch], y.longs[ch]);
    LinkAt(y, x, ch, r, x.handed[ch] + if message.Some? then [message.value] else []);
  }

  lemma DiscardHolding(r: UR.Receiver, accepted: seq<Bytes>, longs: seq<Bytes>, now: nat)
    requires Holding(r, accepted, longs)
    ensures Holding(UR.Discarded(r, now), accepted, longs)
  {
    hide UR.Inv;
    hide UR.GivenUp;
    hide PartOf;
    UR.DiscardedInv(r, now);
  }

  lemma DiscardKeeps(x: Loose, now: nat, y: Loose)
    requires Link(y, x)
    ensures Link(y, x.(inboxes := AllDiscarded(x.inboxes, now)))
  {
    hide Holding;
    hide UR.Discarded;
    hide AllIn;
    forall ch | ch in x.inboxes
      ensures Holding(UR.Discarded(x.inboxes[ch], now), y.accepted[ch], y.longs[ch])
    {
      DiscardHolding(x.inboxes[ch], y.accepted[ch], y.longs[ch], now);
    }
  }

  // ----- Arrivals

  lemma {:induction false} QueuedHolding(r: UR.Receiver, payloads: seq<Bytes>, accepted: seq<Bytes>, longs: seq<Bytes>)
    requires Holding(r, accepted, longs) && AllIn(payloads, accepted)
    ensures Holding(Queued(r, payloads), accepted, longs)
    decreases |payloads|
  {
    hide PartOf;
    hide UR.Inv;
    if payloads != [] {
      UR.ProcessMessageInv(r, payloads[0]);
      QueuedHolding(UR.ProcessMessage(r, payloads[0]), payloads[1..], accepted, longs);
    }
  }

  lemma SliceConsistent(r: UR.Receiver, slice: Slice, accepted: seq<Bytes>, longs: seq<Bytes>)
    requires Holding(r, accepted, longs) && L.HonestSlice(longs, slice)
    ensures UR.Inv(r) && UR.Consistent(r, slice)
  {
    hide UR.Inv;
  }

  lemma ConstructorHolding(r: UR.Receiver, slice: Slice, accepted: seq<Bytes>, longs: seq<Bytes>)
    requires Holding(r, accepted, longs) && L.HonestSlice(longs, slice)
    requires slice.messageId in r.slices || r.memory + slice.numSlices * SLICE_SIZE <= r.maxMemory
    ensures Holding(UR.WithConstructor(r, slice), accepted, longs)
  {
    hide UR.Inv;
    hide PartOf;
    SliceConsistent(r, slice, accepted, longs);
    UR.WithConstructorInv(r, slice);
    FreshIsPart(longs[slice.messageId]);
  }

  /** A slice of a long message leaves a part of it, or the message itself; it is never refused. */
  lemma SliceHolding(r: UR.Receiver, slice: Slice, now: nat, accepted: seq<Bytes>, longs: seq<Bytes>)
    requires Holding(r, accepted, longs) && L.HonestSlice(longs, slice) && AllIn(longs, accepted)
    ensures UR.Inv(r) && UR.Consistent(r, slice)
    ensures var (r', res) := UR.ProcessSlice(r, slice, now);
            Holding(r', accepted, longs) && res.Ok?
  {
    hide UR.Inv;
    hide PartOf;
    hide UR.WithConstructor;
    hide Accept;
    SliceConsistent(r, slice, accepted, longs);
    UR.ProcessSliceInv(r, slice, now);
    if slice.messageId in r.slices || r.memory + slice.numSlices * SLICE_SIZE <= r.maxMemory {
      var r1 := UR.WithConstructor(r, slice);
      ConstructorHolding(r, slice, accepted, longs);
      UR.WithConstructorInv(r, slice);
      AcceptHonest(r1.slices[slice.messageId], longs[slice.messageId], slice.sliceIndex);
    }
  }

  /** A packet of the other end leaves the channels holding only what that end sent. */
  lemma ArrivalKeeps(x: Loose, p: Packet, now: nat, inboxes: map<nat, UR.Receiver>, connected: bool, y: Loose)
    requires Link(y, x) && BoxesOk(y.outboxes, y.accepted, y.longs) && Honest(y.accepted, y.longs, p)
    requires Unreliably(x.inboxes, p, now, inboxes, connected)
    ensures Link(y, x.(inboxes := inboxes))
  {
    hide Holding;
    hide AllIn;
    hide Queued;
    hide UR.ProcessSlice;
    hide L.HonestSlice;
    match p
    case SmallUnreliable(_, ch, payloads) =>
      if ch in x.inboxes {
        QueuedHolding(x.inboxes[ch], payloads, y.accepted[ch], y.longs[ch]);
        LinkAt(y, x, ch, inboxes[ch], x.handed[ch]);
      }
    case UnreliableSlice(_, ch, slice) =>
      if ch in x.inboxes {
        SliceHolding(x.inboxes[ch], slice, now, y.accepted[ch], y.longs[ch]);
        LinkAt(y, x, ch, inboxes[ch], x.handed[ch]);
      }
    case _ =>
  }

  /** The other end's packets are sound. */
  lemma ArrivalSound(x: Loose, p: Packet, y: Loose)
    requires Link(y, x) && Honest(y.accepted, y.longs, p)
    ensures UnreliableSound(x.inboxes, p)
  {
    hide Holding;
    hide AllIn;
    hide L.HonestSlice;
    if p.UnreliableSlice? && p.channelId in x.inboxes {
      SliceConsistent(x.inboxes[p.channelId], p.slice, y.accepted[p.channelId], y.longs[p.channelId]);
    }
  }

  /** A packet of the other end for an unreliable channel never ends the connection. */
  lemma ArrivalLasts(x: Loose, p: Packet, now: nat, inboxes: map<nat, UR.Receiver>, connected: bool, y: Loose)
    requires Link(y, x) && BoxesOk(y.outboxes, y.accepted, y.longs) && Honest(y.accepted, y.longs, p)
    requires Unreliably(x.inboxes, p, now, inboxes, connected) && (p.SmallUnreliable? || p.UnreliableSlice?)
    ensures connected
  {
    hide Holding;
    hide AllIn;
    hide Queued;
    hide UR.ProcessSlice;
    hide L.HonestSlice;
    if p.UnreliableSlice? {
      var ch := p.channelId;
      SliceHolding(x.inboxes[ch], p.slice, now, y.accepted[ch], y.longs[ch]);
    }
  }

  // ----- Sending packets

  lemma ChosenFrom(queue: seq<Bytes>, budget: nat, ordered: bool, accepted: seq<Bytes>)
    requires AllIn(queue, accepted)
    ensures AllIn(US.Chosen(queue, budget, ordered), accepted) && AllIn(US.Remaining(queue, budget, ordered), accepted)
  {
    if !ordered {
      AffordableFrom(queue, budget, accepted);
    }
  }

  lemma {:induction false} AffordableFrom(queue: seq<Bytes>, budget: nat, accepted: seq<Bytes>)
    requires AllIn(queue, accepted)
    ensures AllIn(US.Affordable(queue, budget), accepted)
    decreases |queue|
  {
    if queue == [] {
    } else if budget < |queue[0]| {
      AffordableFrom(queue[1..], budget, accepted);
    } else {
      AffordableFrom(queue[1..], budget - |queue[0]|, accepted);
    }
  }

  lemma SameMessages(a: seq<Bytes>, b: seq<Bytes>, accepted: seq<Bytes>)
    requires multiset(a) == multiset(b) && AllIn(b, accepted)
    ensures AllIn(a, accepted)
  {
    forall k | 0 <= k < |a|
      ensures a[k] in accepted
    {
      assert a[k] in multiset(a);
      assert a[k] in b;
    }
  }

  lemma AllInParts(a: seq<Bytes>, b: seq<Bytes>, accepted: seq<Bytes>)
    requires AllIn(a + b, accepted)
    ensures AllIn(a, accepted) && AllIn(b, accepted)
  {
    forall k | 0 <= k < |a|
      ensures a[k] in accepted
    {
      assert (a + b)[k] == a[k];
    }
    forall k | 0 <= k < |b|
      ensures b[k] in accepted
    {
      assert (a + b)[|a| + k] == b[k];
    }
  }

  /** A packet of one channel. */
  ghost predicate HonestFor(accepted: seq<Bytes>, longs: seq<Bytes>, ch: nat, p: Packet) {
    match p
    case SmallUnreliable(_, c, payloads) => c == ch && AllIn(payloads, accepted)
    case UnreliableSlice(_, c, slice) => c == ch && L.HonestSlice(longs, slice)
    case _ => false
  }

  ghost predicate AllHonestFor(accepted: seq<Bytes>, longs: seq<Bytes>, ch: nat, packets: seq<Packet>) {
    forall k :: 0 <= k < |packets| ==> HonestFor(accepted, longs, ch, packets[k])
  }

  lemma ItemHonest(item: US.Item, ch: nat, first: nat, accepted: seq<Bytes>, longs: seq<Bytes>)
    requires US.ItemOk(item) && AllIn(US.Out(item), accepted)
    requires item.Whole? ==> item.id < |longs| && longs[item.id] == item.message
    ensures AllHonestFor(accepted, longs, ch, US.PacketsFor(item, ch, first))
  {
  }

  lemma HonestForMore(accepted: seq<Bytes>, longs: seq<Bytes>, longs': seq<Bytes>, ch: nat, packets: seq<Packet>)
    requires AllHonestFor(accepted, longs, ch, packets) && longs <= longs'
    ensures AllHonestFor(accepted, longs', ch, packets)
  {
    hide AllIn;
  }

  lemma PlanParts(plan: seq<US.Item>, firstId: nat)
    requires US.PlanOk(plan, firstId) && plan != []
    ensures var front, item := plan[..|plan| - 1], plan[|plan| - 1];
            US.PlanOk(front, firstId) && US.ItemOk(item) && (item.Whole? ==> item.id == firstId + US.Wholes(front))
  {
    hide US.ItemOk;
    hide US.Wholes;
    var front := plan[..|plan| - 1];
    forall i | 0 <= i < |front| && front[i].Whole?
      ensures front[i].id == firstId + US.Wholes(front[..i])
    {
      assert front[..i] == plan[..i];
    }
  }

  lemma HonestForJoined(accepted: seq<Bytes>, longs: seq<Bytes>, ch: nat, a: seq<Packet>, b: seq<Packet>)
    requires AllHonestFor(accepted, longs, ch, a) && AllHonestFor(accepted, longs, ch, b)
    ensures AllHonestFor(accepted, longs, ch, a + b)
  {
    hide HonestFor;
  }

  /** The log of a plan is that of its front, and then the last message if it goes in slices. */
  lemma LongsGrow(longs: seq<Bytes>, plan: seq<US.Item>)
    requires plan != []
    ensures var front, item := plan[..|plan| - 1], plan[|plan| - 1];
            && longs + LongsOf(front) <= longs + LongsOf(plan)
            && |LongsOf(front)| == US.Wholes(front)
            && (item.Whole? ==> longs + LongsOf(plan) == longs + LongsOf(front) + [item.message])
  {
    LongsCount(plan[..|plan| - 1]);
  }

  lemma {:induction false} LongsCount(plan: seq<US.Item>)
    ensures |LongsOf(plan)| == US.Wholes(plan)
  {
    if plan != [] {
      LongsCount(plan[..|plan| - 1]);
    }
  }

  lemma PlanStep(front: seq<US.Item>, item: US.Item, plan: seq<US.Item>, ch: nat, first: nat, accepted: seq<Bytes>,
                 longs: seq<Bytes>)
    requires plan == front + [item]
    requires AllHonestFor(accepted, longs, ch, US.PacketsOf(front, ch, first))
    requires AllHonestFor(accepted, longs, ch, US.PacketsFor(item, ch, first + |US.PacketsOf(front, ch, first)|))
    ensures AllHonestFor(accepted, longs, ch, US.PacketsOf(plan, ch, first))
  {
    hide AllHonestFor;
    hide US.PacketsFor;
    assert plan[..|plan| - 1] == front;
    var packets := US.PacketsOf(front, ch, first);
    HonestForJoined(accepted, longs, ch, packets, US.PacketsFor(item, ch, first + |packets|));
  }

  lemma PlanMessages(plan: seq<US.Item>, accepted: seq<Bytes>)
    requires plan != [] && AllIn(US.MessagesOf(plan), accepted)
    ensures AllIn(US.MessagesOf(plan[..|plan| - 1]), accepted) && AllIn(US.Out(plan[|plan| - 1]), accepted)
  {
    AllInParts(US.MessagesOf(plan[..|plan| - 1]), US.Out(plan[|plan| - 1]), accepted);
  }

  lemma {:induction false} LongsIn(plan: seq<US.Item>, accepted: seq<Bytes>)
    requires AllIn(US.MessagesOf(plan), accepted)
    ensures AllIn(LongsOf(plan), accepted)
  {
    if plan != [] {
      PlanMessages(plan, accepted);
      LongsIn(plan[..|plan| - 1], accepted);
    }
  }

  /** The packets of a plan carry its messages: small ones as they are, long ones in slices by id. */
  lemma {:induction false} PlanHonest(plan: seq<US.Item>, ch: nat, first: nat, accepted: seq<Bytes>, longs: seq<Bytes>)
    requires US.PlanOk(plan, |longs|) && AllIn(US.MessagesOf(plan), accepted)
    ensures AllHonestFor(accepted, longs + LongsOf(plan), ch, US.PacketsOf(plan, ch, first))
  {
    hide US.PlanOk;
    hide US.ItemOk;
    hide US.PacketsFor;
    hide US.MessagesOf;
    hide LongsOf;
    hide AllIn;
    if plan == [] {
    } else {
      hide AllHonestFor;
      hide US.PacketsOf;
      var front, item := plan[..|plan| - 1], plan[|plan| - 1];
      PlanParts(plan, |longs|);
      PlanMessages(plan, accepted);
      LongsGrow(longs, plan);
      PlanHonest(front, ch, first, accepted, longs);
      var packets := US.PacketsOf(front, ch, first);
      HonestForMore(accepted, longs + LongsOf(front), longs + LongsOf(plan), ch, packets);
      ItemHonest(item, ch, first + |packets|, accepted, longs + LongsOf(plan));
      PlanStep(front, item, plan, ch, first, accepted, longs + LongsOf(plan));
    }
  }

  /** Packets of all kinds, made by the channels that had their turn. */
  ghost predicate AllHonest(accepted: map<nat, seq<Bytes>>, longs: map<nat, seq<Bytes>>, packets: seq<Packet>) {
    forall k :: 0 <= k < |packets| ==> Honest(accepted, longs, packets[k])
  }

  lemma AllHonestMore(accepted: map<nat, seq<Bytes>>, longs: map<nat, seq<Bytes>>, longs': map<nat, seq<Bytes>>,
                      packets: seq<Packet>)
    requires AllHonest(accepted, longs, packets) && Grows(longs, longs')
    ensures AllHonest(accepted, longs', packets)
  {
    hide Honest;
    forall k | 0 <= k < |packets|
      ensures Honest(accepted, longs', packets[k])
    {
      HonestStays(accepted, accepted, longs, longs', packets[k]);
    }
  }

  /** What holds before and after each turn. */
  ghost predicate StageOk(a: Stage, accepted: map<nat, seq<Bytes>>, longs: map<nat, seq<Bytes>>) {
    BoxesOk(a.outboxes, accepted, longs) && AllHonest(accepted, longs, a.packets)
  }

  lemma UnreliableTurn(a: Stage, ch: nat, b: Stage, first: nat, now: nat, accepted: map<nat, seq<Bytes>>,
                       longs: map<nat, seq<Bytes>>)
    requires StageOk(a, accepted, longs) && Turn(Unreliable(ch), a, b, first, now)
    ensures StageOk(b, accepted, Sent(longs, Unreliable(ch), a)) && Grows(longs, Sent(longs, Unreliable(ch), a))
  {
    hide US.PlanOk;
    hide US.PlanOf;
    hide US.Chosen;
    hide US.Remaining;
    hide US.PacketsOf;
    hide US.MessagesOf;
    hide AllIn;
    hide LongsOf;
    hide US.LongFirst;
    hide Sums.BytesOf;
    hide Honest;
    var o := a.outboxes[ch];
    var more := b.packets[|a.packets|..];
    var plan :| UnreliablePass(o, ch, first + |a.packets|, a.available, plan, more, b.available, b.outboxes[ch]);
    var taken := US.Chosen(o.messages, a.available, o.ordered);
    var longs' := Sent(longs, Unreliable(ch), a);
    ChosenFrom(o.messages, a.available, o.ordered, accepted[ch]);
    SameMessages(US.MessagesOf(plan), taken, accepted[ch]);
    PlanHonest(plan, ch, first + |a.packets|, accepted[ch], longs[ch]);
    LongsIn(plan, accepted[ch]);
    AllInJoined(longs[ch], LongsOf(plan), accepted[ch]);
    AllHonestMore(accepted, longs, longs', a.packets);
    OwnHonest(accepted, longs', ch, more);
    AllHonestJoined(accepted, longs', a.packets, more, b.packets);
  }

  lemma AllInJoined(a: seq<Bytes>, b: seq<Bytes>, accepted: seq<Bytes>)
    requires AllIn(a, accepted) && AllIn(b, accepted)
    ensures AllIn(a + b, accepted)
  {
  }

  lemma OwnHonest(accepted: map<nat, seq<Bytes>>, longs: map<nat, seq<Bytes>>, ch: nat, packets: seq<Packet>)
    requires ch in accepted && ch in longs && AllHonestFor(accepted[ch], longs[ch], ch, packets)
    ensures AllHonest(accepted, longs, packets)
  {
    hide AllIn;
    hide L.HonestSlice;
  }

  lemma AllHonestJoined(accepted: map<nat, seq<Bytes>>, longs: map<nat, seq<Bytes>>, a: seq<Packet>, b: seq<Packet>,
                        packets: seq<Packet>)
    requires AllHonest(accepted, longs, a) && AllHonest(accepted, longs, b)
    requires |a| <= |packets| && packets[..|a|] == a && packets[|a|..] == b
    ensures AllHonest(accepted, longs, packets)
  {
    hide Honest;
    assert packets == a + b;
  }

  lemma ReliableTurn(a: Stage, ch: nat, b: Stage, first: nat, now: nat, accepted: map<nat, seq<Bytes>>,
                     longs: map<nat, seq<Bytes>>)
    requires StageOk(a, accepted, longs) && Turn(Reliable(ch), a, b, first, now)
    ensures StageOk(b, accepted, longs)
  {
    hide GreedyPasses.Greedy;
    hide GreedyPasses.Tight;
    hide SentOk;
    hide TimersOk;
    hide BoxesOk;
    var more := b.packets[|a.packets|..];
    forall k | 0 <= k < |more|
      ensures Honest(accepted, longs, more[k])
    {
      assert Carries(a.senders[ch], more[k]);
    }
    AllHonestJoined(accepted, longs, a.packets, more, b.packets);
  }

  /** After all turns, every packet is honest and the boxes agree with what was sent. */
  lemma {:induction false} TurnsHonest(order: seq<ChannelOrder>, stages: seq<Stage>, first: nat, now: nat,
                                       accepted: map<nat, seq<Bytes>>, longs: map<nat, seq<Bytes>>)
    requires Turns(order, stages, first, now) && StageOk(stages[0], accepted, longs)
    ensures StageOk(stages[|order|], accepted, History(longs, order, stages))
    ensures Grows(longs, History(longs, order, stages))
    decreases |order|
  {
    hide StageOk;
    hide Turn;
    hide Sent;
    if order != [] {
      var n := |order| - 1;
      TurnsHonest(order[..n], stages[..n + 1], first, now, accepted, longs);
      var before := History(longs, order[..n], stages[..n + 1]);
      assert Turn(order[n], stages[n], stages[n + 1], first, now);
      match order[n]
      case Reliable(ch) =>
        ReliableTurn(stages[n], ch, stages[n + 1], first, now, accepted, before);
        NothingSent(before, order[n], stages[n]);
      case Unreliable(ch) =>
        UnreliableTurn(stages[n], ch, stages[n + 1], first, now, accepted, before);
    }
  }

  lemma NothingSent(longs: map<nat, seq<Bytes>>, order: ChannelOrder, a: Stage)
    requires order.Reliable?
    ensures Sent(longs, order, a) == longs
  {
  }

  // ----- Parts of the invariant that an action leaves as they are

  lemma GrowsSame(log: map<nat, seq<Bytes>>)
    ensures Grows(log, log)
  {
  }

  lemma NetworkAt(u: Loose, out: map<nat, Packet>, q: nat)
    requires Network(u, out) && q in out
    ensures Honest(u.accepted, u.longs, out[q])
  {
    hide Honest;
  }

  lemma BoxesKept(x: Loose, x': Loose)
    requires BoxesOk(x.outboxes, x.accepted, x.longs) && BoxesOk(x'.outboxes, x'.accepted, x'.longs)
    requires x'.accepted == x.accepted
    ensures x'.outboxes.Keys == x.outboxes.Keys
  {
    hide BoxOk;
  }

  lemma LinkTo(y: Loose, x: Loose, x': Loose)
    requires Link(y, x) && x'.inboxes == x.inboxes && x'.handed == x.handed
    ensures Link(y, x')
  {
    hide Holding;
    hide AllIn;
  }

  lemma SendLink(y: Loose, x: Loose, ch: nat, m: Bytes)
    requires Link(y, x) && ch in x.outboxes && ch in x.accepted
    ensures Link(y, Send(x, ch, m))
  {
    hide Link;
    hide Sums.BytesOf;
    LinkTo(y, x, Send(x, ch, m));
  }

  lemma InboxesOnly(x: Loose, x': Loose, out: map<nat, Packet>, y: Loose)
    requires BoxesOk(x.outboxes, x.accepted, x.longs) && Network(x, out) && Link(x, y)
    requires x'.outboxes == x.outboxes && x'.accepted == x.accepted && x'.longs == x.longs
    ensures BoxesOk(x'.outboxes, x'.accepted, x'.longs) && Network(x', out) && Link(x', y)
  {
    hide BoxOk;
    hide Holding;
    hide Honest;
    hide AllIn;
  }

  // ----- New channels

  ghost predicate Fresh(u: Loose) {
    && (forall ch :: ch in u.outboxes ==> u.outboxes[ch].messages == [] && u.outboxes[ch].nextId == 0)
    && (forall ch :: ch in u.inboxes ==> exists maxMemory :: u.inboxes[ch] == UR.Empty(maxMemory))
    && u.accepted == (map ch | ch in u.outboxes :: [])
    && u.longs == (map ch | ch in u.outboxes :: [])
    && u.handed == (map ch | ch in u.inboxes :: [])
  }

  lemma FreshBoxes(u: Loose)
    requires Fresh(u)
    ensures BoxesOk(u.outboxes, u.accepted, u.longs)
  {
  }

  lemma FreshInbox(u: Loose, ch: nat, accepted: seq<Bytes>, longs: seq<Bytes>)
    requires Fresh(u) && ch in u.inboxes
    ensures Holding(u.inboxes[ch], accepted, longs)
  {
    var maxMemory :| u.inboxes[ch] == UR.Empty(maxMemory);
  }

  lemma FreshLink(x: Loose, y: Loose)
    requires Fresh(x) && Fresh(y) && x.outboxes.Keys == y.inboxes.Keys
    ensures Link(x, y)
  {
    hide Holding;
    forall ch | ch in y.inboxes
      ensures Holding(y.inboxes[ch], x.accepted[ch], x.longs[ch])
    {
      FreshInbox(y, ch, x.accepted[ch], x.longs[ch]);
    }
  }
}

/**
 * Two endpoints and a network that may lose, delay, duplicate and reorder packets. The network
 * is every packet ever handed to it: delivery picks any one, any number of times.
 */
module Connections {
  import opened Base
  import opened AckRanges
  import opened SendPasses
  import opened ChannelTurns
  import opened ChannelPairs
  import opened Endpoints
  import R = ReliableReceiving
  import L = ReliableLinks
  import U = UnreliableLinks
  import UR = UnreliableReceiving

  /** An endpoint: its ledger and reliable channels, and its unreliable ones, each with its history. */
  datatype Node = Node(p: L.Peer, u: U.Loose)

  datatype Action =
    | Send(ch: nat, m: Bytes)
    | Receive(ch: nat)
    | Update(duration: nat)
    | Transmit(packets: seq<Packet>, order: seq<ChannelOrder>, stages: seq<Stage>)
    | Deliver(q: nat, pending: seq<Range>, acks: seq<nat>)
    | Disconnect

  /** What `x` becomes when it takes the action; `y` is the other end. */
  ghost predicate Act(x: Node, y: Node, a: Action, x': Node) {
    match a
    case Send(ch, m) =>
      if ch in x.p.e.senders then L.Act(x.p, y.p, L.Send(ch, m), x'.p) && x'.u == x.u
      else x.p.e.connected && ch in x.u.outboxes && ch in x.u.accepted && x' == x.(u := U.Send(x.u, ch, m))
    case Receive(ch) =>
      if ch in x.p.e.receivers then L.Act(x.p, y.p, L.Receive(ch), x'.p) && x'.u == x.u
      else
        && x.p.e.connected && ch in x.u.inboxes && ch in x.u.handed && UR.Inv(x.u.inboxes[ch])
        && x' == x.(u := U.Receive(x.u, ch))
    case Update(duration) =>
      && L.Act(x.p, y.p, L.Update(duration), x'.p)
      && x'.u == x.u.(inboxes := AllDiscarded(x.u.inboxes, x'.p.e.time))
    case Transmit(packets, order, stages) =>
      L.Act(x.p, y.p, L.Transmit(packets), x'.p) && Transmits(x, packets, order, stages, x')
    case Deliver(q, pending, acks) =>
      && q in y.p.out && L.Act(x.p, y.p, L.Deliver(q, pending, acks), x'.p)
      && x'.u == x.u.(inboxes := x'.u.inboxes)
      && Unreliably(x.u.inboxes, y.p.out[q], x.p.e.time, x'.u.inboxes, x'.p.e.connected)
    case Disconnect => L.Act(x.p, y.p, L.Disconnect, x'.p) && x'.u == x.u
  }

  /** Every channel has its turn, and the acks pending go last. */
  ghost predicate Transmits(x: Node, packets: seq<Packet>, order: seq<ChannelOrder>, stages: seq<Stage>, x': Node) {
    && Turns(order, stages, x.p.e.sequence, x.p.e.time)
    && stages[0] == Stage(x.p.e.senders, x.u.outboxes, [], stages[0].available)
    && stages[|order|] == Stage(x'.p.e.senders, x'.u.outboxes, FromChannels(packets, x.p.e.pendingAcks),
                                stages[|order|].available)
    && (forall i :: 0 <= i < |packets| ==> (packets[i].Ack? <==> i == |packets| - 1 && x.p.e.pendingAcks != []))
    && (x.p.e.pendingAcks != [] ==> packets != [])
    && x'.u == x.u.(outboxes := x'.u.outboxes, longs := U.History(x.u.longs, order, stages))
  }

  datatype System = System(a: Node, b: Node)

  datatype Step = ByA(action: Action) | ByB(action: Action)

  /** The two ways messages flow. */
  datatype Direction = AToB | BToA

  function Sending(s: System, d: Direction): Node {
    if d == AToB then s.a else s.b
  }

  function Receiving(s: System, d: Direction): Node {
    if d == AToB then s.b else s.a
  }

  ghost predicate Next(s: System, step: Step, s': System) {
    match step
    case ByA(action) => Act(s.a, s.b, action, s'.a) && s'.b == s.b
    case ByB(action) => Act(s.b, s.a, action, s'.b) && s'.a == s.a
  }

  /** One end sends on the channels the other receives on. */
  predicate Matched(x: Node, y: Node) {
    x.p.e.senders.Keys == y.p.e.receivers.Keys && x.u.outboxes.Keys == y.u.inboxes.Keys
  }

  /** Both ends are new and configured alike. */
  ghost predicate Init(s: System) {
    && L.Fresh(s.a.p) && L.Fresh(s.b.p) && U.Fresh(s.a.u) && U.Fresh(s.b.u)
    && Matched(s.a, s.b) && Matched(s.b, s.a)
  }

  ghost predicate Inv(s: System) {
    L.Joined(s.a.p, s.b.p) && Loosely(s.a, s.b) && Loosely(s.b, s.a)
  }

  /** What holds of the unreliable channels from `x` to `y`. */
  ghost predicate Loosely(x: Node, y: Node) {
    && U.BoxesOk(x.u.outboxes, x.u.accepted, x.u.longs)
    && U.Network(x.u, x.p.out)
    && U.Link(x.u, y.u)
  }

  // ----- Every step keeps the invariant

  lemma LooselySame(x: Node, x': Node, y: Node)
    requires Loosely(x, y) && Loosely(y, x) && x'.u == x.u && x'.p.out == x.p.out
    ensures Loosely(x', y) && Loosely(y, x')
  {
    hide U.BoxesOk;
    hide U.Network;
    hide U.Link;
  }

  lemma PacketsKept(x: L.Peer, y: L.Peer, a: L.Action, x': L.Peer)
    requires L.Act(x, y, a, x') && !a.Transmit?
    ensures x'.out == x.out
  {
    hide Endpoints.Inv;
    hide Process;
    hide Endpoints.SendMessage;
    hide Endpoints.ReceiveMessage;
    hide Tick;
  }

  lemma NewPackets(x: Node, packets: seq<Packet>, made: seq<Packet>, x': Node)
    requires U.Network(x.u, x.p.out) && L.Transmits(x.p, packets, x'.p)
    requires U.Grows(x.u.accepted, x'.u.accepted) && U.Grows(x.u.longs, x'.u.longs)
    requires U.AllHonest(x'.u.accepted, x'.u.longs, made) && made == FromChannels(packets, x.p.e.pendingAcks)
    requires forall i :: 0 <= i < |packets| ==> (packets[i].Ack? <==> i == |packets| - 1 && x.p.e.pendingAcks != [])
    ensures U.Network(x'.u, x'.p.out)
  {
    hide Flush;
    U.NetworkStays(x.u, x'.u, x.p.out);
    forall i | 0 <= i < |packets|
      ensures U.Honest(x'.u.accepted, x'.u.longs, packets[i])
    {
      assert packets[i].Ack? || packets[i] == made[i];
    }
    hide U.Honest;
  }

  lemma TransmitKeeps(x: Node, y: Node, packets: seq<Packet>, order: seq<ChannelOrder>, stages: seq<Stage>, x': Node)
    requires Loosely(x, y) && Loosely(y, x) && L.Transmits(x.p, packets, x'.p)
    requires Transmits(x, packets, order, stages, x')
    ensures Loosely(x', y) && Loosely(y, x')
  {
    hide Turns;
    hide L.Transmits;
    hide FromChannels;
    hide U.BoxesOk;
    hide U.Network;
    hide U.Honest;
    hide U.Link;
    hide U.Grows;
    TurnsLength(order, stages, x.p.e.sequence, x.p.e.time);
    U.TurnsHonest(order, stages, x.p.e.sequence, x.p.e.time, x.u.accepted, x.u.longs);
    U.GrowsSame(x.u.accepted);
    NewPackets(x, packets, stages[|order|].packets, x');
    U.BoxesKept(x.u, x'.u);
    U.LinkFrom(x.u, x'.u, y.u);
    U.LinkTo(y.u, x.u, x'.u);
  }

  lemma LooseActKeeps(x: Node, y: Node, a: Action, x': Node)
    requires Loosely(x, y) && Loosely(y, x) && Act(x, y, a, x')
    ensures Loosely(x', y) && Loosely(y, x')
  {
    hide L.Act;
    hide Transmits;
    hide U.BoxesOk;
    hide U.Network;
    hide U.Link;
    hide U.Send;
    hide U.Receive;
    hide Unreliably;
    hide AllDiscarded;
    hide UR.Inv;
    match a
    case Send(ch, m) =>
      if ch in x.p.e.senders {
        PacketsKept(x.p, y.p, L.Send(ch, m), x'.p);
        LooselySame(x, x', y);
      } else {
        U.SendKeeps(x.u, ch, m, x.p.out, y.u);
        U.SendLink(y.u, x.u, ch, m);
      }
    case Receive(ch) =>
      if ch in x.p.e.receivers {
        PacketsKept(x.p, y.p, L.Receive(ch), x'.p);
        LooselySame(x, x', y);
      } else {
        U.ReceiveKeeps(x.u, ch, y.u);
        U.InboxesOnly(x.u, U.Receive(x.u, ch), x.p.out, y.u);
      }
    case Update(duration) =>
      PacketsKept(x.p, y.p, L.Update(duration), x'.p);
      U.DiscardKeeps(x.u, x'.p.e.time, y.u);
      U.InboxesOnly(x.u, x'.u, x.p.out, y.u);
    case Transmit(packets, order, stages) =>
      assert L.Transmits(x.p, packets, x'.p) by {
        TransmitsOf(x.p, y.p, packets, x'.p);
      }
      TransmitKeeps(x, y, packets, order, stages, x');
    case Deliver(q, pending, acks) =>
      PacketsKept(x.p, y.p, L.Deliver(q, pending, acks), x'.p);
      U.NetworkAt(y.u, y.p.out, q);
      U.ArrivalKeeps(x.u, y.p.out[q], x.p.e.time, x'.u.inboxes, x'.p.e.connected, y.u);
      U.InboxesOnly(x.u, x'.u, x.p.out, y.u);
    case Disconnect =>
      PacketsKept(x.p, y.p, L.Disconnect, x'.p);
      LooselySame(x, x', y);
  }

  lemma TransmitsOf(x: L.Peer, y: L.Peer, packets: seq<Packet>, x': L.Peer)
    requires L.Act(x, y, L.Transmit(packets), x')
    ensures L.Transmits(x, packets, x')
  {
    hide L.Transmits;
  }

  lemma ActKeeps(x: Node, y: Node, a: Action, x': Node)
    requires L.Joined(x.p, y.p) && Act(x, y, a, x')
    ensures L.Joined(x'.p, y.p)
  {
    hide L.Joined;
    hide L.Act;
    match a
    case Send(ch, m) =>
      if ch in x.p.e.senders {
        L.ActKeeps(x.p, y.p, L.Send(ch, m), x'.p);
      }
    case Receive(ch) =>
      if ch in x.p.e.receivers {
        L.ActKeeps(x.p, y.p, L.Receive(ch), x'.p);
      }
    case Update(duration) => L.ActKeeps(x.p, y.p, L.Update(duration), x'.p);
    case Transmit(packets, _, _) => L.ActKeeps(x.p, y.p, L.Transmit(packets), x'.p);
    case Deliver(q, pending, acks) => L.ActKeeps(x.p, y.p, L.Deliver(q, pending, acks), x'.p);
    case Disconnect => L.ActKeeps(x.p, y.p, L.Disconnect, x'.p);
  }

  lemma NextKeeps(s: System, step: Step, s': System)
    requires Inv(s) && Next(s, step, s')
    ensures Inv(s')
  {
    hide L.Joined;
    hide Act;
    hide Loosely;
    L.JoinedBack(s.a.p, s.b.p);
    match step
    case ByA(action) =>
      ActKeeps(s.a, s.b, action, s'.a);
      LooseActKeeps(s.a, s.b, action, s'.a);
    case ByB(action) =>
      ActKeeps(s.b, s.a, action, s'.b);
      LooseActKeeps(s.b, s.a, action, s'.b);
      L.JoinedBack(s'.b.p, s'.a.p);
  }

  lemma InitInv(s: System)
    requires Init(s)
    ensures Inv(s)
  {
    hide L.Fresh;
    hide U.Fresh;
    hide U.BoxesOk;
    hide U.Link;
    hide L.Link;
    hide L.Side;
    hide L.Network;
    L.FreshSide(s.a.p);
    L.FreshSide(s.b.p);
    L.FreshLink(s.a.p, s.b.p);
    L.FreshLink(s.b.p, s.a.p);
    FreshLoosely(s.a, s.b);
    FreshLoosely(s.b, s.a);
  }

  lemma FreshLoosely(x: Node, y: Node)
    requires L.Fresh(x.p) && U.Fresh(x.u) && U.Fresh(y.u) && Matched(x, y)
    ensures Loosely(x, y)
  {
    hide U.BoxesOk;
    hide U.Link;
    U.FreshBoxes(x.u);
    U.FreshLink(x.u, y.u);
  }

  // ----- Every run

  /** A run: a sequence of states, each the next of the one before. */
  ghost predicate Run(states: seq<System>, steps: seq<Step>) {
    && |states| == |steps| + 1 && Init(states[0])
    && forall i :: 0 <= i < |steps| ==> Next(states[i], steps[i], states[i + 1])
  }

  lemma {:induction false} RunInv(states: seq<System>, steps: seq<Step>, i: nat)
    requires Run(states, steps) && i < |states|
    ensures Inv(states[i])
  {
    hide Inv;
    hide Next;
    hide Init;
    if i == 0 {
      InitInv(states[0]);
    } else {
      RunInv(states, steps, i - 1);
      NextKeeps(states[i - 1], steps[i - 1], states[i]);
    }
  }

  lemma EitherWay(states: seq<System>, steps: seq<Step>, i: nat, d: Direction)
    requires Run(states, steps) && i < |states|
    ensures var x, y := Sending(states[i], d), Receiving(states[i], d);
            L.Joined(x.p, y.p) && L.Joined(y.p, x.p) && Loosely(x, y)
  {
    hide Run;
    hide L.Joined;
    hide Loosely;
    RunInv(states, steps, i);
    L.JoinedBack(states[i].a.p, states[i].b.p);
  }

  /**
   * In every reachable state, a message that was accepted is still stored by its sender, or held
   * by the receiver as it was sent, or has been handed to the application as it was sent.
   */
  lemma NoMessageLost(states: seq<System>, steps: seq<Step>, i: nat, d: Direction, ch: nat, id: nat)
    requires Run(states, steps) && i < |states|
    requires var log := Sending(states[i], d).p.log; ch in log && id < |log[ch]|
    ensures var x, y := Sending(states[i], d).p, Receiving(states[i], d).p;
            && ch in x.e.senders && ch in y.e.receivers && ch in y.delivered
            && var m := x.log[ch][id];
               || (id in x.e.senders[ch].unacked && x.e.senders[ch].unacked[id].message == m)
               || (id in y.e.receivers[ch].messages && y.e.receivers[ch].messages[id] == m)
               || L.HandedOver(y.delivered[ch], id, m)
  {
    hide Run;
    hide Loosely;
    hide L.Joined;
    hide R.Mirrors;
    hide R.Exact;
    hide R.Inv;
    hide R.Got;
    hide L.Faithful;
    EitherWay(states, steps, i, d);
    var x, y := Sending(states[i], d).p, Receiving(states[i], d).p;
    L.PairFacts(x, y, ch);
    L.TakenInIsHeld(y.e.receivers[ch], y.delivered[ch], x.log[ch], id);
  }

  /**
   * A slice that its sender counts as acked is not lost either: the receiver's constructor holds
   * its bytes, or the message has been put together.
   */
  lemma NoSliceLost(states: seq<System>, steps: seq<Step>, i: nat, d: Direction, ch: nat, id: nat, k: nat)
    requires Run(states, steps) && i < |states| && ch in Sending(states[i], d).p.log
    requires var senders := Sending(states[i], d).p.e.senders; ch in senders && Flagged(senders[ch], id, k)
    ensures var x, y := Sending(states[i], d).p, Receiving(states[i], d).p;
            && ch in y.e.receivers && ch in y.delivered && id < |x.log[ch]|
            && var m := x.log[ch][id];
               || L.Gathered(y.e.receivers[ch], id, k, m)
               || (id in y.e.receivers[ch].messages && y.e.receivers[ch].messages[id] == m)
               || L.HandedOver(y.delivered[ch], id, m)
  {
    hide Run;
    hide Loosely;
    hide L.Joined;
    hide R.Mirrors;
    hide R.Exact;
    hide R.Inv;
    hide R.Got;
    hide L.Faithful;
    hide L.Gathered;
    EitherWay(states, steps, i, d);
    var x, y := Sending(states[i], d).p, Receiving(states[i], d).p;
    L.PairFacts(x, y, ch);
    L.TakenInIsHeld(y.e.receivers[ch], y.delivered[ch], x.log[ch], id);
    assert R.GotSlice(y.e.receivers[ch], id, k);
    L.IsGathered(y.e.receivers[ch], x.log[ch], id, k);
  }

  /**
   * Once a sender has drained, the other end has everything: each message is waiting there or has
   * been handed over, and on an ordered channel all that has not been handed over is next in line.
   */
  lemma DrainedIsThere(states: seq<System>, steps: seq<Step>, i: nat, d: Direction, ch: nat)
    requires Run(states, steps) && i < |states| && ch in Sending(states[i], d).p.log
    requires var senders := Sending(states[i], d).p.e.senders; ch in senders && senders[ch].unacked == map[]
    ensures ch in Receiving(states[i], d).p.e.receivers && ch in Receiving(states[i], d).p.delivered
    ensures var r, log := Receiving(states[i], d).p.e.receivers[ch], Sending(states[i], d).p.log[ch];
            var delivered := Receiving(states[i], d).p.delivered[ch];
            forall id :: 0 <= id < |log| ==>
              || (id in r.messages && r.messages[id] == log[id])
              || (L.HandedOver(delivered, id, log[id]) && (r.order.Ordered? ==> id < |delivered|))
  {
    hide Run;
    hide Loosely;
    hide L.Joined;
    EitherWay(states, steps, i, d);
    var x, y := Sending(states[i], d).p, Receiving(states[i], d).p;
    L.PairFacts(x, y, ch);
    hide R.Mirrors;
    hide R.Inv;
    hide R.Got;
    hide Safe;
    hide L.Faithful;
    forall id | 0 <= id < |x.log[ch]|
      ensures
        || (id in y.e.receivers[ch].messages && y.e.receivers[ch].messages[id] == x.log[ch][id])
        || (&& L.HandedOver(y.delivered[ch], id, x.log[ch][id])
            && (y.e.receivers[ch].order.Ordered? ==> id < |y.delivered[ch]|))
    {
      NoMessageLost(states, steps, i, d, ch, id);
    }
  }

  /** On an ordered channel, what is handed over is at all times a prefix of what was sent. */
  lemma OrderedDelivery(states: seq<System>, steps: seq<Step>, i: nat, d: Direction, ch: nat)
    requires Run(states, steps) && i < |states| && ch in Sending(states[i], d).p.log
    requires var receivers := Receiving(states[i], d).p.e.receivers; ch in receivers && receivers[ch].order.Ordered?
    ensures var delivered, log := Receiving(states[i], d).p.delivered, Sending(states[i], d).p.log;
            ch in delivered && L.Payloads(delivered[ch]) <= log[ch]
  {
    hide Run;
    hide Loosely;
    hide L.Joined;
    hide R.Mirrors;
    hide R.Exact;
    hide R.Inv;
    hide L.Faithful;
    hide L.Payloads;
    EitherWay(states, steps, i, d);
    var x, y := Sending(states[i], d).p, Receiving(states[i], d).p;
    L.PairFacts(x, y, ch);
    L.OrderedPrefix(y.e.receivers[ch], y.delivered[ch], x.log[ch]);
  }

  /**
   * On an unordered channel no message is handed over twice, all are as they were sent, and the
   * channel is never stuck: everything below the pointer has been taken in, and the message the
   * pointer waits for, once taken in, is there to be handed over.
   */
  lemma UnorderedDelivery(states: seq<System>, steps: seq<Step>, i: nat, d: Direction, ch: nat)
    requires Run(states, steps) && i < |states| && ch in Sending(states[i], d).p.log
    requires var receivers := Receiving(states[i], d).p.e.receivers; ch in receivers && receivers[ch].order.Unordered?
    ensures ch in Receiving(states[i], d).p.delivered
    ensures var r := Receiving(states[i], d).p.e.receivers[ch];
            var delivered, log := Receiving(states[i], d).p.delivered[ch], Sending(states[i], d).p.log[ch];
            && (forall j, k :: 0 <= j < k < |delivered| ==> delivered[j].0 != delivered[k].0)
            && (forall k :: 0 <= k < |delivered| ==> delivered[k].0 < |log| && delivered[k].1 == log[delivered[k].0])
            && r.oldest <= |log|
            && (forall id :: 0 <= id < r.oldest ==> id in r.messages || L.HandedOver(delivered, id, log[id]))
            && (r.oldest in r.order.received <==> r.oldest in r.messages)
  {
    hide Run;
    hide Loosely;
    hide L.Joined;
    hide R.Mirrors;
    hide R.Exact;
    hide R.Inv;
    hide R.Got;
    EitherWay(states, steps, i, d);
    var x, y := Sending(states[i], d).p, Receiving(states[i], d).p;
    L.PairFacts(x, y, ch);
    L.UnorderedState(y.e.receivers[ch], y.delivered[ch], x.log[ch]);
  }

  /**
   * No delivery of a packet that was ever sent, of a reliable channel or an unreliable one, can
   * reach a panic in a reachable state.
   */
  lemma NoPanicOnDelivery(states: seq<System>, steps: seq<Step>, i: nat, d: Direction, q: nat)
    requires Run(states, steps) && i < |states| && q in Sending(states[i], d).p.out
    ensures var y, p := Receiving(states[i], d), Sending(states[i], d).p.out[q];
            Endpoints.Inv(y.p.e) && Sound(y.p.e, p) && UnreliableSound(y.u.inboxes, p)
  {
    hide Run;
    hide L.Joined;
    hide U.BoxesOk;
    hide U.Network;
    hide U.Link;
    hide Sound;
    hide UnreliableSound;
    hide Endpoints.Inv;
    EitherWay(states, steps, i, d);
    var x, y := Sending(states[i], d), Receiving(states[i], d);
    L.JoinedInv(y.p, x.p);
    L.DeliverySound(y.p, x.p, q);
    U.NetworkAt(x.u, x.p.out, q);
    U.ArrivalSound(y.u, x.p.out[q], x.u);
  }

  /**
   * An unreliable channel never ends the connection: not when its memory is full, not when slices
   * are lost or repeated.
   */
  lemma UnreliableLasts(states: seq<System>, steps: seq<Step>, i: nat, d: Direction, q: nat,
                        inboxes: map<nat, UR.Receiver>, connected: bool)
    requires Run(states, steps) && i < |states| && q in Sending(states[i], d).p.out
    requires var p := Sending(states[i], d).p.out[q]; p.SmallUnreliable? || p.UnreliableSlice?
    requires var y := Receiving(states[i], d);
             Unreliably(y.u.inboxes, Sending(states[i], d).p.out[q], y.p.e.time, inboxes, connected)
    ensures connected
  {
    hide Run;
    hide L.Joined;
    hide U.BoxesOk;
    hide U.Network;
    hide U.Link;
    hide Unreliably;
    EitherWay(states, steps, i, d);
    var x, y := Sending(states[i], d), Receiving(states[i], d);
    U.NetworkAt(x.u, x.p.out, q);
    U.ArrivalLasts(y.u, x.p.out[q], y.p.e.time, inboxes, connected, x.u);
  }

  /**
   * Whatever an unreliable channel holds or has handed over is, byte for byte, a message that the
   * other end accepted on that channel: nothing is made up and no two messages are mixed.
   */
  lemma UnreliableDelivery(states: seq<System>, steps: seq<Step>, i: nat, d: Direction, ch: nat)
    requires Run(states, steps) && i < |states| && ch in Receiving(states[i], d).u.inboxes
    ensures var x, y := Sending(states[i], d).u, Receiving(states[i], d).u;
            && ch in x.accepted && ch in y.handed
            && (forall m :: m in y.handed[ch] || m in y.inboxes[ch].messages ==> m in x.accepted[ch])
  {
    hide Run;
    hide L.Joined;
    hide U.BoxesOk;
    hide U.Network;
    hide UR.Inv;
    EitherWay(states, steps, i, d);
  }
}
