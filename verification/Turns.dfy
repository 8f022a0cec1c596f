/**
 * What a connection does with its unreliable channels, and the turns that all channels take when
 * packets are made (renet2/src/remote_connection.rs).
 */
module ChannelTurns {
  import opened Base
  import opened Sums
  import opened SendPasses
  import opened GreedyPasses
  import S = ReliableSending
  import US = UnreliableSending
  import UR = UnreliableReceiving

  datatype ChannelOrder = Reliable(ch: nat) | Unreliable(ch: nat)

  /** The order of sending names channels that exist. */
  ghost predicate Listed(order: seq<ChannelOrder>, reliable: set<nat>, unreliable: set<nat>) {
    forall i :: 0 <= i < |order| ==>
      match order[i]
      case Reliable(ch) => ch in reliable
      case Unreliable(ch) => ch in unreliable
  }

  /** What an unreliable channel has queued. */
  datatype Outbox = Outbox(messages: seq<Bytes>, nextId: nat, ordered: bool, maxMemory: nat)

  /** A message joins the queue unless it does not fit the memory. */
  function WithMessage(o: Outbox, m: Bytes): Outbox {
    if BytesOf(o.messages) + |m| > o.maxMemory then o else o.(messages := o.messages + [m])
  }

  /** A message is dropped only when the queue with it would pass the memory. */
  lemma QueuedExactly(o: Outbox, m: Bytes)
    ensures WithMessage(o, m).messages == o.messages + [m] <==> BytesOf(o.messages + [m]) <= o.maxMemory
    ensures WithMessage(o, m).messages == o.messages || WithMessage(o, m).messages == o.messages + [m]
  {
    BytesSnoc(o.messages, m);
    assert |o.messages + [m]| == |o.messages| + 1;
  }

  /** One pass of an unreliable channel: what it chooses, the packets that become of it, what it keeps. */
  ghost predicate UnreliablePass(o: Outbox, ch: nat, first: nat, budget: nat, plan: seq<US.Item>, packets: seq<Packet>,
                                 left: nat, o': Outbox) {
    var taken := US.Chosen(o.messages, budget, o.ordered);
    && US.Sends(taken, plan, o.nextId) && plan == US.PlanOf(taken, o.nextId) && packets == US.PacketsOf(plan, ch, first)
    && BytesOf(taken) + left == budget
    && o' == o.(messages := US.Remaining(o.messages, budget, o.ordered), nextId := o.nextId + US.Wholes(plan))
  }

  // ----- The passes of all channels, one after the other

  /** The channels and the packets made, before or after a channel has had its turn. */
  datatype Stage = Stage(senders: map<nat, S.Sender>, outboxes: map<nat, Outbox>, packets: seq<Packet>, available: nat)

  /** One channel has its turn: its packets join those made, the others stay as they are. */
  ghost predicate Turn(order: ChannelOrder, a: Stage, b: Stage, first: nat, now: nat) {
    && |a.packets| <= |b.packets| && b.packets[..|a.packets|] == a.packets
    && var more := b.packets[|a.packets|..];
       match order
       case Reliable(ch) =>
         && ch in a.senders && ch in b.senders && b.senders == a.senders[ch := b.senders[ch]]
         && b.outboxes == a.outboxes
         && SendPass(a.senders[ch], b.senders[ch], more, first + |a.packets|, a.available, b.available, now)
         && Greedy(a.senders[ch], more, a.available, b.available, now) && Tight(Groups(more))
       case Unreliable(ch) =>
         && ch in a.outboxes && ch in b.outboxes && b.outboxes == a.outboxes[ch := b.outboxes[ch]]
         && b.senders == a.senders
         && Passes(a.outboxes[ch], ch, first + |a.packets|, a.available, more, b.available, b.outboxes[ch])
  }

  ghost predicate Passes(o: Outbox, ch: nat, first: nat, budget: nat, packets: seq<Packet>, left: nat, o': Outbox) {
    exists plan :: UnreliablePass(o, ch, first, budget, plan, packets, left, o')
  }

  /** Every channel has its turn, in order, with the budget that those before it left. */
  ghost predicate Turns(order: seq<ChannelOrder>, stages: seq<Stage>, first: nat, now: nat) {
    && |stages| == |order| + 1
    && forall i :: 0 <= i < |order| ==> Turn(order[i], stages[i], stages[i + 1], first, now)
  }

  lemma TurnsOn(order: seq<ChannelOrder>, stages: seq<Stage>, o: ChannelOrder, b: Stage, first: nat, now: nat)
    requires Turns(order, stages, first, now) && Turn(o, stages[|order|], b, first, now)
    ensures Turns(order + [o], stages + [b], first, now)
  {
    hide Turn;
  }

  /** All packets but the ack at the end. */
  function FromChannels(packets: seq<Packet>, pendingAcks: seq<Range>): seq<Packet> {
    if pendingAcks != [] && packets != [] then packets[..|packets| - 1] else packets
  }

  lemma TurnsLength(order: seq<ChannelOrder>, stages: seq<Stage>, first: nat, now: nat)
    requires Turns(order, stages, first, now)
    ensures |stages| == |order| + 1
  {
  }

  lemma NoTurns(stage: Stage, first: nat, now: nat)
    ensures Turns([], [stage], first, now)
  {
  }

  // ----- Packets for unreliable channels

  /** The messages of an unreliable packet, taken one after the other. */
  function Queued(r: UR.Receiver, payloads: seq<Bytes>): UR.Receiver
    decreases |payloads|
  {
    if payloads == [] then r else Queued(UR.ProcessMessage(r, payloads[0]), payloads[1..])
  }

  /** A slice for an unreliable channel has an index in range and the number of slices known. */
  ghost predicate UnreliableSound(views: map<nat, UR.Receiver>, p: Packet) {
    p.UnreliableSlice? && p.channelId in views ==> UR.Consistent(views[p.channelId], p.slice)
  }

  /** What a packet changes in the unreliable channels; `connected` tells whether the connection lasts. */
  ghost predicate Unreliably(before: map<nat, UR.Receiver>, p: Packet, now: nat, after: map<nat, UR.Receiver>,
                             connected: bool) {
    match p
    case SmallUnreliable(_, ch, payloads) =>
      if ch !in before then after == before && !connected
      else after == before[ch := Queued(before[ch], payloads)] && connected
    case UnreliableSlice(_, ch, slice) =>
      if ch !in before then after == before && !connected
      else
        && UR.Inv(before[ch]) && UR.Consistent(before[ch], slice)
        && var (r, res) := UR.ProcessSlice(before[ch], slice, now);
           after == before[ch := r] && connected == res.Ok?
    case _ => after == before
  }

  lemma Untouched(views: map<nat, UR.Receiver>, p: Packet, now: nat, connected: bool)
    requires !p.SmallUnreliable? && !p.UnreliableSlice?
    ensures Unreliably(views, p, now, views, connected)
  {
  }

  /** The oldest message of a channel is handed over. */
  ghost predicate Taken(before: map<nat, UR.Receiver>, ch: nat, message: Option<Bytes>, after: map<nat, UR.Receiver>) {
    && ch in before && UR.Inv(before[ch])
    && var (r, oldest) := UR.Receive(before[ch]);
       after == before[ch := r] && message == oldest
  }

  /** Every channel gives up its old slices. */
  ghost function AllDiscarded(before: map<nat, UR.Receiver>, now: nat): map<nat, UR.Receiver> {
    map ch | ch in before :: UR.Discarded(before[ch], now)
  }
}
