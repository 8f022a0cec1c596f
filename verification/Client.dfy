/** A connection and its channels (renet2/src/remote_connection.rs, `RenetClient`). */
module RenetConnection {
  import opened Base
  import opened Sums
  import opened Slicing
  import opened AckRanges
  import opened SendPasses
  import opened GreedyPasses
  import opened ChannelTurns
  import opened Endpoints
  import opened Wire
  import opened PacketSizes
  import S = ReliableSending
  import R = ReliableReceiving
  import US = UnreliableSending
  import UR = UnreliableReceiving
  import Stats = LossStats
  import opened ReliableSendChannel
  import opened ReliableReceiveChannel
  import opened UnreliableSendChannel
  import opened UnreliableReceiveChannel
  import opened WireBuffers

  /** Size of the buffer that packets are written to. */
  const BUFFER_SIZE: nat := 1400

  ghost function SenderViews(channels: map<nat, SendChannelReliable>): (views: map<nat, S.Sender>)
    reads channels.Values
    ensures views.Keys == channels.Keys
  {
    map ch | ch in channels :: channels[ch].View()
  }

  ghost function ReceiverViews(channels: map<nat, ReceiveChannelReliable>): (views: map<nat, R.Receiver>)
    reads channels.Values
    ensures views.Keys == channels.Keys
  {
    map ch | ch in channels :: channels[ch].View()
  }

  ghost function UnreliableViews(channels: map<nat, ReceiveChannelUnreliable>): (views: map<nat, UR.Receiver>)
    reads channels.Values
    ensures views.Keys == channels.Keys
  {
    map ch | ch in channels :: channels[ch].View()
  }

  ghost function Outboxes(channels: map<nat, SendChannelUnreliable>): (views: map<nat, Outbox>)
    reads channels.Values
    ensures views.Keys == channels.Keys
  {
    map ch | ch in channels ::
      Outbox(channels[ch].messages, channels[ch].slicedMessageId, channels[ch].orderedReliableSubstrate,
             channels[ch].maxMemory)
  }

  ghost predicate Distinct<T>(channels: map<nat, T>) {
    forall i, j :: i in channels && j in channels && i != j ==> channels[i] != channels[j]
  }

  /** The ledger as the statistics see it: when each packet was sent. */
  function SentTimes(sent: map<nat, PacketSent>): map<nat, nat> {
    map q | q in sent :: sent[q].sentAt
  }

  ghost predicate UnreliableSendersOk(channels: map<nat, SendChannelUnreliable>)
    reads channels.Values
  {
    forall ch :: ch in channels ==> channels[ch].Valid() && channels[ch].channelId == ch
  }

  ghost predicate UnreliableReceiversOk(channels: map<nat, ReceiveChannelUnreliable>)
    reads channels.Values
  {
    forall ch :: ch in channels ==> channels[ch].Valid()
  }

  /** The statistics count what has happened and, while connected, the ledger holds the packets in flight. */
  ghost predicate Counted(connected: bool, st: Stats.Stats, h: Stats.History, sent: map<nat, PacketSent>, next: nat,
                          time: nat)
  {
    && Stats.Tallies(st, h, time) && (forall q :: q in h.sentAt ==> q < next)
    && (connected ==> SentTimes(sent) == Stats.InFlight(h, time))
  }

  lemma CountedShaped(connected: bool, st: Stats.Stats, h: Stats.History, sent: map<nat, PacketSent>, next: nat,
                      time: nat)
    requires Counted(connected, st, h, sent, next, time)
    ensures Stats.Shaped(st) && |h.cleared| == Stats.SIZE && Counted(false, st, h, sent, next, time)
  {
    hide Stats.Tallies;
    Stats.TalliesShape(st, h, time);
  }

  lemma NoneAcked(h: Stats.History)
    ensures Stats.AfterAcks(h, set q: nat | q in []) == h
  {
  }

  lemma CountedNew()
    ensures Counted(true, Stats.Empty(), Stats.NoHistory(), map[], 0, 0)
  {
    hide Stats.Tallies;
    Stats.EmptyTallies();
    assert SentTimes(map[]) == map[];
  }

  lemma CountedAck(st: Stats.Stats, h: Stats.History, sent: map<nat, PacketSent>, next: nat, time: nat, q: nat)
    requires Counted(true, st, h, sent, next, time) && q in sent && Stats.Shaped(st)
    ensures Counted(true, Stats.WithAcked(st, sent[q].sentAt, time), Stats.AfterAcks(h, {q}), sent - {q}, next, time)
  {
    hide Stats.Tallies;
    hide Stats.WithAcked;
    assert q in SentTimes(sent);
    Stats.AckTallies(st, h, q, time);
    assert SentTimes(sent - {q}) == SentTimes(sent) - {q};
  }

  lemma CountedTick(connected: bool, st: Stats.Stats, h: Stats.History, sent: map<nat, PacketSent>, next: nat,
                    before: nat, time: nat)
    requires Counted(connected, st, h, sent, next, before) && before <= time
    requires Stats.Shaped(st) && |h.cleared| == Stats.SIZE
    ensures Counted(connected, Stats.Updated(st, time), Stats.AfterUpdate(h, before, time), Surviving(sent, time), next,
                    time)
  {
    hide Stats.Tallies;
    hide Stats.Updated;
    hide Stats.Index;
    Stats.UpdateTallies(st, h, before, time);
    if connected {
      assert forall q :: q in sent <==> q in Stats.InFlight(h, before);
      assert forall q :: q in sent ==> sent[q].sentAt == SentTimes(sent)[q];
      assert SentTimes(Surviving(sent, time)) == Stats.InFlight(Stats.AfterUpdate(h, before, time), time);
    }
  }

  // ----- The packets of all channels

  /** Packets made so far: numbered in a row, made from what the endpoint stores, within the budget. */
  ghost predicate Made(e: Endpoint, senders: map<nat, S.Sender>, packets: seq<Packet>, budget: nat, available: nat) {
    && senders.Keys == e.senders.Keys
    && (forall ch :: ch in e.senders ==> TimersOnly(e.senders[ch], senders[ch], e.time))
    && (forall i :: 0 <= i < |packets| ==>
          packets[i].sequence == e.sequence + i && !packets[i].Ack? && PacketFrom(e, packets[i]) && Built(packets[i]))
    && TotalBytes(packets) + available == budget
  }

  lemma PassTimersOnly(s: S.Sender, s': S.Sender, packets: seq<Packet>, sequence: nat, budget: nat, available: nat,
                       now: nat)
    requires SendPass(s, s', packets, sequence, budget, available, now) && S.Inv(s') && S.SentBefore(s', now)
    ensures TimersOnly(s, s', now)
  {
    hide S.Inv;
    hide S.SentBefore;
    hide PacketsOk;
    hide SendPasses.SentOk;
  }

  lemma TimersOnlyTwice(s: S.Sender, s1: S.Sender, s2: S.Sender, now: nat)
    requires TimersOnly(s, s1, now) && TimersOnly(s1, s2, now)
    ensures TimersOnly(s, s2, now)
  {
    hide S.Inv;
    hide S.SentBefore;
  }

  lemma CarriesBefore(s: S.Sender, s': S.Sender, p: Packet, now: nat)
    requires TimersOnly(s, s', now) && Carries(s', p)
    ensures Carries(s, p)
  {
    hide S.Inv;
    hide S.SentBefore;
  }

  lemma MadeByReliable(e: Endpoint, senders: map<nat, S.Sender>, packets: seq<Packet>, budget: nat, available: nat,
                       ch: nat, s': S.Sender, more: seq<Packet>, left: nat)
    requires Made(e, senders, packets, budget, available) && ch in e.senders && e.senders[ch].channelId == ch
    requires SendPass(senders[ch], s', more, e.sequence + |packets|, available, left, e.time)
    requires S.Inv(s') && S.SentBefore(s', e.time)
    ensures Made(e, senders[ch := s'], packets + more, budget, left)
  {
    hide S.Inv;
    hide S.SentBefore;
    hide SendPasses.SentOk;
    hide TimersOk;
    hide Carries;
    hide Fits;
    hide TimersOnly;
    MadeSender(e, senders, packets, budget, available, ch);
    PassTimersOnly(senders[ch], s', more, e.sequence + |packets|, available, left, e.time);
    TimersOnlyTwice(e.senders[ch], senders[ch], s', e.time);
    SendPasses.BytesConcat(packets, more);
    forall i | 0 <= i < |more|
      ensures !more[i].Ack? && PacketFrom(e, more[i]) && Built(more[i])
    {
      CarriesBefore(e.senders[ch], senders[ch], more[i], e.time);
      CarriedBuilt(senders[ch], more[i]);
    }
  }

  lemma CarriedBuilt(s: S.Sender, p: Packet)
    requires S.Inv(s) && Carries(s, p) && (p.SmallReliable? ==> Fits(p.messages))
    ensures p.SmallReliable? || p.ReliableSlice?
    ensures p.channelId == s.channelId && Built(p)
  {
    hide GroupSize;
    if p.ReliableSlice? {
      SliceBounds(s.unacked[p.slice.messageId].message, p.slice.sliceIndex);
    }
  }

  lemma MadeNothing(e: Endpoint, budget: nat)
    requires Endpoints.Inv(e)
    ensures Made(e, e.senders, [], budget, budget)
  {
    hide S.Inv;
    hide S.SentBefore;
    hide LedgerOk;
    hide R.Inv;
  }

  lemma MadeSender(e: Endpoint, senders: map<nat, S.Sender>, packets: seq<Packet>, budget: nat, available: nat, ch: nat)
    requires Made(e, senders, packets, budget, available) && ch in senders
    ensures S.Inv(senders[ch]) && S.SentBefore(senders[ch], e.time)
    ensures ch in e.senders && senders[ch].channelId == e.senders[ch].channelId
  {
    hide S.Inv;
    hide S.SentBefore;
    hide PacketFrom;
    hide Built;
  }

  /** Packets of an unreliable channel: numbered in a row, within the size limits. */
  ghost predicate UnreliablePackets(packets: seq<Packet>, first: nat) {
    forall i :: 0 <= i < |packets| ==>
      && packets[i].sequence == first + i && (packets[i].SmallUnreliable? || packets[i].UnreliableSlice?)
      && Built(packets[i])
  }

  lemma {:induction false} SlicesBytes(m: Bytes, id: nat, ch: nat, first: nat, k: nat)
    requires 0 < |m| && k <= NumSlices(|m|)
    ensures TotalBytes(US.SlicePackets(m, id, ch, first)[..k]) == if k == NumSlices(|m|) then |m| else k * SLICE_SIZE
  {
    var ps := US.SlicePackets(m, id, ch, first);
    if k > 0 {
      SlicesBytes(m, id, ch, first, k - 1);
      assert ps[..k][..k - 1] == ps[..k - 1];
      SliceBounds(m, k - 1);
    }
  }

  lemma {:induction false} PlanPackets(plan: seq<US.Item>, ch: nat, first: nat, firstId: nat)
    requires US.PlanOk(plan, firstId)
    ensures UnreliablePackets(US.PacketsOf(plan, ch, first), first)
    ensures TotalBytes(US.PacketsOf(plan, ch, first)) == BytesOf(US.MessagesOf(plan))
  {
    hide UnreliablePackets;
    hide US.PacketsFor;
    hide US.Out;
    hide US.MessagesOf;
    hide US.PacketsOf;
    hide US.PlanOk;
    hide US.Wholes;
    hide TotalBytes;
    hide BytesOf;
    if plan == [] {
      NoPackets(ch, first);
    } else {
      var front, item := plan[..|plan| - 1], plan[|plan| - 1];
      var packets := US.PacketsOf(front, ch, first);
      PlanFront(plan, firstId);
      PlanPackets(front, ch, first, firstId);
      ItemPackets(item, ch, first + |packets|);
      UnreliableConcat(packets, US.PacketsFor(item, ch, first + |packets|), first);
      SendPasses.BytesConcat(packets, US.PacketsFor(item, ch, first + |packets|));
      Sums.BytesConcat(US.MessagesOf(front), US.Out(item));
      assert plan == front + [item];
      US.PlanSnoc(front, item, ch, first);
    }
  }

  lemma NoPackets(ch: nat, first: nat)
    ensures UnreliablePackets(US.PacketsOf([], ch, first), first)
    ensures TotalBytes(US.PacketsOf([], ch, first)) == BytesOf(US.MessagesOf([]))
  {
  }

  lemma UnreliableConcat(a: seq<Packet>, b: seq<Packet>, first: nat)
    requires UnreliablePackets(a, first) && UnreliablePackets(b, first + |a|)
    ensures UnreliablePackets(a + b, first)
  {
    hide Built;
  }

  lemma PlanFront(plan: seq<US.Item>, firstId: nat)
    requires US.PlanOk(plan, firstId) && plan != []
    ensures US.PlanOk(plan[..|plan| - 1], firstId) && US.ItemOk(plan[|plan| - 1])
  {
    var front := plan[..|plan| - 1];
    forall i | 0 <= i < |front| && front[i].Whole?
      ensures front[i].id == firstId + US.Wholes(front[..i])
    {
      assert front[..i] == plan[..i];
    }
  }

  lemma ItemPackets(item: US.Item, ch: nat, first: nat)
    requires US.ItemOk(item)
    ensures UnreliablePackets(US.PacketsFor(item, ch, first), first)
    ensures TotalBytes(US.PacketsFor(item, ch, first)) == BytesOf(US.Out(item))
  {
    hide UnreliablePackets;
    hide TotalBytes;
    match item
    case Group(group) => GroupPackets(group, ch, first);
    case Whole(id, m) => WholePackets(id, m, ch, first);
  }

  lemma GroupPackets(group: seq<Bytes>, ch: nat, first: nat)
    requires US.ItemOk(US.Group(group))
    ensures UnreliablePackets(US.PacketsFor(US.Group(group), ch, first), first)
    ensures TotalBytes(US.PacketsFor(US.Group(group), ch, first)) == BytesOf(group)
  {
    hide US.GroupSize;
    hide BytesOf;
    UnitsSnoc([], SmallUnreliable(first, ch, group));
    assert [] + [SmallUnreliable(first, ch, group)] == [SmallUnreliable(first, ch, group)];
  }

  lemma WholePackets(id: nat, m: Bytes, ch: nat, first: nat)
    requires US.ItemOk(US.Whole(id, m))
    ensures UnreliablePackets(US.PacketsFor(US.Whole(id, m), ch, first), first)
    ensures TotalBytes(US.PacketsFor(US.Whole(id, m), ch, first)) == BytesOf([m])
  {
    hide TotalBytes;
    hide BytesOf;
    var packets := US.SlicePackets(m, id, ch, first);
    SlicesBytes(m, id, ch, first, NumSlices(|m|));
    assert packets[..NumSlices(|m|)] == packets;
    BytesSnoc([], m);
    assert [] + [m] == [m];
    NoBytes();
  }

  lemma NoBytes()
    ensures BytesOf([]) == 0
  {
  }

  lemma MadeByUnreliable(e: Endpoint, senders: map<nat, S.Sender>, packets: seq<Packet>, budget: nat, available: nat,
                         ch: nat, taken: seq<Bytes>, plan: seq<US.Item>, firstId: nat, left: nat)
    requires Made(e, senders, packets, budget, available)
    requires US.Sends(taken, plan, firstId) && BytesOf(taken) + left == available
    ensures Made(e, senders, packets + US.PacketsOf(plan, ch, e.sequence + |packets|), budget, left)
  {
    hide TimersOnly;
    hide US.PacketsOf;
    hide US.MessagesOf;
    hide US.PlanOk;
    hide BytesOf;
    hide US.LongFirst;
    PlanPackets(plan, ch, e.sequence + |packets|, firstId);
    BytesReordered(US.MessagesOf(plan), taken);
    SendPasses.BytesConcat(packets, US.PacketsOf(plan, ch, e.sequence + |packets|));
  }

  // ----- One channel out of many

  method SendOn(channels: map<nat, SendChannelReliable>, ch: nat, message: Bytes) returns (r: Result<(), ChannelError>)
    requires ch in channels && Distinct(channels) && S.Inv(SenderViews(channels)[ch])
    modifies channels[ch]
    ensures SenderViews(channels) ==
              old(SenderViews(channels))[ch := S.SendMessage(old(SenderViews(channels))[ch], message).0]
    ensures r == S.SendMessage(old(SenderViews(channels))[ch], message).1
  {
    hide S.Inv;
    hide S.SendMessage;
    r := channels[ch].SendMessage(message);
  }

  method AckMessagesOn(channels: map<nat, SendChannelReliable>, ch: nat, ids: seq<nat>)
    requires ch in channels && Distinct(channels) && S.Inv(SenderViews(channels)[ch])
    requires forall id :: id in ids ==> S.MessageAckOk(SenderViews(channels)[ch], id)
    modifies channels[ch]
    ensures SenderViews(channels) ==
              old(SenderViews(channels))[ch := S.AckMessages(old(SenderViews(channels))[ch], ids)]
  {
    AckIds(channels[ch], ids);
    hide S.Inv;
    hide S.AckMessages;
  }

  method AckIds(channel: SendChannelReliable, ids: seq<nat>)
    requires channel.Valid() && forall id :: id in ids ==> S.MessageAckOk(channel.View(), id)
    modifies channel
    ensures channel.Valid() && channel.View() == S.AckMessages(old(channel.View()), ids)
  {
    hide S.Inv;
    hide S.AckMessage;
    hide S.MessageAckOk;
    ghost var before := channel.View();
    for i := 0 to |ids|
      invariant channel.Valid() && forall id :: id in ids[i..] ==> S.MessageAckOk(channel.View(), id)
      invariant S.AckMessages(channel.View(), ids[i..]) == S.AckMessages(before, ids)
    {
      assert ids[i..][0] == ids[i] && ids[i..][1..] == ids[i + 1..];
      assert ids[i] in ids[i..] && forall id :: id in ids[i + 1..] ==> id in ids[i..];
      S.AckMessageOk(channel.View(), ids[i], ids[i + 1..]);
      channel.ProcessMessageAck(ids[i]);
    }
  }

  method AckSliceOn(channels: map<nat, SendChannelReliable>, ch: nat, id: nat, i: nat)
    requires ch in channels && Distinct(channels) && S.Inv(SenderViews(channels)[ch])
    requires S.SliceAckOk(SenderViews(channels)[ch], id, i)
    modifies channels[ch]
    ensures SenderViews(channels) == old(SenderViews(channels))[ch := S.AckSlice(old(SenderViews(channels))[ch], id, i)]
  {
    hide S.Inv;
    hide S.AckSlice;
    hide S.SliceAckOk;
    channels[ch].ProcessSliceMessageAck(id, i);
  }

  method ReceiveOn(channels: map<nat, ReceiveChannelReliable>, ch: nat) returns (message: Option<Bytes>)
    requires ch in channels && Distinct(channels) && R.Inv(ReceiverViews(channels)[ch])
    modifies channels[ch]
    ensures ReceiverViews(channels) ==
              old(ReceiverViews(channels))[ch := R.ReceiveMessage(old(ReceiverViews(channels))[ch]).0]
    ensures match R.ReceiveMessage(old(ReceiverViews(channels))[ch]).1
            case None => message == None
            case Some((_, m)) => message == Some(m)
  {
    hide R.Inv;
    hide R.ReceiveMessage;
    message := channels[ch].ReceiveMessage();
  }

  method MessagesOn(channels: map<nat, ReceiveChannelReliable>, ch: nat, messages: seq<(nat, Bytes)>)
    returns (r: Result<(), ChannelError>)
    requires ch in channels && Distinct(channels)
    modifies channels[ch]
    ensures ReceiverViews(channels) ==
              old(ReceiverViews(channels))[ch := ProcessMessages(old(ReceiverViews(channels))[ch], messages).0]
    ensures r == ProcessMessages(old(ReceiverViews(channels))[ch], messages).1
  {
    r := ProcessAll(channels[ch], messages);
    hide ProcessMessages;
  }

  method ProcessAll(channel: ReceiveChannelReliable, messages: seq<(nat, Bytes)>) returns (r: Result<(), ChannelError>)
    modifies channel
    ensures (channel.View(), r) == ProcessMessages(old(channel.View()), messages)
  {
    hide R.ProcessMessage;
    ghost var before := channel.View();
    for i := 0 to |messages|
      invariant ProcessMessages(channel.View(), messages[i..]) == ProcessMessages(before, messages)
    {
      assert messages[i..][0] == messages[i] && messages[i..][1..] == messages[i + 1..];
      r := channel.ProcessMessage(messages[i].1, messages[i].0);
      if r.Err? {
        return;
      }
    }
    return Ok(());
  }

  method SliceOn(channels: map<nat, ReceiveChannelReliable>, ch: nat, slice: Slice)
    returns (r: Result<(), ChannelError>)
    requires ch in channels && Distinct(channels) && R.Inv(ReceiverViews(channels)[ch])
    requires R.Consistent(ReceiverViews(channels)[ch], slice)
    modifies channels[ch]
    ensures ReceiverViews(channels) ==
              old(ReceiverViews(channels))[ch := R.ProcessSlice(old(ReceiverViews(channels))[ch], slice).0]
    ensures r == R.ProcessSlice(old(ReceiverViews(channels))[ch], slice).1
  {
    hide R.Inv;
    hide R.Consistent;
    hide R.ProcessSlice;
    r := channels[ch].ProcessSlice(slice);
  }

  method QueueAll(channel: ReceiveChannelUnreliable, payloads: seq<Bytes>)
    requires channel.Valid()
    modifies channel
    ensures channel.Valid() && channel.View() == Queued(old(channel.View()), payloads)
  {
    hide UR.Inv;
    hide UR.ProcessMessage;
    ghost var before := channel.View();
    for i := 0 to |payloads|
      invariant channel.Valid() && Queued(channel.View(), payloads[i..]) == Queued(before, payloads)
    {
      assert payloads[i..][0] == payloads[i] && payloads[i..][1..] == payloads[i + 1..];
      channel.ProcessMessage(payloads[i]);
    }
  }

  method QueueOn(channels: map<nat, ReceiveChannelUnreliable>, ch: nat, payloads: seq<Bytes>)
    requires ch in channels && Distinct(channels) && UnreliableReceiversOk(channels)
    modifies channels[ch]
    ensures UnreliableReceiversOk(channels)
    ensures UnreliableViews(channels) ==
              old(UnreliableViews(channels))[ch := Queued(old(UnreliableViews(channels))[ch], payloads)]
  {
    hide UR.Inv;
    hide Queued;
    QueueAll(channels[ch], payloads);
  }

  method UnreliableSliceOn(channels: map<nat, ReceiveChannelUnreliable>, ch: nat, slice: Slice, now: nat)
    returns (r: Result<(), ChannelError>)
    requires ch in channels && Distinct(channels) && UnreliableReceiversOk(channels)
    requires UR.Consistent(UnreliableViews(channels)[ch], slice)
    modifies channels[ch]
    ensures UnreliableReceiversOk(channels)
    ensures UR.Inv(old(UnreliableViews(channels)[ch]))
    ensures UnreliableViews(channels) ==
              old(UnreliableViews(channels))[ch := UR.ProcessSlice(old(UnreliableViews(channels))[ch], slice, now).0]
    ensures r == UR.ProcessSlice(old(UnreliableViews(channels))[ch], slice, now).1
  {
    hide UR.Inv;
    hide UR.ProcessSlice;
    r := channels[ch].ProcessSlice(slice, now);
  }

  ghost predicate SlicesSound(e: Endpoint, views: map<nat, UR.Receiver>, p: Packet) {
    && UnreliableSound(views, p)
    && (p.ReliableSlice? && p.channelId in e.receivers ==> R.Consistent(e.receivers[p.channelId], p.slice))
  }

  method UnreliableOn(channels: map<nat, ReceiveChannelUnreliable>, p: Packet, now: nat) returns (ok: bool)
    requires p.SmallUnreliable? || p.UnreliableSlice?
    requires Distinct(channels) && UnreliableReceiversOk(channels) && UnreliableSound(UnreliableViews(channels), p)
    modifies channels.Values
    ensures UnreliableReceiversOk(channels)
    ensures Unreliably(old(UnreliableViews(channels)), p, now, UnreliableViews(channels), ok)
  {
    hide Queued;
    hide UR.ProcessSlice;
    hide UR.Inv;
    hide UnreliableViews;
    hide UnreliableReceiversOk;
    if p.channelId !in channels {
      return false;
    }
    if p.SmallUnreliable? {
      QueueOn(channels, p.channelId, p.payloads);
      return true;
    }
    var r := UnreliableSliceOn(channels, p.channelId, p.slice, now);
    return r.Ok?;
  }

  method NextOn(channels: map<nat, ReceiveChannelUnreliable>, ch: nat) returns (message: Option<Bytes>)
    requires ch in channels && Distinct(channels) && UnreliableReceiversOk(channels)
    modifies channels[ch]
    ensures UnreliableReceiversOk(channels)
    ensures Taken(old(UnreliableViews(channels)), ch, message, UnreliableViews(channels))
  {
    hide UR.Inv;
    hide UR.Receive;
    message := channels[ch].ReceiveMessage();
  }

  method QueueMessageOn(channels: map<nat, SendChannelUnreliable>, ch: nat, message: Bytes)
    requires ch in channels && Distinct(channels) && UnreliableSendersOk(channels)
    modifies channels[ch]
    ensures UnreliableSendersOk(channels)
    ensures Outboxes(channels) == old(Outboxes(channels))[ch := WithMessage(old(Outboxes(channels))[ch], message)]
  {
    hide BytesOf;
    channels[ch].SendMessage(message);
  }

  method UnreliablePassOn(channels: map<nat, SendChannelUnreliable>, ch: nat, packetSequence: nat, availableBytes: nat)
    returns (packets: seq<Packet>, available: nat, ghost plan: seq<US.Item>)
    requires ch in channels && Distinct(channels) && UnreliableSendersOk(channels)
    modifies channels[ch]
    ensures UnreliableSendersOk(channels)
    ensures UnreliablePass(old(Outboxes(channels)[ch]), ch, packetSequence, availableBytes, plan, packets, available,
                           Outboxes(channels)[ch])
    ensures Outboxes(channels) == old(Outboxes(channels))[ch := Outboxes(channels)[ch]]
  {
    hide BytesOf;
    hide US.Sends;
    hide US.PacketsOf;
    hide US.Chosen;
    hide US.Remaining;
    hide US.Wholes;
    hide US.PlanOf;
    var sequence;
    packets, sequence, available, plan := channels[ch].GetPacketsToSend(packetSequence, availableBytes);
  }

  method PassOn(channels: map<nat, SendChannelReliable>, ch: nat, packetSequence: nat, availableBytes: nat, now: nat)
    returns (packets: seq<Packet>, sequence: nat, available: nat)
    requires ch in channels && Distinct(channels)
    requires S.Inv(SenderViews(channels)[ch]) && S.SentBefore(SenderViews(channels)[ch], now)
    modifies channels[ch]
    ensures SenderViews(channels) == old(SenderViews(channels))[ch := SenderViews(channels)[ch]]
    ensures S.Inv(SenderViews(channels)[ch]) && S.SentBefore(SenderViews(channels)[ch], now)
    ensures SendPass(old(SenderViews(channels))[ch], SenderViews(channels)[ch], packets, packetSequence,
                     availableBytes, available, now)
    ensures Greedy(old(SenderViews(channels))[ch], packets, availableBytes, available, now) && Tight(Groups(packets))
    ensures sequence == packetSequence + |packets|
  {
    hide Greedy;
    hide Tight;
    hide Groups;
    hide S.Inv;
    hide S.SentBefore;
    hide SendPass;
    packets, sequence, available := channels[ch].GetPacketsToSend(packetSequence, availableBytes, now);
  }

  class RenetClient {
    const sendOrder: seq<ChannelOrder>
    const reliableSend: map<nat, SendChannelReliable>
    const unreliableSend: map<nat, SendChannelUnreliable>
    const reliableReceive: map<nat, ReceiveChannelReliable>
    const unreliableReceive: map<nat, ReceiveChannelUnreliable>
    const availableBytesPerTick: nat
    var connected: bool
    var packetSequence: nat
    var currentTime: nat
    var sentPackets: map<nat, PacketSent>
    var pendingAcks: seq<Range>
    var stats: Stats.Stats
    ghost var history: Stats.History

    ghost function View(): Endpoint
      reads this, reliableSend.Values, reliableReceive.Values
    {
      Endpoint(connected, packetSequence, currentTime, sentPackets, pendingAcks,
               SenderViews(reliableSend), ReceiverViews(reliableReceive))
    }

    /** Channels are separate objects, and the order of sending names channels that exist. */
    ghost predicate Shape() {
      && Distinct(reliableSend) && Distinct(unreliableSend) && Distinct(reliableReceive) && Distinct(unreliableReceive)
      && Listed(sendOrder, reliableSend.Keys, unreliableSend.Keys)
    }

    ghost predicate Valid()
      reads this, reliableSend.Values, reliableReceive.Values, unreliableSend.Values, unreliableReceive.Values
    {
      && Shape() && Endpoints.Inv(View())
      && UnreliableSendersOk(unreliableSend) && UnreliableReceiversOk(unreliableReceive)
      && Counted(connected, stats, history, sentPackets, packetSequence, currentTime)
    }

    lemma ShapeParts()
      requires Shape()
      ensures Distinct(reliableSend) && Distinct(unreliableSend)
      ensures Distinct(reliableReceive) && Distinct(unreliableReceive)
    {
    }

    /** A connection over channels that are new; each is listed in the order of sending. */
    constructor (sendOrder: seq<ChannelOrder>, availableBytesPerTick: nat,
                 reliableSend: map<nat, SendChannelReliable>, unreliableSend: map<nat, SendChannelUnreliable>,
                 reliableReceive: map<nat, ReceiveChannelReliable>,
                 unreliableReceive: map<nat, ReceiveChannelUnreliable>)
      requires Distinct(reliableSend) && Distinct(unreliableSend) && Distinct(reliableReceive)
      requires Distinct(unreliableReceive)
      requires Listed(sendOrder, reliableSend.Keys, unreliableSend.Keys)
      requires New(Endpoint(true, 0, 0, map[], [], SenderViews(reliableSend), ReceiverViews(reliableReceive)))
      requires UnreliableSendersOk(unreliableSend) && UnreliableReceiversOk(unreliableReceive)
      ensures Valid() && New(View()) && history == Stats.NoHistory()
      ensures this.reliableSend == reliableSend && this.reliableReceive == reliableReceive
      ensures this.unreliableSend == unreliableSend && this.unreliableReceive == unreliableReceive
      ensures this.sendOrder == sendOrder && this.availableBytesPerTick == availableBytesPerTick
    {
      hide Endpoints.Inv;
      hide UnreliableSendersOk;
      hide UnreliableReceiversOk;
      hide ReceiverViews;
      hide SenderViews;
      hide New;
      this.sendOrder, this.availableBytesPerTick := sendOrder, availableBytesPerTick;
      this.reliableSend, this.unreliableSend := reliableSend, unreliableSend;
      this.reliableReceive, this.unreliableReceive := reliableReceive, unreliableReceive;
      connected, packetSequence, currentTime, sentPackets, pendingAcks := true, 0, 0, map[], [];
      stats, history := Stats.Empty(), Stats.NoHistory();
      new;
      NewInv(View());
      CountedNew();
    }

    /** The share of the settled packets that were never acked, a number between 0 and 1. */
    method PacketLoss() returns (loss: real)
      requires Valid()
      ensures |history.cleared| == Stats.SIZE && 0.0 <= loss <= 1.0
      ensures var settled := Stats.SettledPackets(history, currentTime);
              loss * |settled| as real == |settled - history.acked| as real && (settled == {} ==> loss == 0.0)
    {
      hide Stats.Loss;
      hide Stats.Tallies;
      hide Stats.SettledPackets;
      Stats.TalliesShape(stats, history, currentTime);
      Stats.LossExact(stats, history, currentTime);
      Stats.LossIsAShare(stats, history, currentTime);
      return Stats.Loss(stats);
    }

    method DisconnectWithReason()
      requires Valid()
      modifies `connected
      ensures Valid() && View() == old(View()).(connected := false)
    {
      hide Endpoints.Inv;
      hide UnreliableSendersOk;
      hide UnreliableReceiversOk;
      hide Counted;
      hide ReceiverViews;
      hide SenderViews;
      hide RenetClient.Shape;
      StatusStays(View(), false);
      CountedShaped(connected, stats, history, sentPackets, packetSequence, currentTime);
      connected := false;
    }

    /** On a reliable channel, a message that does not fit the memory ends the connection. */
    method SendReliable(ch: nat, message: Bytes)
      requires Valid() && connected && ch in reliableSend
      modifies `connected, reliableSend[ch]
      ensures Valid() && View() == Endpoints.SendMessage(old(View()), ch, message)
    {
      hide Endpoints.Inv;
      hide S.Inv;
      hide S.SentBefore;
      hide S.SendMessage;
      hide UnreliableSendersOk;
      hide UnreliableReceiversOk;
      hide Counted;
      hide ReceiverViews;
      hide SenderViews;
      hide RenetClient.Shape;
      SendMessageInv(View(), ch, message);
      SenderAt(View(), ch);
      ShapeParts();
      CountedShaped(connected, stats, history, sentPackets, packetSequence, currentTime);
      var r := SendOn(reliableSend, ch, message);
      assert ReceiverViews(reliableReceive) == old(ReceiverViews(reliableReceive));
      assert UnreliableSendersOk(unreliableSend) && UnreliableReceiversOk(unreliableReceive);
      if r.Err? {
        connected := false;
      }
    }

    /** A message for a channel that does not exist is a panic in the code. */
    method SendMessage(ch: nat, message: Bytes)
      requires Valid() && (ch in reliableSend || ch in unreliableSend)
      modifies this, reliableSend.Values, unreliableSend.Values
      ensures Valid()
      ensures ch in reliableSend ==>
                View() == if old(connected) then Endpoints.SendMessage(old(View()), ch, message) else old(View())
      ensures ch in reliableSend || !old(connected) ==> Outboxes(unreliableSend) == old(Outboxes(unreliableSend))
      ensures ch !in reliableSend ==> View() == old(View())
      ensures ch !in reliableSend && connected ==>
                Outboxes(unreliableSend) ==
                    old(Outboxes(unreliableSend))[ch := WithMessage(old(Outboxes(unreliableSend))[ch], message)]
    {
      hide RenetClient.Valid;
      hide RenetClient.View;
      hide Endpoints.Inv;
      hide Endpoints.SendMessage;
      hide WithMessage;
      hide Outboxes;
      if !connected {
        return;
      }
      if ch in reliableSend {
        SendReliable(ch, message);
      } else {
        SendUnreliable(ch, message);
      }
    }

    method SendUnreliable(ch: nat, message: Bytes)
      requires Valid() && ch in unreliableSend
      modifies unreliableSend[ch]
      ensures Valid() && View() == old(View())
      ensures Outboxes(unreliableSend) ==
                old(Outboxes(unreliableSend))[ch := WithMessage(old(Outboxes(unreliableSend))[ch], message)]
    {
      hide Endpoints.Inv;
      hide UnreliableSendersOk;
      hide UnreliableReceiversOk;
      hide Counted;
      hide ReceiverViews;
      hide SenderViews;
      hide Outboxes;
      hide WithMessage;
      hide RenetClient.Shape;
      ShapeParts();
      QueueMessageOn(unreliableSend, ch, message);
      assert SenderViews(reliableSend) == old(SenderViews(reliableSend));
      assert ReceiverViews(reliableReceive) == old(ReceiverViews(reliableReceive));
      assert UnreliableReceiversOk(unreliableReceive);
    }

    /** Nothing is received once the connection has ended. */
    method ReceiveMessage(ch: nat) returns (message: Option<Bytes>)
      requires Valid() && (ch in reliableReceive || ch in unreliableReceive)
      modifies reliableReceive.Values, unreliableReceive.Values
      ensures Valid()
      ensures ch in reliableReceive && connected ==>
                var (e, res) := Endpoints.ReceiveMessage(old(View()), ch);
                View() == e && message == if res.Some? then Some(res.value.1) else None
      ensures ch !in reliableReceive || !connected ==> View() == old(View())
      ensures ch in reliableReceive || !connected ==>
                UnreliableViews(unreliableReceive) == old(UnreliableViews(unreliableReceive))
      ensures ch !in reliableReceive && connected ==>
                Taken(old(UnreliableViews(unreliableReceive)), ch, message, UnreliableViews(unreliableReceive))
      ensures !connected ==> message == None
    {
      hide RenetClient.Valid;
      hide RenetClient.View;
      hide Endpoints.Inv;
      hide Endpoints.ReceiveMessage;
      hide UnreliableViews;
      hide Taken;
      if !connected {
        return None;
      }
      if ch in reliableReceive {
        message := ReceiveReliable(ch);
      } else {
        message := ReceiveUnreliable(ch);
      }
    }

    method ReceiveUnreliable(ch: nat) returns (message: Option<Bytes>)
      requires Valid() && ch in unreliableReceive
      modifies unreliableReceive[ch]
      ensures Valid() && View() == old(View())
      ensures Taken(old(UnreliableViews(unreliableReceive)), ch, message, UnreliableViews(unreliableReceive))
    {
      hide Endpoints.Inv;
      hide UnreliableSendersOk;
      hide UnreliableReceiversOk;
      hide Counted;
      hide ReceiverViews;
      hide SenderViews;
      hide UnreliableViews;
      hide Taken;
      hide RenetClient.Shape;
      ShapeParts();
      message := NextOn(unreliableReceive, ch);
      assert SenderViews(reliableSend) == old(SenderViews(reliableSend));
      assert ReceiverViews(reliableReceive) == old(ReceiverViews(reliableReceive));
      assert UnreliableSendersOk(unreliableSend);
    }

    method ReceiveReliable(ch: nat) returns (message: Option<Bytes>)
      requires Valid() && ch in reliableReceive
      modifies reliableReceive[ch]
      ensures Valid()
      ensures var (e, res) := Endpoints.ReceiveMessage(old(View()), ch);
              View() == e && message == if res.Some? then Some(res.value.1) else None
    {
      hide Endpoints.Inv;
      hide R.Inv;
      hide R.ReceiveMessage;
      hide UnreliableSendersOk;
      hide UnreliableReceiversOk;
      hide Counted;
      hide RenetClient.Shape;
      hide ReceiverViews;
      hide SenderViews;
      ReceiveMessageInv(View(), ch);
      ReceiverInv(View(), ch);
      ShapeParts();
      message := ReceiveOn(reliableReceive, ch);
      assert SenderViews(reliableSend) == old(SenderViews(reliableSend));
      assert UnreliableSendersOk(unreliableSend) && UnreliableReceiversOk(unreliableReceive);
    }

    method ApplyAck(info: SentInfo)
      requires Shape() && Normal(pendingAcks)
      requires SendersOk(View().senders, currentTime) && LedgerOk(View().senders, info)
      modifies `pendingAcks, reliableSend.Values
      ensures View() == Apply(old(View()), info)
    {
      hide S.Inv;
      hide S.SentBefore;
      hide S.AckMessages;
      hide S.AckSlice;
      hide S.MessageAckOk;
      hide S.SliceAckOk;
      hide RenetClient.Shape;
      hide ReceiverViews;
      hide SenderViews;
      hide Normal;
      ShapeParts();
      match info
      case ReliableMessages(ch, ids) =>
        AckMessagesOn(reliableSend, ch, ids);
        assert ReceiverViews(reliableReceive) == old(ReceiverViews(reliableReceive));
      case ReliableSliceMessage(ch, id, i) =>
        AckSliceOn(reliableSend, ch, id, i);
        assert ReceiverViews(reliableReceive) == old(ReceiverViews(reliableReceive));
      case AckInfo(largest) => pendingAcks := AckedLargest(pendingAcks, largest);
      case NoInfo =>
    }

    /** The entry leaves the ledger and is counted as acked. */
    method Strike(q: nat) returns (info: SentInfo)
      requires connected && q in sentPackets && Endpoints.Inv(View())
      requires Counted(connected, stats, history, sentPackets, packetSequence, currentTime)
      modifies `sentPackets, `stats, `history
      ensures View() == old(View()).(sent := old(View()).sent - {q}) && info == old(View()).sent[q].info
      ensures Counted(connected, stats, history, sentPackets, packetSequence, currentTime)
      ensures history == Stats.AfterAcks(old(history), {q})
    {
      hide Endpoints.Inv;
      hide Counted;
      hide ReceiverViews;
      hide SenderViews;
      hide Stats.AfterAcks;
      hide Stats.WithAcked;
      hide Stats.Shaped;
      CountedShaped(connected, stats, history, sentPackets, packetSequence, currentTime);
      CountedAck(stats, history, sentPackets, packetSequence, currentTime, q);
      var sent := sentPackets[q];
      sentPackets := sentPackets - {q};
      stats := Stats.WithAcked(stats, sent.sentAt, currentTime);
      history := Stats.AfterAcks(history, {q});
      return sent.info;
    }

    /** One ledger entry is struck off: counted as acked, and what it carried is acked. */
    method AckPacket(q: nat)
      requires Valid() && connected && q in sentPackets
      modifies `sentPackets, `stats, `history, `pendingAcks, reliableSend.Values
      ensures Valid() && connected && View() == AckOne(old(View()), q)
      ensures history == Stats.AfterAcks(old(history), {q})
    {
      hide Endpoints.Inv;
      hide LedgerOk;
      hide SendersOk;
      hide Apply;
      hide UnreliableSendersOk;
      hide UnreliableReceiversOk;
      hide Counted;
      hide RenetClient.Shape;
      hide ReceiverViews;
      hide SenderViews;
      hide Stats.AfterAcks;
      AckOneInv(View(), q);
      InvParts(View(), q);
      ghost var e := View();
      var info := Strike(q);
      assert View() == e.(sent := e.sent - {q});
      ApplyAck(info);
      assert UnreliableSendersOk(unreliableSend) && UnreliableReceiversOk(unreliableReceive);
    }

    /** The entries named by the ranges are struck off one after the other, each once. */
    method ProcessAcks(ranges: seq<Range>) returns (ghost qs: seq<nat>)
      requires Valid() && connected && Normal(ranges)
      modifies `sentPackets, `stats, `history, `pendingAcks, reliableSend.Values
      ensures Valid() && connected && IsNewAcks(old(sentPackets), ranges, qs) && View() == AckAll(old(View()), qs)
      ensures history == Stats.AfterAcks(old(history), set q | q in qs)
    {
      hide RenetClient.Valid;
      hide Endpoints.Inv;
      hide AckOne;
      hide AckAll;
      hide Ascending;
      hide ReceiverViews;
      hide SenderViews;
      hide Has;
      hide Normal;
      ValidInv();
      var newAcks := NewAcks(sentPackets, ranges);
      qs := newAcks;
      ghost var before := View();
      var rest := newAcks;
      ghost var done := {};
      assert Stats.AfterAcks(history, done) == history;
      while rest != []
        invariant Valid() && connected && Endpoints.Inv(View())
        invariant Ascending(rest) && forall q :: q in rest ==> q in sentPackets
        invariant AckAll(View(), rest) == AckAll(before, newAcks)
        invariant forall q :: q in newAcks <==> q in done || q in rest
        invariant history == Stats.AfterAcks(old(history), done)
        decreases |rest|
      {
        AckAllStep(View(), rest);
        AckPacket(rest[0]);
        ValidInv();
        done := done + {rest[0]};
        rest := rest[1..];
      }
      AckAllDone(View());
      assert done == set q | q in qs;
    }

    method NoteArrival(sequence: nat)
      requires Valid()
      modifies `pendingAcks
      ensures Valid() && View() == old(View()).(pendingAcks := View().pendingAcks)
      ensures Added(old(View()).pendingAcks, sequence, View().pendingAcks)
    {
      hide Endpoints.Inv;
      hide UnreliableSendersOk;
      hide UnreliableReceiversOk;
      hide Counted;
      hide ReceiverViews;
      hide SenderViews;
      hide RenetClient.Shape;
      hide Has;
      hide Normal;
      PendingNormal(View());
      ghost var e := View();
      pendingAcks := AddPendingAck(pendingAcks, sequence);
      PendingStay(e, pendingAcks);
    }

    method MessagesArrived(ch: nat, messages: seq<(nat, Bytes)>)
      requires Valid() && connected && ch in reliableReceive
      modifies `connected, reliableReceive[ch]
      ensures Valid()
      ensures var (r, res) := ProcessMessages(old(View()).receivers[ch], messages);
              View() == old(View()).(receivers := old(View()).receivers[ch := r], connected := res.Ok?)
    {
      hide Endpoints.Inv;
      hide R.Inv;
      hide ProcessMessages;
      hide UnreliableSendersOk;
      hide UnreliableReceiversOk;
      hide Counted;
      hide ReceiverViews;
      hide SenderViews;
      hide RenetClient.Shape;
      ghost var e := View();
      ReceiverInv(e, ch);
      ProcessMessagesInv(e.receivers[ch], messages);
      ShapeParts();
      CountedShaped(connected, stats, history, sentPackets, packetSequence, currentTime);
      var r := MessagesOn(reliableReceive, ch, messages);
      assert SenderViews(reliableSend) == old(SenderViews(reliableSend));
      assert UnreliableSendersOk(unreliableSend) && UnreliableReceiversOk(unreliableReceive);
      if r.Err? {
        connected := false;
      }
      ReceiversStay(e, ch, ProcessMessages(e.receivers[ch], messages).0, connected);
    }

    method SliceArrived(ch: nat, slice: Slice)
      requires Valid() && connected && ch in reliableReceive && R.Consistent(View().receivers[ch], slice)
      modifies `connected, reliableReceive[ch]
      ensures Valid() && R.Inv(old(View()).receivers[ch])
      ensures var (r, res) := R.ProcessSlice(old(View()).receivers[ch], slice);
              View() == old(View()).(receivers := old(View()).receivers[ch := r], connected := res.Ok?)
    {
      hide Endpoints.Inv;
      hide R.Inv;
      hide R.Consistent;
      hide R.ProcessSlice;
      hide UnreliableSendersOk;
      hide UnreliableReceiversOk;
      hide Counted;
      hide ReceiverViews;
      hide SenderViews;
      hide RenetClient.Shape;
      ghost var e := View();
      ReceiverInv(e, ch);
      R.ProcessSliceKeeps(e.receivers[ch], slice);
      ShapeParts();
      CountedShaped(connected, stats, history, sentPackets, packetSequence, currentTime);
      var r := SliceOn(reliableReceive, ch, slice);
      assert SenderViews(reliableSend) == old(SenderViews(reliableSend));
      assert UnreliableSendersOk(unreliableSend) && UnreliableReceiversOk(unreliableReceive);
      if r.Err? {
        connected := false;
      }
      ReceiversStay(e, ch, R.ProcessSlice(e.receivers[ch], slice).0, connected);
    }

    method UnreliableArrived(p: Packet)
      requires Valid() && connected && (p.SmallUnreliable? || p.UnreliableSlice?)
      requires UnreliableSound(UnreliableViews(unreliableReceive), p)
      modifies `connected, unreliableReceive.Values
      ensures Valid() && View() == old(View()).(connected := connected)
      ensures Unreliably(old(UnreliableViews(unreliableReceive)), p, currentTime, UnreliableViews(unreliableReceive),
                         connected)
    {
      hide Endpoints.Inv;
      hide Queued;
      hide UR.ProcessSlice;
      hide UR.Inv;
      hide UnreliableViews;
      hide UnreliableSendersOk;
      hide UnreliableReceiversOk;
      hide Counted;
      hide ReceiverViews;
      hide SenderViews;
      hide RenetClient.Shape;
      hide Unreliably;
      hide UnreliableSound;
      ShapeParts();
      StatusStays(View(), false);
      CountedShaped(connected, stats, history, sentPackets, packetSequence, currentTime);
      connected := UnreliableOn(unreliableReceive, p, currentTime);
      assert SenderViews(reliableSend) == old(SenderViews(reliableSend));
      assert ReceiverViews(reliableReceive) == old(ReceiverViews(reliableReceive));
      assert UnreliableSendersOk(unreliableSend);
    }

    /**
     * A packet arrives. One that cannot be read ends the connection. Slices have an index in range
     * and as many slices as others of their message, which the sender sees to.
     */
    method ProcessPacket(packet: Bytes) returns (ghost pending: seq<Range>, ghost qs: seq<nat>)
      requires Valid()
      requires Decode(packet).Ok? ==> SlicesSound(View(), UnreliableViews(unreliableReceive), Decode(packet).value)
      modifies `connected, `sentPackets, `stats, `history, `pendingAcks,
               reliableSend.Values, reliableReceive.Values, unreliableReceive.Values
      ensures Valid() && history == Stats.AfterAcks(old(history), set q | q in qs)
      ensures !old(connected) ==>
                View() == old(View()) && UnreliableViews(unreliableReceive) == old(UnreliableViews(unreliableReceive))
      ensures old(connected) && Decode(packet).Err? ==> View() == old(View()).(connected := false)
      ensures old(connected) && Decode(packet).Ok? ==>
                && Process(old(View()), Decode(packet).value, pending, qs, View())
                && Unreliably(old(UnreliableViews(unreliableReceive)), Decode(packet).value, currentTime,
                              UnreliableViews(unreliableReceive), connected)
    {
      hide RenetClient.Valid;
      hide RenetClient.View;
      hide Decode;
      hide Process;
      hide Unreliably;
      hide UnreliableViews;
      hide R.Consistent;
      hide UnreliableSound;
      pending, qs := [], [];
      if !connected {
        return;
      }
      var decoded := FromBytes(packet);
      if decoded.Err? {
        DisconnectWithReason();
        return;
      }
      if decoded.value.Ack? {
        DecodedAckNormal(packet);
      }
      pending, qs := Handle(decoded.value);
    }

    method Handle(p: Packet) returns (ghost pending: seq<Range>, ghost qs: seq<nat>)
      requires Valid() && connected && Sound(View(), p) && UnreliableSound(UnreliableViews(unreliableReceive), p)
      modifies `connected, `sentPackets, `stats, `history, `pendingAcks,
               reliableSend.Values, reliableReceive.Values, unreliableReceive.Values
      ensures Valid() && Process(old(View()), p, pending, qs, View())
      ensures history == Stats.AfterAcks(old(history), set q | q in qs)
      ensures Unreliably(old(UnreliableViews(unreliableReceive)), p, currentTime, UnreliableViews(unreliableReceive),
                         connected)
    {
      hide RenetClient.Valid;
      hide RenetClient.View;
      hide Endpoints.Inv;
      hide Sound;
      hide Process;
      hide Added;
      hide Unreliably;
      hide UnreliableSound;
      hide UnreliableViews;
      hide Stats.AfterAcks;
      NoneAcked(history);
      ghost var e := View();
      ghost var views := UnreliableViews(unreliableReceive);
      ValidInv();
      NoteArrival(p.sequence);
      assert UnreliableViews(unreliableReceive) == views;
      pending, qs := View().pendingAcks, [];
      match p
      case SmallUnreliable(_, _, _) =>
        LooseArrived(p, e, pending);
      case UnreliableSlice(_, _, _) =>
        LooseArrived(p, e, pending);
      case Ack(_, _) =>
        qs := AcksArrived(p, e, pending);
        assert UnreliableViews(unreliableReceive) == views;
        Untouched(views, p, currentTime, connected);
      case _ =>
        ReliableArrived(p, e, pending);
        assert UnreliableViews(unreliableReceive) == views;
        Untouched(views, p, currentTime, connected);
    }

    /** A packet of an unreliable channel, its arrival noted; `e` is the endpoint before that. */
    method LooseArrived(p: Packet, ghost e: Endpoint, ghost pending: seq<Range>)
      requires Valid() && connected && (p.SmallUnreliable? || p.UnreliableSlice?)
      requires Endpoints.Inv(e) && Added(e.pendingAcks, p.sequence, pending) && View() == e.(pendingAcks := pending)
      requires UnreliableSound(UnreliableViews(unreliableReceive), p)
      modifies `connected, unreliableReceive.Values
      ensures Valid() && Process(e, p, pending, [], View())
      ensures Unreliably(old(UnreliableViews(unreliableReceive)), p, currentTime, UnreliableViews(unreliableReceive),
                         connected)
    {
      hide RenetClient.Valid;
      hide RenetClient.View;
      hide Endpoints.Inv;
      hide Process;
      hide Added;
      hide Unreliably;
      hide UnreliableSound;
      hide UnreliableViews;
      UnreliableArrived(p);
      LooselyProcessed(e, p, pending, connected);
    }

    /** An ack packet, its arrival noted. */
    method AcksArrived(p: Packet, ghost e: Endpoint, ghost pending: seq<Range>) returns (ghost qs: seq<nat>)
      requires Valid() && connected && p.Ack?
      requires Endpoints.Inv(e) && Sound(e, p) && Added(e.pendingAcks, p.sequence, pending)
      requires View() == e.(pendingAcks := pending)
      modifies `sentPackets, `stats, `history, `pendingAcks, reliableSend.Values
      ensures Valid() && connected && Process(e, p, pending, qs, View())
      ensures history == Stats.AfterAcks(old(history), set q | q in qs)
    {
      hide RenetClient.Valid;
      hide Endpoints.Inv;
      hide Process;
      hide Added;
      hide AckAll;
      hide IsNewAcks;
      hide ReceiverViews;
      hide SenderViews;
      ValidInv();
      ghost var e1 := View();
      qs := ProcessAcks(p.ackRanges);
      AcksProcessed(e, p, pending, qs, e1);
    }

    /** A packet of a reliable channel, its arrival noted. */
    method ReliableArrived(p: Packet, ghost e: Endpoint, ghost pending: seq<Range>)
      requires Valid() && connected && (p.SmallReliable? || p.ReliableSlice?)
      requires Endpoints.Inv(e) && Sound(e, p) && Added(e.pendingAcks, p.sequence, pending)
      requires View() == e.(pendingAcks := pending)
      modifies `connected, reliableReceive.Values
      ensures Valid() && Process(e, p, pending, [], View())
    {
      hide RenetClient.Valid;
      hide Endpoints.Inv;
      hide R.Inv;
      hide R.Consistent;
      hide R.ProcessSlice;
      hide ProcessMessages;
      hide AckAll;
      hide IsNewAcks;
      hide Added;
      hide ReceiverViews;
      hide SenderViews;
      ValidInv();
      match p
      case SmallReliable(_, ch, messages) =>
        if ch in reliableReceive {
          MessagesArrived(ch, messages);
        } else {
          DisconnectWithReason();
        }
      case ReliableSlice(_, ch, slice) =>
        if ch in reliableReceive {
          SliceArrived(ch, slice);
        } else {
          DisconnectWithReason();
        }
    }

    /** Buckets are renewed and lost packets given up. */
    method Advance(duration: nat)
      requires Valid()
      modifies `currentTime, `stats, `history, `sentPackets
      ensures Valid() && View() == Tick(old(View()), duration)
      ensures |old(history).cleared| == Stats.SIZE
      ensures history == Stats.AfterUpdate(old(history), old(currentTime), currentTime)
    {
      hide Endpoints.Inv;
      hide UnreliableSendersOk;
      hide UnreliableReceiversOk;
      hide Counted;
      hide ReceiverViews;
      hide SenderViews;
      hide RenetClient.Shape;
      hide Surviving;
      hide Stats.AfterUpdate;
      hide Stats.Updated;
      hide Stats.Shaped;
      TickInv(View(), duration);
      SentParts(View());
      CountedShaped(connected, stats, history, sentPackets, packetSequence, currentTime);
      CountedTick(connected, stats, history, sentPackets, packetSequence, currentTime, currentTime + duration);
      ghost var senders, receivers := SenderViews(reliableSend), ReceiverViews(reliableReceive);
      currentTime := currentTime + duration;
      stats, history := Stats.Updated(stats, currentTime), Stats.AfterUpdate(history, old(currentTime), currentTime);
      sentPackets := DiscardLost(sentPackets, packetSequence, currentTime);
      assert SenderViews(reliableSend) == senders && ReceiverViews(reliableReceive) == receivers;
      assert UnreliableSendersOk(unreliableSend) && UnreliableReceiversOk(unreliableReceive);
    }

    method DiscardOldSlices()
      requires Valid()
      modifies unreliableReceive.Values
      ensures Valid() && View() == old(View())
      ensures UnreliableViews(unreliableReceive) == AllDiscarded(old(UnreliableViews(unreliableReceive)), currentTime)
    {
      hide AllDiscarded;
      hide UnreliableViews;
      hide Endpoints.Inv;
      hide UnreliableSendersOk;
      hide UnreliableReceiversOk;
      hide Counted;
      hide ReceiverViews;
      hide SenderViews;
      hide RenetClient.Shape;
      ShapeParts();
      DiscardAll(unreliableReceive, currentTime);
      assert SenderViews(reliableSend) == old(SenderViews(reliableSend));
      assert ReceiverViews(reliableReceive) == old(ReceiverViews(reliableReceive));
      assert UnreliableSendersOk(unreliableSend);
    }

    /** Time moves on: buckets are renewed, lost packets and old slices given up. */
    method Update(duration: nat)
      requires Valid()
      modifies `currentTime, `stats, `history, `sentPackets, unreliableReceive.Values
      ensures Valid() && View() == Tick(old(View()), duration)
      ensures |old(history).cleared| == Stats.SIZE
      ensures history == Stats.AfterUpdate(old(history), old(currentTime), currentTime)
      ensures UnreliableViews(unreliableReceive) == AllDiscarded(old(UnreliableViews(unreliableReceive)), currentTime)
    {
      hide RenetClient.Valid;
      hide RenetClient.View;
      hide Tick;
      hide AllDiscarded;
      hide UnreliableViews;
      Advance(duration);
      DiscardOldSlices();
    }

    ghost function Now(packets: seq<Packet>, available: nat): Stage
      reads reliableSend.Values, unreliableSend.Values
    {
      Stage(SenderViews(reliableSend), Outboxes(unreliableSend), packets, available)
    }

    /** Where making packets stands when the first `i` channels have had their turn. */
    ghost predicate Underway(e: Endpoint, start: Stage, i: nat, packets: seq<Packet>, available: nat,
                             stages: seq<Stage>)
      reads this, reliableSend.Values, unreliableSend.Values, unreliableReceive.Values, reliableReceive.Values
    {
      && e.sequence == packetSequence && e.time == currentTime && e.senders.Keys == reliableSend.Keys
      && (forall ch :: ch in e.senders ==> e.senders[ch].channelId == ch)
      && UnreliableSendersOk(unreliableSend)
      && Made(e, SenderViews(reliableSend), packets, availableBytesPerTick, available)
      && i <= |sendOrder| && Turns(sendOrder[..i], stages, packetSequence, currentTime)
      && stages[0] == start && stages[i] == Now(packets, available)
    }

    /** Each channel in turn makes packets from what the ones before it left of the budget. */
    method MakePackets() returns (packets: seq<Packet>, available: nat, ghost stages: seq<Stage>)
      requires Valid()
      modifies reliableSend.Values, unreliableSend.Values
      ensures UnreliableSendersOk(unreliableSend)
      ensures Made(old(View()), SenderViews(reliableSend), packets, availableBytesPerTick, available)
      ensures Turns(sendOrder, stages, packetSequence, currentTime)
      ensures stages[0] == old(Now([], availableBytesPerTick)) && stages[|sendOrder|] == Now(packets, available)
    {
      hide RenetClient.Underway;
      hide RenetClient.Now;
      hide RenetClient.View;
      hide Turns;
      hide Made;
      hide UnreliableSendersOk;
      packets, available := [], availableBytesPerTick;
      ghost var e, start := View(), Now([], availableBytesPerTick);
      stages := [start];
      Begin();
      for i := 0 to |sendOrder|
        invariant Underway(e, start, i, packets, available, stages)
      {
        packets, available, stages := TakeTurn(e, start, i, packets, available, stages);
      }
      Done(e, start, packets, available, stages);
    }

    lemma Begin()
      requires Valid()
      ensures Underway(View(), Now([], availableBytesPerTick), 0, [], availableBytesPerTick,
                       [Now([], availableBytesPerTick)])
    {
      hide Endpoints.Inv;
      hide UnreliableSendersOk;
      hide Counted;
      hide ReceiverViews;
      hide SenderViews;
      hide Outboxes;
      hide Made;
      hide Turns;
      ChannelIds(View());
      MadeNothing(View(), availableBytesPerTick);
      NoTurns(Now([], availableBytesPerTick), packetSequence, currentTime);
      assert sendOrder[..0] == [];
    }

    lemma Done(e: Endpoint, start: Stage, packets: seq<Packet>, available: nat, stages: seq<Stage>)
      requires Underway(e, start, |sendOrder|, packets, available, stages)
      ensures UnreliableSendersOk(unreliableSend)
      ensures Made(e, SenderViews(reliableSend), packets, availableBytesPerTick, available)
      ensures Turns(sendOrder, stages, packetSequence, currentTime)
      ensures stages[0] == start && stages[|sendOrder|] == Now(packets, available)
    {
      hide UnreliableSendersOk;
      hide SenderViews;
      hide Outboxes;
      hide Made;
      assert sendOrder[..|sendOrder|] == sendOrder;
    }

    method TakeTurn(ghost e: Endpoint, ghost start: Stage, i: nat, packets: seq<Packet>, available: nat,
                    ghost stages: seq<Stage>)
      returns (packets': seq<Packet>, available': nat, ghost stages': seq<Stage>)
      requires Shape() && i < |sendOrder| && Underway(e, start, i, packets, available, stages)
      modifies reliableSend.Values, unreliableSend.Values
      ensures Underway(e, start, i + 1, packets', available', stages')
    {
      hide UnreliableSendersOk;
      hide SenderViews;
      hide Outboxes;
      hide Made;
      hide Turn;
      hide Turns;
      hide RenetClient.Now;
      TurnsLength(sendOrder[..i], stages, packetSequence, currentTime);
      match sendOrder[i] {
        case Reliable(ch) =>
          packets', available' := ReliablePart(e, ch, packets, available);
        case Unreliable(ch) =>
          packets', available' := UnreliablePart(e, ch, packets, available);
      }
      stages' := stages + [Now(packets', available')];
      TurnsOn(sendOrder[..i], stages, sendOrder[i], Now(packets', available'), packetSequence, currentTime);
      assert sendOrder[..i + 1] == sendOrder[..i] + [sendOrder[i]];
    }

    method ReliablePart(ghost e: Endpoint, ch: nat, packets: seq<Packet>, available: nat)
      returns (packets': seq<Packet>, available': nat)
      requires Shape() && ch in reliableSend && e.time == currentTime && e.sequence == packetSequence
      requires ch in e.senders && e.senders[ch].channelId == ch
      requires Made(e, SenderViews(reliableSend), packets, availableBytesPerTick, available)
      modifies reliableSend[ch]
      ensures Made(e, SenderViews(reliableSend), packets', availableBytesPerTick, available')
      ensures Turn(Reliable(ch), old(Now(packets, available)), Now(packets', available'), packetSequence, currentTime)
    {
      hide SenderViews;
      hide Outboxes;
      hide Made;
      hide S.Inv;
      hide S.SentBefore;
      hide SendPass;
      hide Greedy;
      hide Tight;
      hide Groups;
      hide RenetClient.Shape;
      ShapeParts();
      MadeSender(e, SenderViews(reliableSend), packets, availableBytesPerTick, available, ch);
      ghost var senders := SenderViews(reliableSend);
      var more, sequence, left := PassOn(reliableSend, ch, packetSequence + |packets|, available, currentTime);
      MadeByReliable(e, senders, packets, availableBytesPerTick, available, ch, SenderViews(reliableSend)[ch], more,
                     left);
      packets', available' := packets + more, left;
      assert packets'[..|packets|] == packets && packets'[|packets|..] == more;
    }

    method UnreliablePart(ghost e: Endpoint, ch: nat, packets: seq<Packet>, available: nat)
      returns (packets': seq<Packet>, available': nat)
      requires Shape() && ch in unreliableSend && e.sequence == packetSequence && UnreliableSendersOk(unreliableSend)
      requires Made(e, SenderViews(reliableSend), packets, availableBytesPerTick, available)
      modifies unreliableSend[ch]
      ensures UnreliableSendersOk(unreliableSend)
      ensures Made(e, SenderViews(reliableSend), packets', availableBytesPerTick, available')
      ensures Turn(Unreliable(ch), old(Now(packets, available)), Now(packets', available'), packetSequence, currentTime)
    {
      hide SenderViews;
      hide Outboxes;
      hide UnreliableSendersOk;
      hide Made;
      hide UnreliablePass;
      hide RenetClient.Shape;
      ShapeParts();
      ghost var o := Outboxes(unreliableSend)[ch];
      var more, left, plan := UnreliablePassOn(unreliableSend, ch, packetSequence + |packets|, available);
      MadeByPass(e, SenderViews(reliableSend), packets, availableBytesPerTick, available, ch, o, plan, more, left,
                 Outboxes(unreliableSend)[ch]);
      packets', available' := packets + more, left;
      assert packets'[..|packets|] == packets && packets'[|packets|..] == more;
    }

    /** An ack packet with everything pending goes last. */
    method AllPackets() returns (packets: seq<Packet>, available: nat, ghost stages: seq<Stage>)
      requires Valid()
      modifies reliableSend.Values, unreliableSend.Values
      ensures UnreliableSendersOk(unreliableSend) && UnreliableReceiversOk(unreliableReceive)
      ensures ReceiverViews(reliableReceive) == old(ReceiverViews(reliableReceive))
      ensures Leaving(old(View()), SenderViews(reliableSend), packets, availableBytesPerTick, available)
      ensures Turns(sendOrder, stages, packetSequence, currentTime)
      ensures stages[0] == old(Now([], availableBytesPerTick))
      ensures stages[|sendOrder|] == Now(FromChannels(packets, pendingAcks), available)
    {
      hide Turns;
      hide Outboxes;
      hide Endpoints.Inv;
      hide UnreliableSendersOk;
      hide UnreliableReceiversOk;
      hide Counted;
      hide ReceiverViews;
      hide SenderViews;
      hide Made;
      hide Leaving;
      ghost var e := View();
      packets, available, stages := MakePackets();
      WithAcks(e, SenderViews(reliableSend), packets, availableBytesPerTick, available);
      if pendingAcks != [] {
        ghost var made := packets;
        packets := packets + [Ack(packetSequence + |packets|, pendingAcks)];
        assert packets[..|packets| - 1] == made;
      }
    }

    /**
     * Every packet made is entered in the ledger and written. When one cannot be written the
     * connection ends and nothing is handed out.
     */
    method GetPacketsToSend()
      returns (payloads: seq<Bytes>, ghost packets: seq<Packet>, ghost available: nat, ghost stages: seq<Stage>)
      requires Valid()
      modifies this, reliableSend.Values, unreliableSend.Values
      ensures Valid()
      ensures !old(connected) ==> payloads == [] && View() == old(View())
      ensures old(connected) ==>
                && Flush(old(View()), packets, View())
                && Leaving(old(View()), View().senders, packets, availableBytesPerTick, available)
      ensures old(connected) ==>
                && Turns(sendOrder, stages, old(packetSequence), currentTime)
                && stages[0] == old(Now([], availableBytesPerTick))
                && stages[|sendOrder|] == Now(FromChannels(packets, pendingAcks), available)
      ensures !old(connected) ==> Outboxes(unreliableSend) == old(Outboxes(unreliableSend))
      ensures connected <==> old(connected) && Sendable(packets)
      ensures connected ==> payloads == Payloads(packets)
      ensures !connected ==> payloads == []
      ensures |pendingAcks| <= MAX_PENDING_RANGES && AllNumbered(packets) ==> connected == old(connected)
      ensures |pendingAcks| >= LONGEST_ACK_LIST ==> !connected
      ensures history ==
                if connected then Stats.AfterSend(old(history), old(packetSequence), |packets|, currentTime)
                else old(history)
    {
      hide Turns;
      hide Outboxes;
      hide FromChannels;
      hide Endpoints.Inv;
      hide UnreliableSendersOk;
      hide UnreliableReceiversOk;
      hide Counted;
      hide ReceiverViews;
      hide SenderViews;
      hide Flush;
      hide Leaving;
      hide Sendable;
      hide AllNumbered;
      hide Payloads;
      hide Recordable;
      hide Recorded;
      hide RenetClient.Shape;
      if !connected {
        return [], [], 0, [];
      }
      ghost var e := View();
      var made, left, turns := AllPackets();
      packets, available, stages := made, left, turns;
      payloads := Finish(e, made, left);
      AcksDecide(e, SenderViews(reliableSend), made, availableBytesPerTick, left);
    }

    method Finish(ghost e: Endpoint, made: seq<Packet>, ghost left: nat) returns (payloads: seq<Bytes>)
      requires Endpoints.Inv(e) && e.connected && View() == e.(senders := SenderViews(reliableSend))
      requires Leaving(e, SenderViews(reliableSend), made, availableBytesPerTick, left)
      requires Counted(connected, stats, history, sentPackets, packetSequence, currentTime)
      modifies `sentPackets, `packetSequence, `connected, `stats, `history
      ensures Flush(e, made, View()) && Endpoints.Inv(View()) && View().senders == SenderViews(reliableSend)
      ensures Counted(connected, stats, history, sentPackets, packetSequence, currentTime)
      ensures connected <==> Sendable(made)
      ensures payloads == if connected then Payloads(made) else []
      ensures history ==
                if connected then Stats.AfterSend(old(history), old(packetSequence), |made|, currentTime)
                else old(history)
    {
      hide Endpoints.Inv;
      hide Counted;
      hide ReceiverViews;
      hide SenderViews;
      hide Flush;
      hide Leaving;
      hide Sendable;
      hide Payloads;
      hide Recordable;
      hide Recorded;
      ghost var senders := SenderViews(reliableSend);
      LeavingParts(e, senders, made, availableBytesPerTick, left);
      LeavingFlush(e, senders, made, availableBytesPerTick, left, true);
      LeavingFlush(e, senders, made, availableBytesPerTick, left, false);
      CountedShaped(connected, stats, history, sentPackets, packetSequence, currentTime);
      CountedSend(stats, history, sentPackets, packetSequence, made, currentTime);
      sentPackets := Record(sentPackets, packetSequence, made, currentTime);
      packetSequence := packetSequence + |made|;
      assert View() == AfterFlush(e, senders, made, true);
      payloads := Write(made);
      if connected {
        history := Stats.AfterSend(history, old(packetSequence), |made|, currentTime);
      }
    }

    /** The packets are written or, if one of them cannot be, the connection ends. */
    method Write(made: seq<Packet>) returns (payloads: seq<Bytes>)
      requires connected && Stats.Shaped(stats)
      modifies `connected, `stats
      ensures View() == old(View()).(connected := connected) && (connected <==> Sendable(made))
      ensures stats == if connected then Stats.WithSent(old(stats), |made|) else old(stats)
      ensures payloads == if connected then Payloads(made) else []
    {
      hide ReceiverViews;
      hide SenderViews;
      hide Sendable;
      hide Stats.WithSent;
      var written := Serialize(made);
      match written
      case Err(_) =>
        connected, payloads := false, [];
      case Ok(all) =>
        payloads := all;
        stats := Stats.WithSent(stats, |all|);
    }

    lemma ValidInv()
      requires Valid()
      ensures Endpoints.Inv(View())
    {
      hide Endpoints.Inv;
    }
  }

  lemma AcksProcessed(e: Endpoint, p: Packet, pending: seq<Range>, qs: seq<nat>, e1: Endpoint)
    requires Endpoints.Inv(e) && Endpoints.Inv(e1) && p.Ack? && Sound(e, p) && Added(e.pendingAcks, p.sequence, pending)
    requires e1 == e.(pendingAcks := pending) && IsNewAcks(e.sent, p.ackRanges, qs)
    ensures Process(e, p, pending, qs, AckAll(e1, qs))
  {
    hide Endpoints.Inv;
    hide AckAll;
    hide IsNewAcks;
    hide Added;
  }

  lemma LooselyProcessed(e: Endpoint, p: Packet, pending: seq<Range>, connected: bool)
    requires Endpoints.Inv(e) && (p.SmallUnreliable? || p.UnreliableSlice?) && Added(e.pendingAcks, p.sequence, pending)
    ensures Process(e, p, pending, [], e.(pendingAcks := pending, connected := connected))
  {
    hide Endpoints.Inv;
    hide Added;
  }

  /** The sequences in the ledger that the ranges name; ranges in normal form name each once. */
  method NewAcks(sent: map<nat, PacketSent>, ranges: seq<Range>) returns (qs: seq<nat>)
    requires Normal(ranges)
    ensures IsNewAcks(sent, ranges, qs)
  {
    qs := [];
    for i := 0 to |ranges|
      invariant Ascending(qs) && (forall q :: q in qs <==> q in sent && Has(ranges[..i], q))
      invariant forall q, k :: q in qs && i <= k < |ranges| ==> q < ranges[k].start
    {
      var range := ranges[i];
      ghost var before := qs;
      var q := range.start;
      while q < range.end
        invariant range.start <= q <= range.end
        invariant Ascending(qs) && (forall k :: k in qs <==> k in before || (k in sent && range.start <= k < q))
        invariant forall k :: k in qs ==> k < q
      {
        if q in sent {
          assert forall k :: 0 <= k < |qs| ==> qs[k] in qs;
          qs := qs + [q];
        }
        q := q + 1;
      }
      forall k: nat
        ensures Has(ranges[..i + 1], k) <==> Has(ranges[..i], k) || InRange(range, k)
      {
        HasSnoc(ranges, i, k);
      }
    }
    assert ranges[..|ranges|] == ranges;
  }

  lemma HasSnoc(ranges: seq<Range>, i: nat, q: nat)
    requires i < |ranges|
    ensures Has(ranges[..i + 1], q) <==> Has(ranges[..i], q) || InRange(ranges[i], q)
  {
    var more, less := ranges[..i + 1], ranges[..i];
    assert more[i] == ranges[i] && forall k :: 0 <= k < i ==> more[k] == less[k];
    if k :| 0 <= k < |less| && InRange(less[k], q) {
      assert InRange(more[k], q);
    }
  }

  /**
   * The scan of `update` for packets given up. It stops at the first that is young, which loses
   * nothing because packets are in order of time.
   */
  method DiscardLost(sent: map<nat, PacketSent>, bound: nat, time: nat) returns (kept: map<nat, PacketSent>)
    requires forall q :: q in sent ==> q < bound
    requires forall q, q' :: q in sent && q' in sent && q < q' ==> sent[q].sentAt <= sent[q'].sentAt
    ensures kept == Surviving(sent, time)
  {
    var lost: seq<nat> := [];
    var q := 0;
    while q < bound
      invariant 0 <= q <= bound
      invariant forall k :: k in lost <==> k in sent && k < q
      invariant forall k :: k in lost ==> time - sent[k].sentAt >= DISCARD_AFTER
    {
      if q in sent {
        if time - sent[q].sentAt >= DISCARD_AFTER {
          lost := lost + [q];
        } else {
          break;
        }
      }
      q := q + 1;
    }
    assert forall k :: k in lost <==> k in sent && time - sent[k].sentAt >= DISCARD_AFTER;
    kept := sent;
    for i := 0 to |lost|
      invariant kept == map k | k in sent && k !in lost[..i] :: sent[k]
    {
      kept := kept - {lost[i]};
    }
    assert lost[..|lost|] == lost;
  }

  method DiscardAll(channels: map<nat, ReceiveChannelUnreliable>, currentTime: nat)
    requires Distinct(channels) && UnreliableReceiversOk(channels)
    modifies channels.Values
    ensures UnreliableReceiversOk(channels)
    ensures UnreliableViews(channels) == AllDiscarded(old(UnreliableViews(channels)), currentTime)
  {
    hide UR.Discarded;
    hide UnreliableReceiversOk;
    hide UnreliableViews;
    ghost var before := UnreliableViews(channels);
    var rest := channels.Keys;
    while rest != {}
      invariant rest <= channels.Keys && UnreliableReceiversOk(channels)
      invariant UnreliableViews(channels) == DiscardedBut(before, rest, currentTime)
      decreases rest
    {
      var ch :| ch in rest;
      DiscardOn(channels, ch, currentTime);
      rest := rest - {ch};
    }
  }

  /** Every channel but `rest` has given up its old slices. */
  ghost function DiscardedBut(before: map<nat, UR.Receiver>, rest: set<nat>, now: nat): map<nat, UR.Receiver> {
    map ch | ch in before :: if ch in rest then before[ch] else UR.Discarded(before[ch], now)
  }

  method DiscardOn(channels: map<nat, ReceiveChannelUnreliable>, ch: nat, currentTime: nat)
    requires ch in channels && Distinct(channels) && UnreliableReceiversOk(channels)
    modifies channels[ch]
    ensures UnreliableReceiversOk(channels)
    ensures UnreliableViews(channels) ==
              old(UnreliableViews(channels))[ch := UR.Discarded(old(UnreliableViews(channels))[ch], currentTime)]
  {
    hide UR.Inv;
    hide UR.Discarded;
    channels[ch].DiscardIncompleteOldSlices(currentTime);
  }

  lemma SentParts(e: Endpoint)
    requires Endpoints.Inv(e)
    ensures forall q :: q in e.sent ==> q < e.sequence
    ensures forall q, q' :: q in e.sent && q' in e.sent && q < q' ==> e.sent[q].sentAt <= e.sent[q'].sentAt
  {
    hide LedgerOk;
  }

  lemma MadeByPass(e: Endpoint, senders: map<nat, S.Sender>, packets: seq<Packet>, budget: nat, available: nat,
                   ch: nat, o: Outbox, plan: seq<US.Item>, more: seq<Packet>, left: nat, o': Outbox)
    requires Made(e, senders, packets, budget, available)
    requires UnreliablePass(o, ch, e.sequence + |packets|, available, plan, more, left, o')
    ensures Made(e, senders, packets + more, budget, left)
  {
    hide Made;
    hide US.Sends;
    hide US.PacketsOf;
    hide US.PlanOf;
    hide US.Chosen;
    hide BytesOf;
    MadeByUnreliable(e, senders, packets, budget, available, ch, US.Chosen(o.messages, available, o.ordered), plan,
                     o.nextId, left);
  }

  /** The packets that leave: those of the channels and, last, the acks pending. */
  ghost predicate Leaving(e: Endpoint, senders: map<nat, S.Sender>, packets: seq<Packet>, budget: nat, available: nat) {
    && senders.Keys == e.senders.Keys
    && (forall ch :: ch in e.senders ==> TimersOnly(e.senders[ch], senders[ch], e.time))
    && (forall i :: 0 <= i < |packets| ==>
          packets[i].sequence == e.sequence + i && PacketFrom(e, packets[i]) && Built(packets[i]))
    && (forall i :: 0 <= i < |packets| ==> (packets[i].Ack? <==> i == |packets| - 1 && e.pendingAcks != []))
    && (e.pendingAcks != [] ==> packets != [])
    && TotalBytes(packets) + available == budget
  }

  lemma WithoutAcks(e: Endpoint, senders: map<nat, S.Sender>, packets: seq<Packet>, budget: nat, available: nat)
    requires Made(e, senders, packets, budget, available) && e.pendingAcks == []
    ensures Leaving(e, senders, packets, budget, available)
  {
    hide TimersOnly;
    hide PacketFrom;
    hide Built;
    hide TotalBytes;
  }

  lemma WithAck(e: Endpoint, senders: map<nat, S.Sender>, packets: seq<Packet>, ack: Packet, budget: nat,
                available: nat)
    requires Made(e, senders, packets, budget, available) && e.pendingAcks != []
    requires ack.Ack? && ack.sequence == e.sequence + |packets| && PacketFrom(e, ack) && Built(ack)
    ensures Leaving(e, senders, packets + [ack], budget, available)
  {
    hide TimersOnly;
    hide PacketFrom;
    hide Built;
    hide TotalBytes;
    UnitsSnoc(packets, ack);
    var all := packets + [ack];
    forall i | 0 <= i < |all|
      ensures all[i].sequence == e.sequence + i && PacketFrom(e, all[i]) && Built(all[i])
      ensures all[i].Ack? <==> i == |all| - 1
    {
      if i < |packets| {
        assert all[i] == packets[i];
      } else {
        assert all[i] == ack;
      }
    }
  }

  lemma WithAcks(e: Endpoint, senders: map<nat, S.Sender>, packets: seq<Packet>, budget: nat, available: nat)
    requires Endpoints.Inv(e) && Made(e, senders, packets, budget, available)
    ensures e.pendingAcks == [] ==> Leaving(e, senders, packets, budget, available)
    ensures e.pendingAcks != [] ==>
              Leaving(e, senders, packets + [Ack(e.sequence + |packets|, e.pendingAcks)], budget, available)
  {
    hide Endpoints.Inv;
    hide Made;
    hide Leaving;
    hide PacketFrom;
    hide Built;
    if e.pendingAcks == [] {
      WithoutAcks(e, senders, packets, budget, available);
    } else {
      AckBuilt(e, e.sequence + |packets|);
      WithAck(e, senders, packets, Ack(e.sequence + |packets|, e.pendingAcks), budget, available);
    }
  }

  lemma AckBuilt(e: Endpoint, q: nat)
    requires Endpoints.Inv(e) && e.pendingAcks != []
    ensures PacketFrom(e, Ack(q, e.pendingAcks)) && Built(Ack(q, e.pendingAcks))
  {
    hide TimersOnly;
    hide LedgerOk;
    hide SendersOk;
    hide ReceiversOk;
    hide Normal;
  }

  /** Every packet can be written, and fits the buffer. */
  predicate Sendable(packets: seq<Packet>) {
    forall i :: 0 <= i < |packets| ==> Writable(packets[i]) && |Encode(packets[i])| <= BUFFER_SIZE
  }

  predicate AllNumbered(packets: seq<Packet>) {
    forall i :: 0 <= i < |packets| ==> Numbered(packets[i])
  }

  /** An ack packet takes at least two bytes for each range: this many never fit the buffer. */
  const LONGEST_ACK_LIST: nat := 699

  /**
   * Packets are written as long as the ack list keeps to its limit and the numbers fit; a list that
   * has grown too far past its limit ends the connection.
   */
  lemma AcksDecide(e: Endpoint, senders: map<nat, S.Sender>, packets: seq<Packet>, budget: nat, available: nat)
    requires Leaving(e, senders, packets, budget, available)
    ensures |e.pendingAcks| <= MAX_PENDING_RANGES && AllNumbered(packets) ==> Sendable(packets)
    ensures |e.pendingAcks| >= LONGEST_ACK_LIST ==> !Sendable(packets)
  {
    hide Encode;
    hide Writable;
    hide TimersOnly;
    hide TotalBytes;
    hide Built;
    hide Numbered;
    if |e.pendingAcks| <= MAX_PENDING_RANGES && AllNumbered(packets) {
      forall i | 0 <= i < |packets|
        ensures Writable(packets[i]) && |Encode(packets[i])| <= BUFFER_SIZE
      {
        BuiltSize(packets[i]);
      }
    }
    if |e.pendingAcks| >= LONGEST_ACK_LIST {
      var ack := packets[|packets| - 1];
      assert PacketFrom(e, ack);
      if Writable(ack) {
        AckSize(ack);
      }
    }
  }

  function Payloads(packets: seq<Packet>): (payloads: seq<Bytes>)
    requires Sendable(packets)
    ensures |payloads| == |packets|
  {
    seq(|packets|, i requires 0 <= i < |packets| => Encode(packets[i]))
  }

  method Serialize(packets: seq<Packet>) returns (r: Result<seq<Bytes>, SerializationError>)
    ensures r.Ok? <==> Sendable(packets)
    ensures r.Ok? ==> r.value == Payloads(packets)
  {
    hide Encode;
    hide Writable;
    var payloads := [];
    for i := 0 to |packets|
      invariant forall k :: 0 <= k < i ==> Writable(packets[k]) && |Encode(packets[k])| <= BUFFER_SIZE
      invariant |payloads| == i && forall k :: 0 <= k < i ==> payloads[k] == Encode(packets[k])
    {
      if !Writable(packets[i]) {
        return Err(BufferTooShort);
      }
      var written :- ToBytes(packets[i], BUFFER_SIZE);
      payloads := payloads + [written];
    }
    return Ok(payloads);
  }

  /** The ledger gains an entry for each packet. */
  method Record(sent: map<nat, PacketSent>, first: nat, packets: seq<Packet>, time: nat)
    returns (sent': map<nat, PacketSent>)
    requires Recordable(packets) && forall i :: 0 <= i < |packets| ==> packets[i].sequence == first + i
    ensures sent' == Recorded(sent, first, packets, time)
  {
    hide Recorded;
    hide Normal;
    sent' := sent;
    RecordedNone(sent, first, time);
    assert packets[..0] == [];
    for i := 0 to |packets|
      invariant sent' == Recorded(sent, first, packets[..i], time)
    {
      RecordedSnoc(sent, first, packets, i, time);
      sent' := sent'[packets[i].sequence := PacketSent(time, InfoOf(packets[i]))];
    }
    assert packets[..|packets|] == packets;
  }

  lemma RecordedNone(sent: map<nat, PacketSent>, first: nat, time: nat)
    ensures Recorded(sent, first, [], time) == sent
  {
  }

  lemma RecordedSnoc(sent: map<nat, PacketSent>, first: nat, packets: seq<Packet>, i: nat, time: nat)
    requires Recordable(packets) && i < |packets|
    ensures Recorded(sent, first, packets[..i + 1], time)
         == Recorded(sent, first, packets[..i], time)[first + i := PacketSent(time, InfoOf(packets[i]))]
  {
    hide InfoOf;
    hide Normal;
  }

  lemma CountedSend(st: Stats.Stats, h: Stats.History, sent: map<nat, PacketSent>, first: nat, packets: seq<Packet>,
                    time: nat)
    requires Recordable(packets) && Counted(true, st, h, sent, first, time) && Stats.Shaped(st)
    ensures Counted(true, Stats.WithSent(st, |packets|), Stats.AfterSend(h, first, |packets|, time),
                    Recorded(sent, first, packets, time), first + |packets|, time)
    ensures Counted(false, st, h, Recorded(sent, first, packets, time), first + |packets|, time)
  {
    hide InfoOf;
    hide Normal;
    hide Stats.Tallies;
    hide Stats.WithSent;
    var n := |packets|;
    Stats.SendTallies(st, h, first, n, time);
    Stats.ExtendedKeys(h.sentAt, first, n, time);
    Stats.SendInFlight(st, h, first, n, time);
    var sent' := Recorded(sent, first, packets, time);
    assert forall q :: q in sent <==> q in Stats.InFlight(h, time);
    assert forall q :: q in sent ==> sent[q].sentAt == SentTimes(sent)[q];
    assert SentTimes(sent') == Stats.InFlight(Stats.AfterSend(h, first, n, time), time);
  }

  lemma LeavingParts(e: Endpoint, senders: map<nat, S.Sender>, packets: seq<Packet>, budget: nat, available: nat)
    requires Endpoints.Inv(e) && Leaving(e, senders, packets, budget, available)
    ensures Recordable(packets) && forall q :: q in e.sent ==> q < e.sequence
    ensures forall i :: 0 <= i < |packets| ==> packets[i].sequence == e.sequence + i
  {
    hide TimersOnly;
    hide LedgerOk;
    hide SendersOk;
    hide ReceiversOk;
    hide Normal;
    hide PacketFrom;
  }

  /** The endpoint once the packets have been entered in the ledger. */
  ghost function AfterFlush(e: Endpoint, senders: map<nat, S.Sender>, packets: seq<Packet>, connected: bool): Endpoint
    requires Recordable(packets)
  {
    e.(senders := senders, sequence := e.sequence + |packets|, connected := connected,
       sent := Recorded(e.sent, e.sequence, packets, e.time))
  }

  lemma LeavingFlush(e: Endpoint, senders: map<nat, S.Sender>, packets: seq<Packet>, budget: nat, available: nat,
                     connected: bool)
    requires Endpoints.Inv(e) && Leaving(e, senders, packets, budget, available) && e.connected && Recordable(packets)
    ensures Flush(e, packets, AfterFlush(e, senders, packets, connected))
    ensures Endpoints.Inv(AfterFlush(e, senders, packets, connected))
  {
    hide TimersOnly;
    hide Endpoints.Inv;
    hide Recordable;
    hide Recorded;
    hide PacketFrom;
    hide Built;
    FlushInv(e, packets, AfterFlush(e, senders, packets, connected));
  }

  lemma ChannelIds(e: Endpoint)
    requires Endpoints.Inv(e)
    ensures forall ch :: ch in e.senders ==> e.senders[ch].channelId == ch
  {
    hide LedgerOk;
    hide S.Inv;
  }

  lemma PendingNormal(e: Endpoint)
    requires Endpoints.Inv(e)
    ensures Normal(e.pendingAcks)
  {
    hide LedgerOk;
    hide S.Inv;
    hide Normal;
  }

  lemma SenderAt(e: Endpoint, ch: nat)
    requires Endpoints.Inv(e) && ch in e.senders
    ensures S.Inv(e.senders[ch]) && S.SentBefore(e.senders[ch], e.time) && e.senders[ch].channelId == ch
  {
  }
}
