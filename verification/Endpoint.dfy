/**
 * One end of a connection as a value, and what each operation of `RenetClient` does to it
 * (renet2/src/remote_connection.rs).
 */
module Endpoints {
  import opened Base
  import opened Slicing
  import opened AckRanges
  import opened SendPasses
  import S = ReliableSending
  import R = ReliableReceiving

  datatype SentInfo =
    | NoInfo
    | ReliableMessages(channelId: nat, messageIds: seq<nat>)
    | ReliableSliceMessage(channelId: nat, messageId: nat, sliceIndex: nat)
    | AckInfo(largestAcked: nat)

  datatype PacketSent = PacketSent(sentAt: nat, info: SentInfo)

  datatype Endpoint = Endpoint(
    connected: bool,
    sequence: nat,
    time: nat,
    sent: map<nat, PacketSent>,
    pendingAcks: seq<Range>,
    senders: map<nat, S.Sender>,
    receivers: map<nat, R.Receiver>)

  function Ids(messages: seq<(nat, Bytes)>): seq<nat> {
    seq(|messages|, k requires 0 <= k < |messages| => messages[k].0)
  }

  function InfoOf(p: Packet): SentInfo
    requires p.Ack? ==> p.ackRanges != [] && 0 < p.ackRanges[|p.ackRanges| - 1].end
  {
    match p
    case SmallReliable(_, ch, messages) => ReliableMessages(ch, Ids(messages))
    case ReliableSlice(_, ch, slice) => ReliableSliceMessage(ch, slice.messageId, slice.sliceIndex)
    case Ack(_, rs) => AckInfo(rs[|rs| - 1].end - 1)
    case _ => NoInfo
  }

  // ----- What holds of an endpoint by itself

  /** Acking this entry reaches no panic: its channel exists and its messages have the right form. */
  ghost predicate LedgerOk(senders: map<nat, S.Sender>, info: SentInfo) {
    match info
    case ReliableMessages(ch, ids) =>
      ch in senders && forall id :: id in ids ==> id < senders[ch].nextId && S.MessageAckOk(senders[ch], id)
    case ReliableSliceMessage(ch, id, i) =>
      ch in senders && id < senders[ch].nextId && S.SliceAckOk(senders[ch], id, i)
    case _ => true
  }

  ghost predicate SendersOk(senders: map<nat, S.Sender>, time: nat) {
    forall ch :: ch in senders ==>
      S.Inv(senders[ch]) && S.SentBefore(senders[ch], time) && senders[ch].channelId == ch
  }

  ghost predicate ReceiversOk(receivers: map<nat, R.Receiver>) {
    forall ch :: ch in receivers ==> R.Inv(receivers[ch])
  }

  /** Entries are young, in order of time, and can be acked. */
  ghost predicate SentOk(e: Endpoint) {
    && (forall q :: q in e.sent ==>
          && q < e.sequence
          && e.sent[q].sentAt <= e.time < e.sent[q].sentAt + DISCARD_AFTER
          && LedgerOk(e.senders, e.sent[q].info))
    && (forall q, q' :: q in e.sent && q' in e.sent && q < q' ==> e.sent[q].sentAt <= e.sent[q'].sentAt)
  }

  ghost predicate Inv(e: Endpoint) {
    && Normal(e.pendingAcks)
    && SendersOk(e.senders, e.time)
    && ReceiversOk(e.receivers)
    && SentOk(e)
  }

  ghost predicate AllLater(senders: map<nat, S.Sender>, senders': map<nat, S.Sender>) {
    senders.Keys == senders'.Keys && forall ch :: ch in senders ==> S.Later(senders[ch], senders'[ch])
  }

  lemma LedgerStays(senders: map<nat, S.Sender>, senders': map<nat, S.Sender>, info: SentInfo)
    requires LedgerOk(senders, info) && AllLater(senders, senders')
    ensures LedgerOk(senders', info)
  {
  }

  /** An endpoint that has sent and received nothing. */
  ghost predicate New(e: Endpoint) {
    && e.connected && e.sequence == 0 && e.time == 0 && e.sent == map[] && e.pendingAcks == []
    && (forall ch :: ch in e.senders ==>
          exists resendTime, maxMemory :: e.senders[ch] == S.Empty(ch, resendTime, maxMemory))
    && (forall ch :: ch in e.receivers ==>
          exists maxMemory, ordered :: e.receivers[ch] == R.Empty(maxMemory, ordered))
  }

  lemma NewInv(e: Endpoint)
    requires New(e)
    ensures Inv(e)
  {
  }

  // ----- Operations

  /** `send_message`: refused for want of memory, it ends the connection. */
  function SendMessage(e: Endpoint, ch: nat, m: Bytes): (e': Endpoint)
    requires ch in e.senders
  {
    var (s, r) := S.SendMessage(e.senders[ch], m);
    e.(senders := e.senders[ch := s], connected := e.connected && r.Ok?)
  }

  lemma SendMessageInv(e: Endpoint, ch: nat, m: Bytes)
    requires Inv(e) && ch in e.senders
    ensures Inv(SendMessage(e, ch, m))
  {
    hide S.Inv;
    hide R.Inv;
    hide LedgerOk;
    var e' := SendMessage(e, ch, m);
    S.SendMessageInv(e.senders[ch], m);
    S.SendMessageLater(e.senders[ch], m);
    SendMessageTimers(e.senders[ch], m, e.time);
    OneLater(e.senders, ch, e'.senders[ch]);
    SentStays(e, e'.senders);
  }

  lemma SendMessageTimers(s: S.Sender, m: Bytes, time: nat)
    requires S.SentBefore(s, time)
    ensures S.SentBefore(S.SendMessage(s, m).0, time)
  {
  }

  lemma OneLater(senders: map<nat, S.Sender>, ch: nat, s: S.Sender)
    requires ch in senders && S.Later(senders[ch], s)
    ensures AllLater(senders, senders[ch := s])
  {
  }

  /** The ledger outlives any change of the channels that leads onwards. */
  lemma SentStays(e: Endpoint, senders: map<nat, S.Sender>)
    requires SentOk(e) && AllLater(e.senders, senders)
    ensures SentOk(e.(senders := senders))
  {
    hide AllLater;
    hide LedgerOk;
    forall q | q in e.sent
      ensures LedgerOk(senders, e.sent[q].info)
    {
      LedgerStays(e.senders, senders, e.sent[q].info);
    }
  }

  /** The entries that are still young. */
  function Surviving(sent: map<nat, PacketSent>, time: nat): map<nat, PacketSent> {
    map q | q in sent && time - sent[q].sentAt < DISCARD_AFTER :: sent[q]
  }

  /** `update`: packets that were not acked in time are given up. */
  function Tick(e: Endpoint, duration: nat): Endpoint {
    e.(time := e.time + duration, sent := Surviving(e.sent, e.time + duration))
  }

  lemma TickInv(e: Endpoint, duration: nat)
    requires Inv(e)
    ensures Inv(Tick(e, duration))
  {
    hide S.Inv;
    hide R.Inv;
    hide LedgerOk;
  }

  ghost function ReceiveMessage(e: Endpoint, ch: nat): (Endpoint, Option<(nat, Bytes)>)
    requires Inv(e) && ch in e.receivers
  {
    var (r, m) := R.ReceiveMessage(e.receivers[ch]);
    (e.(receivers := e.receivers[ch := r]), m)
  }

  lemma ReceiveMessageInv(e: Endpoint, ch: nat)
    requires Inv(e) && ch in e.receivers
    ensures Inv(ReceiveMessage(e, ch).0)
  {
    R.ReceiveMessageInv(e.receivers[ch]);
    hide R.Inv;
    hide S.Inv;
    hide LedgerOk;
  }

  // ----- Sending packets

  /** A pass over a channel changes its timers and nothing else. */
  ghost predicate TimersOnly(s: S.Sender, s': S.Sender, now: nat) {
    && s' == s.(unacked := s'.unacked)
    && S.Inv(s') && S.SentBefore(s', now)
    && s'.unacked.Keys == s.unacked.Keys
    && forall id :: id in s.unacked ==>
         && s'.unacked[id].message == s.unacked[id].message
         && (s'.unacked[id].Small? <==> s.unacked[id].Small?)
         && (s.unacked[id].Sliced? ==> s'.unacked[id].acked == s.unacked[id].acked)
  }

  /** The packet is made from what the endpoint stores. */
  ghost predicate PacketFrom(e: Endpoint, p: Packet) {
    match p
    case SmallReliable(_, ch, _) => ch in e.senders && Carries(e.senders[ch], p)
    case ReliableSlice(_, ch, _) => ch in e.senders && Carries(e.senders[ch], p)
    case Ack(_, rs) => rs == e.pendingAcks && rs != []
    case _ => true
  }

  predicate Recordable(packets: seq<Packet>) {
    forall i :: 0 <= i < |packets| && packets[i].Ack? ==> packets[i].ackRanges != [] && Normal(packets[i].ackRanges)
  }

  function Entry(packets: seq<Packet>, first: nat, q: nat, time: nat): PacketSent
    requires Recordable(packets) && first <= q < first + |packets|
  {
    PacketSent(time, InfoOf(packets[q - first]))
  }

  /** The ledger with an entry for each packet; packets are numbered from `first`. */
  function Recorded(sent: map<nat, PacketSent>, first: nat, packets: seq<Packet>, time: nat): map<nat, PacketSent>
    requires Recordable(packets)
  {
    sent + map q: nat | first <= q < first + |packets| :: Entry(packets, first, q, time)
  }

  /**
   * `get_packets_to_send`: the packets made, all of them entered in the ledger. If one cannot be
   * written the connection ends, and none is handed to the network.
   */
  ghost predicate Flush(e: Endpoint, packets: seq<Packet>, e': Endpoint) {
    && Recordable(packets)
    && e' == e.(senders := e'.senders, sequence := e.sequence + |packets|, connected := e'.connected,
                sent := Recorded(e.sent, e.sequence, packets, e.time))
    && (e'.connected ==> e.connected)
    && e'.senders.Keys == e.senders.Keys
    && (forall ch :: ch in e.senders ==> TimersOnly(e.senders[ch], e'.senders[ch], e.time))
    && (forall i :: 0 <= i < |packets| ==> packets[i].sequence == e.sequence + i && PacketFrom(e, packets[i]))
  }

  lemma TimersOnlyLater(s: S.Sender, s': S.Sender, now: nat)
    requires TimersOnly(s, s', now)
    ensures S.Later(s, s')
  {
    hide S.Inv;
    hide S.SentBefore;
  }

  lemma PacketLedgerOk(e: Endpoint, p: Packet)
    requires SendersOk(e.senders, e.time) && PacketFrom(e, p)
    requires p.Ack? ==> p.ackRanges != [] && Normal(p.ackRanges)
    ensures LedgerOk(e.senders, InfoOf(p))
  {
    if p.SmallReliable? {
      var ids := Ids(p.messages);
      forall id | id in ids
        ensures id < e.senders[p.channelId].nextId && S.MessageAckOk(e.senders[p.channelId], id)
      {
        var k :| 0 <= k < |ids| && ids[k] == id;
        assert id == p.messages[k].0;
      }
    }
  }

  lemma FlushInv(e: Endpoint, packets: seq<Packet>, e': Endpoint)
    requires Inv(e) && Flush(e, packets, e')
    ensures Inv(e')
  {
    hide S.Inv;
    hide R.Inv;
    hide LedgerOk;
    hide S.SentBefore;
    hide PacketFrom;
    hide S.Later;
    forall ch | ch in e.senders
      ensures S.Later(e.senders[ch], e'.senders[ch])
    {
      TimersOnlyLater(e.senders[ch], e'.senders[ch], e.time);
    }
    SentStays(e, e'.senders);
    hide TimersOnly;
    hide AllLater;
    forall q | q in e'.sent
      ensures q < e'.sequence && e'.sent[q].sentAt <= e.time < e'.sent[q].sentAt + DISCARD_AFTER
      ensures LedgerOk(e'.senders, e'.sent[q].info)
    {
      if e.sequence <= q < e.sequence + |packets| {
        PacketLedgerOk(e, packets[q - e.sequence]);
        LedgerStays(e.senders, e'.senders, InfoOf(packets[q - e.sequence]));
      } else {
        assert q in e.sent;
      }
    }
  }

  // ----- Receiving packets

  /** Small messages are taken in one by one, up to the first that is refused. */
  function ProcessMessages(r: R.Receiver, messages: seq<(nat, Bytes)>): (R.Receiver, Result<(), ChannelError>)
    decreases |messages|
  {
    if messages == [] then (r, Ok(()))
    else
      var (r1, res) := R.ProcessMessage(r, messages[0].1, messages[0].0);
      if res.Err? then (r1, res) else ProcessMessages(r1, messages[1..])
  }

  lemma {:induction false} ProcessMessagesInv(r: R.Receiver, messages: seq<(nat, Bytes)>)
    requires R.Inv(r)
    ensures R.Inv(ProcessMessages(r, messages).0)
    decreases |messages|
  {
    hide R.Inv;
    hide R.ProcessMessage;
    if messages != [] {
      R.ProcessMessageInv(r, messages[0].1, messages[0].0);
      ProcessMessagesInv(R.ProcessMessage(r, messages[0].1, messages[0].0).0, messages[1..]);
    }
  }

  /** What a ledger entry carried is acked. */
  ghost function Apply(e: Endpoint, info: SentInfo): (e': Endpoint)
    requires SendersOk(e.senders, e.time) && LedgerOk(e.senders, info)
    ensures e' == e.(senders := e'.senders, pendingAcks := e'.pendingAcks)
  {
    match info
    case NoInfo => e
    case AckInfo(largest) => e.(pendingAcks := Trim(e.pendingAcks, largest))
    case ReliableMessages(ch, ids) => e.(senders := e.senders[ch := S.AckMessages(e.senders[ch], ids)])
    case ReliableSliceMessage(ch, id, i) => e.(senders := e.senders[ch := S.AckSlice(e.senders[ch], id, i)])
  }

  /** An entry is struck off the ledger and what it carried is acked. */
  ghost function AckOne(e: Endpoint, q: nat): (e': Endpoint)
    requires Inv(e) && q in e.sent
    ensures e'.sent == e.sent - {q}
  {
    Apply(e.(sent := e.sent - {q}), e.sent[q].info)
  }

  lemma AckTimers(s: S.Sender, s': S.Sender, time: nat)
    requires S.SentBefore(s, time) && forall id :: id in s'.unacked ==> id in s.unacked
    requires forall id :: id in s'.unacked ==>
               || s'.unacked[id] == s.unacked[id]
               || (&& s.unacked[id].Sliced? && s'.unacked[id].Sliced?
                   && s'.unacked[id].sliceLastSent == s.unacked[id].sliceLastSent)
    ensures S.SentBefore(s', time)
  {
  }

  lemma SendersStay(e: Endpoint, ch: nat, s: S.Sender)
    requires Inv(e) && ch in e.senders
    requires S.Inv(s) && S.SentBefore(s, e.time) && S.Later(e.senders[ch], s)
    ensures Inv(e.(senders := e.senders[ch := s]))
  {
    hide S.Inv;
    hide R.Inv;
    hide LedgerOk;
    hide S.SentBefore;
    OneLater(e.senders, ch, s);
    SentStays(e, e.senders[ch := s]);
  }

  lemma StrikeInv(e: Endpoint, q: nat)
    requires Inv(e)
    ensures Inv(e.(sent := e.sent - {q}))
  {
    hide S.Inv;
    hide R.Inv;
    hide LedgerOk;
    hide S.SentBefore;
  }

  lemma AckOneInv(e: Endpoint, q: nat)
    requires Inv(e) && q in e.sent
    ensures Inv(AckOne(e, q))
  {
    hide Inv;
    hide S.Inv;
    hide S.AckMessages;
    hide S.SentBefore;
    hide Trim;
    hide Normal;
    var e1 := e.(sent := e.sent - {q});
    StrikeInv(e, q);
    InvParts(e, q);
    match e.sent[q].info
    case NoInfo =>
    case AckInfo(largest) =>
      TrimTrims(e.pendingAcks, largest);
      PendingStay(e1, Trim(e.pendingAcks, largest));
    case ReliableMessages(ch, ids) =>
      var s := S.AckMessages(e.senders[ch], ids);
      S.AckMessagesLater(e.senders[ch], ids);
      AckTimers(e.senders[ch], s, e.time);
      SendersStay(e1, ch, s);
    case ReliableSliceMessage(ch, id, i) =>
      var s := S.AckSlice(e.senders[ch], id, i);
      S.AckSliceLater(e.senders[ch], id, i);
      AckTimers(e.senders[ch], s, e.time);
      SendersStay(e1, ch, s);
  }

  lemma InvParts(e: Endpoint, q: nat)
    requires Inv(e)
    ensures Normal(e.pendingAcks) && SendersOk(e.senders, e.time)
    ensures q in e.sent ==> LedgerOk(e.senders, e.sent[q].info) && q < e.sequence
  {
  }

  lemma PendingStay(e: Endpoint, rs: seq<Range>)
    requires Inv(e) && Normal(rs)
    ensures Inv(e.(pendingAcks := rs))
  {
    hide S.Inv;
    hide R.Inv;
    hide LedgerOk;
    hide S.SentBefore;
  }

  predicate Ascending(qs: seq<nat>) {
    forall i, j :: 0 <= i < j < |qs| ==> qs[i] < qs[j]
  }

  /** The entries of the ledger that an ack list names, in order. */
  ghost predicate IsNewAcks(sent: map<nat, PacketSent>, rs: seq<Range>, qs: seq<nat>) {
    Ascending(qs) && forall q :: q in qs <==> q in sent && Has(rs, q)
  }

  ghost function AckAll(e: Endpoint, qs: seq<nat>): (e': Endpoint)
    requires Inv(e) && Ascending(qs) && forall q :: q in qs ==> q in e.sent
    ensures Inv(e')
    decreases |qs|
  {
    if qs == [] then e
    else
      AckOneInv(e, qs[0]);
      assert forall q :: q in qs[1..] ==> q in qs && q != qs[0];
      AckAll(AckOne(e, qs[0]), qs[1..])
  }

  lemma AckAllStep(e: Endpoint, qs: seq<nat>)
    requires Inv(e) && qs != [] && Ascending(qs) && forall q :: q in qs ==> q in e.sent
    ensures Ascending(qs[1..]) && Inv(AckOne(e, qs[0])) && qs[0] in e.sent
    ensures forall q :: q in qs[1..] ==> q in AckOne(e, qs[0]).sent
    ensures AckAll(e, qs) == AckAll(AckOne(e, qs[0]), qs[1..])
  {
    hide Inv;
    AckOneInv(e, qs[0]);
    assert forall q :: q in qs[1..] ==> q in qs && q != qs[0];
  }

  lemma AckAllDone(e: Endpoint)
    requires Inv(e)
    ensures Ascending([]) && AckAll(e, []) == e
  {
  }

  /** What the code takes for granted of a packet: slices are consistent, ack lists in normal form. */
  ghost predicate Sound(e: Endpoint, p: Packet) {
    match p
    case ReliableSlice(_, ch, slice) => ch in e.receivers ==> R.Consistent(e.receivers[ch], slice)
    case Ack(_, rs) => Normal(rs)
    case _ => true
  }

  /**
   * `process_packet`: `pending` is the ack list with the packet's sequence put in, `qs` the
   * ledger entries that an ack packet strikes off.
   */
  ghost predicate Process(e: Endpoint, p: Packet, pending: seq<Range>, qs: seq<nat>, e': Endpoint) {
    && Inv(e) && Sound(e, p) && Added(e.pendingAcks, p.sequence, pending)
    && var e1 := e.(pendingAcks := pending);
       match p
       case SmallReliable(_, ch, messages) =>
         if ch !in e.receivers then e' == e1.(connected := false)
         else
           var (r, res) := ProcessMessages(e.receivers[ch], messages);
           e' == e1.(receivers := e.receivers[ch := r], connected := res.Ok?)
       case ReliableSlice(_, ch, slice) =>
         if ch !in e.receivers then e' == e1.(connected := false)
         else
           var (r, res) := R.ProcessSlice(e.receivers[ch], slice);
           e' == e1.(receivers := e.receivers[ch := r], connected := res.Ok?)
       case Ack(_, rs) => IsNewAcks(e.sent, rs, qs) && Inv(e1) && e' == AckAll(e1, qs)
       case _ => e' == e1.(connected := e'.connected)
  }

  lemma ReceiversStay(e: Endpoint, ch: nat, r: R.Receiver, connected: bool)
    requires Inv(e) && ch in e.receivers && R.Inv(r)
    ensures Inv(e.(receivers := e.receivers[ch := r], connected := connected))
  {
    hide S.Inv;
    hide R.Inv;
    hide LedgerOk;
    hide S.SentBefore;
  }

  lemma StatusStays(e: Endpoint, connected: bool)
    requires Inv(e)
    ensures Inv(e.(connected := connected))
  {
    hide S.Inv;
    hide R.Inv;
    hide LedgerOk;
    hide S.SentBefore;
  }

  lemma ReceiverInv(e: Endpoint, ch: nat)
    requires Inv(e) && ch in e.receivers
    ensures R.Inv(e.receivers[ch])
  {
  }

  lemma ProcessInv(e: Endpoint, p: Packet, pending: seq<Range>, qs: seq<nat>, e': Endpoint)
    requires Process(e, p, pending, qs, e')
    ensures Inv(e')
  {
    hide Inv;
    hide R.Inv;
    hide ProcessMessages;
    hide R.ProcessSlice;
    PendingStay(e, pending);
    var e1 := e.(pendingAcks := pending);
    match p
    case SmallReliable(_, ch, messages) =>
      StatusStays(e1, false);
      if ch in e.receivers {
        ReceiverInv(e, ch);
        ProcessMessagesInv(e.receivers[ch], messages);
        ReceiversStay(e1, ch, e'.receivers[ch], e'.connected);
      }
    case ReliableSlice(_, ch, slice) =>
      StatusStays(e1, false);
      if ch in e.receivers {
        ReceiverInv(e, ch);
        R.ProcessSliceKeeps(e.receivers[ch], slice);
        ReceiversStay(e1, ch, e'.receivers[ch], e'.connected);
      }
    case Ack(_, rs) =>
    case _ => StatusStays(e1, e'.connected);
  }
}
