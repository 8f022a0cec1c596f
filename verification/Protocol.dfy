/**
 * A sender and a receiver of one reliable channel, and what every operation of either keeps
 * between them (renet2/src/channel/reliable.rs).
 */
module ChannelPairs {
  import opened Base
  import opened Sums
  import opened Slicing
  import opened SliceConstruction
  import S = ReliableSending
  import R = ReliableReceiving

  /** The sender's ids index `log`, the messages it accepted, and it stores what it accepted. */
  ghost predicate Stores(s: S.Sender, log: seq<Bytes>) {
    s.nextId == |log| && forall id :: id in s.unacked ==> id < |log| && s.unacked[id].message == log[id]
  }

  /**
   * No message is lost: one that is no longer stored has been taken in by the receiver, and so
   * has every slice that is flagged as acked.
   */
  ghost predicate Safe(s: S.Sender, r: R.Receiver) {
    && (forall id :: 0 <= id < s.nextId && id !in s.unacked ==> R.Got(r, id))
    && (forall id, i :: Flagged(s, id, i) ==> R.GotSlice(r, id, i))
  }

  predicate Flagged(s: S.Sender, id: nat, i: nat) {
    id in s.unacked && s.unacked[id].Sliced? && i < |s.unacked[id].acked| && s.unacked[id].acked[i]
  }

  lemma SafeGrows(s: S.Sender, r: R.Receiver, r': R.Receiver)
    requires Safe(s, r) && R.Grows(r, r')
    ensures Safe(s, r')
  {
  }

  lemma SafeSend(s: S.Sender, m: Bytes, r: R.Receiver)
    requires Safe(s, r)
    ensures Safe(S.SendMessage(s, m).0, r)
  {
  }

  lemma SafeAckMessages(s: S.Sender, ids: seq<nat>, r: R.Receiver)
    requires S.Inv(s) && (forall id :: id in ids ==> S.MessageAckOk(s, id)) && Safe(s, r)
    requires forall id :: id in ids ==> R.Got(r, id)
    ensures Safe(S.AckMessages(s, ids), r)
  {
    hide S.Inv;
  }

  /** An open constructor always misses a slice, so a message whose slices are all in is itself in. */
  lemma AllSlicesGot(r: R.Receiver, log: seq<Bytes>, id: nat)
    requires R.Mirrors(r, log) && id < |log|
    requires forall i :: 0 <= i < NumSlices(|log[id]|) ==> R.GotSlice(r, id, i)
    requires |log[id]| > 0
    ensures R.Got(r, id)
  {
    if id in r.slices {
      var a := r.slices[id];
      assert PartOf(a, log[id]);
      CountFull(a.received);
      var missing :| 0 <= missing < |a.received| && !a.received[missing];
      assert R.GotSlice(r, id, missing);
    } else {
      assert R.GotSlice(r, id, 0);
    }
  }

  lemma LastAckGot(s: S.Sender, id: nat, i: nat, r: R.Receiver, log: seq<Bytes>)
    requires S.Inv(s) && id in s.unacked && S.SliceAckOk(s, id, i) && Stores(s, log) && Safe(s, r)
    requires R.Mirrors(r, log) && R.GotSlice(r, id, i)
    requires forall j :: 0 <= j < |s.unacked[id].acked| && j != i ==> s.unacked[id].acked[j]
    ensures R.Got(r, id)
  {
    hide R.Mirrors;
    hide R.Got;
    hide Count;
    assert S.WellKept(s.unacked[id]);
    forall j | 0 <= j < NumSlices(|log[id]|)
      ensures R.GotSlice(r, id, j)
    {
      assert j != i ==> Flagged(s, id, j);
    }
    AllSlicesGot(r, log, id);
  }

  lemma SafeAckSlice(s: S.Sender, id: nat, i: nat, r: R.Receiver, log: seq<Bytes>)
    requires S.Inv(s) && S.SliceAckOk(s, id, i) && Stores(s, log) && Safe(s, r)
    requires R.Mirrors(r, log) && R.GotSlice(r, id, i)
    ensures Safe(S.AckSlice(s, id, i), r)
  {
    hide S.Inv;
    hide S.AckSlice;
    hide R.Mirrors;
    hide R.Got;
    hide R.GotSlice;
    S.AckSliceEffect(s, id, i);
    var s' := S.AckSlice(s, id, i);
    if id in s.unacked && id !in s'.unacked {
      LastAckGot(s, id, i, r, log);
    }
    forall k, j | Flagged(s', k, j)
      ensures R.GotSlice(r, k, j)
    {
      assert (k == id && j == i) || Flagged(s, k, j);
    }
  }
}

/**
 * The reliable channels of two endpoints, each with its history, and what every action of either
 * keeps between them. Nothing is taken for granted of packets of unreliable channels.
 */
module ReliableLinks {
  import opened Base
  import opened Slicing
  import opened AckRanges
  import opened SendPasses
  import opened ChannelPairs
  import opened Endpoints
  import C = SliceConstruction
  import S = ReliableSending
  import R = ReliableReceiving

  /**
   * An endpoint with its history: per channel the messages accepted for sending and those handed
   * to the application, every packet handed to the network, and the packets processed.
   */
  datatype Peer = Peer(
    e: Endpoint,
    log: map<nat, seq<Bytes>>,
    out: map<nat, Packet>,
    processed: set<nat>,
    delivered: map<nat, seq<(nat, Bytes)>>)

  datatype Action =
    | Send(ch: nat, m: Bytes)
    | Receive(ch: nat)
    | Update(duration: nat)
    | Transmit(packets: seq<Packet>)
    | Deliver(q: nat, pending: seq<Range>, acks: seq<nat>)
    | Disconnect

  /** What `x` becomes when it takes the action; `y` is the other end. */
  ghost predicate Act(x: Peer, y: Peer, a: Action, x': Peer) {
    match a
    case Send(ch, m) => Sends(x, ch, m, x')
    case Receive(ch) => Receives(x, ch, x')
    case Update(duration) => x' == x.(e := Tick(x.e, duration))
    case Transmit(packets) => Transmits(x, packets, x')
    case Deliver(q, pending, acks) => Delivers(x, y, q, pending, acks, x')
    case Disconnect => x' == x.(e := x.e.(connected := false))
  }

  ghost predicate Sends(x: Peer, ch: nat, m: Bytes, x': Peer) {
    && x.e.connected && ch in x.e.senders && ch in x.log
    && x' == x.(e := SendMessage(x.e, ch, m),
                log := if S.SendMessage(x.e.senders[ch], m).1.Ok? then x.log[ch := x.log[ch] + [m]] else x.log)
  }

  ghost predicate Receives(x: Peer, ch: nat, x': Peer) {
    && x.e.connected && ch in x.e.receivers && ch in x.delivered && Endpoints.Inv(x.e)
    && var (e', res) := ReceiveMessage(x.e, ch);
       x' == x.(e := e', delivered := x.delivered[ch := x.delivered[ch] + if res.Some? then [res.value] else []])
  }

  ghost predicate Transmits(x: Peer, packets: seq<Packet>, x': Peer) {
    && x.e.connected && Flush(x.e, packets, x'.e)
    && x' == x.(e := x'.e, out := if x'.e.connected then Handed(x.out, x.e.sequence, packets) else x.out)
  }

  ghost predicate Delivers(x: Peer, y: Peer, q: nat, pending: seq<Range>, acks: seq<nat>, x': Peer) {
    && x.e.connected && q in y.out && Process(x.e, y.out[q], pending, acks, x'.e)
    && x' == x.(e := x'.e, processed := if x'.e.connected then x.processed + {q} else x.processed)
  }

  function Handed(out: map<nat, Packet>, first: nat, packets: seq<Packet>): map<nat, Packet> {
    out + map q: nat | first <= q < first + |packets| :: At(packets, first, q)
  }

  function At(packets: seq<Packet>, first: nat, q: nat): Packet
    requires first <= q < first + |packets|
  {
    packets[q - first]
  }

  ghost predicate Fresh(x: Peer) {
    && New(x.e)
    && x.log == (map ch | ch in x.e.senders :: [])
    && x.delivered == (map ch | ch in x.e.receivers :: [])
    && x.out == map[] && x.processed == {}
  }

  // ----- The invariant

  /** A packet carries messages its sender accepted, and acks packets its sender processed. */
  ghost predicate Honest(log: map<nat, seq<Bytes>>, processed: set<nat>, p: Packet) {
    match p
    case SmallReliable(_, ch, messages) => ch in log && HonestMessages(log[ch], messages)
    case ReliableSlice(_, ch, slice) => ch in log && HonestSlice(log[ch], slice)
    case Ack(_, rs) => rs != [] && Normal(rs) && forall q :: Has(rs, q) ==> q in processed
    case _ => true
  }

  ghost predicate HonestMessages(log: seq<Bytes>, messages: seq<(nat, Bytes)>) {
    forall k :: 0 <= k < |messages| ==>
      messages[k].0 < |log| && messages[k].1 == log[messages[k].0] && |messages[k].1| <= SLICE_SIZE
  }

  ghost predicate HonestSlice(log: seq<Bytes>, slice: Slice) {
    && slice.messageId < |log| && |log[slice.messageId]| > SLICE_SIZE
    && slice.sliceIndex < NumSlices(|log[slice.messageId]|)
    && slice == SliceOf(log[slice.messageId], slice.messageId, slice.sliceIndex)
  }

  /** The receiver has taken in all that the packet carries. */
  ghost predicate TakenIn(receivers: map<nat, R.Receiver>, p: Packet) {
    match p
    case SmallReliable(_, ch, messages) =>
      ch in receivers && forall k :: 0 <= k < |messages| ==> R.Got(receivers[ch], messages[k].0)
    case ReliableSlice(_, ch, slice) =>
      ch in receivers && R.GotSlice(receivers[ch], slice.messageId, slice.sliceIndex)
    case _ => true
  }

  /** What holds of each end with its own history. */
  ghost predicate Side(x: Peer) {
    && Endpoints.Inv(x.e)
    && x.log.Keys == x.e.senders.Keys && x.delivered.Keys == x.e.receivers.Keys
    && (forall ch :: ch in x.e.senders ==> Stores(x.e.senders[ch], x.log[ch]))
    && (forall ch :: ch in x.e.receivers ==> R.Exact(x.e.receivers[ch], x.delivered[ch]))
    && (x.e.connected ==> forall q :: Has(x.e.pendingAcks, q) ==> q in x.processed)
  }

  ghost predicate Network(x: Peer) {
    && (forall q :: q in x.out ==>
          q < x.e.sequence && x.out[q].sequence == q && Honest(x.log, x.processed, x.out[q]))
    && (x.e.connected ==> forall q :: q in x.e.sent ==> q in x.out && x.e.sent[q].info == InfoOf(x.out[q]))
  }

  /** What holds between a sending end and the receiving one. */
  ghost predicate Link(x: Peer, y: Peer) {
    && x.e.senders.Keys == y.e.receivers.Keys
    && (forall q :: q in y.processed ==> q in x.out && TakenIn(y.e.receivers, x.out[q]))
    && (forall ch :: ch in x.e.senders && ch in x.log && ch in y.delivered ==>
          && R.Mirrors(y.e.receivers[ch], x.log[ch])
          && Safe(x.e.senders[ch], y.e.receivers[ch])
          && Faithful(y.delivered[ch], x.log[ch]))
  }

  /** Each message handed over is the one that was sent under its id, byte for byte. */
  ghost predicate Faithful(delivered: seq<(nat, Bytes)>, log: seq<Bytes>) {
    forall k :: 0 <= k < |delivered| ==> delivered[k].0 < |log| && delivered[k].1 == log[delivered[k].0]
  }

  ghost predicate Joined(x: Peer, y: Peer) {
    Side(x) && Side(y) && Network(x) && Network(y) && Link(x, y) && Link(y, x)
  }

  // ----- Every action keeps the invariant

  ghost predicate LogGrows(log: map<nat, seq<Bytes>>, log': map<nat, seq<Bytes>>) {
    log.Keys == log'.Keys && forall ch :: ch in log ==> log[ch] <= log'[ch]
  }

  lemma HonestStays(log: map<nat, seq<Bytes>>, log': map<nat, seq<Bytes>>, processed: set<nat>, processed': set<nat>,
                    p: Packet)
    requires Honest(log, processed, p) && LogGrows(log, log') && processed <= processed'
    ensures Honest(log', processed', p)
  {
    hide Normal;
    hide Has;
  }

  lemma NetworkStays(x: Peer, x': Peer)
    requires Network(x) && x'.out == x.out && LogGrows(x.log, x'.log) && x.processed <= x'.processed
    requires x.e.sequence <= x'.e.sequence
    requires x'.e.connected ==> x.e.connected
    requires forall q :: q in x'.e.sent ==> q in x.e.sent && x'.e.sent[q] == x.e.sent[q]
    ensures Network(x')
  {
    hide Honest;
    forall q | q in x.out
      ensures Honest(x'.log, x'.processed, x.out[q])
    {
      HonestStays(x.log, x'.log, x.processed, x'.processed, x.out[q]);
    }
  }

  lemma MirrorsStays(r: R.Receiver, log: seq<Bytes>, m: Bytes)
    requires R.Mirrors(r, log)
    ensures R.Mirrors(r, log + [m])
  {
  }

  /** What is sent from `y` to `x` rests on what `x` has received. */
  lemma LinkTo(y: Peer, x: Peer, x': Peer)
    requires Link(y, x)
    requires x'.e.receivers == x.e.receivers && x'.processed == x.processed && x'.delivered == x.delivered
    ensures Link(y, x')
  {
    hide R.Mirrors;
    hide Safe;
    hide TakenIn;
    hide Faithful;
  }

  /** What is sent from `x` to `y` rests on what `x` stores and has sent. */
  lemma LinkFrom(x: Peer, x': Peer, y: Peer)
    requires Link(x, y)
    requires x'.e.senders == x.e.senders && x'.log == x.log && x'.out == x.out
    ensures Link(x', y)
  {
    hide R.Mirrors;
    hide Safe;
    hide TakenIn;
    hide Faithful;
  }

  lemma StoresSend(s: S.Sender, log: seq<Bytes>, m: Bytes)
    requires Stores(s, log)
    ensures Stores(S.SendMessage(s, m).0, if S.SendMessage(s, m).1.Ok? then log + [m] else log)
  {
  }

  lemma SendKeepsSide(x: Peer, ch: nat, m: Bytes, x': Peer)
    requires Side(x) && Sends(x, ch, m, x')
    ensures Side(x')
  {
    hide Endpoints.Inv;
    hide R.Exact;
    hide Stores;
    hide S.SendMessage;
    hide Has;
    SendMessageInv(x.e, ch, m);
    StoresSend(x.e.senders[ch], x.log[ch], m);
  }

  lemma FaithfulStays(delivered: seq<(nat, Bytes)>, log: seq<Bytes>, log': seq<Bytes>)
    requires Faithful(delivered, log) && log <= log'
    ensures Faithful(delivered, log')
  {
  }

  lemma SendKeepsLink(x: Peer, ch: nat, m: Bytes, y: Peer, x': Peer)
    requires Link(x, y) && Sends(x, ch, m, x')
    ensures Link(x', y)
  {
    hide R.Mirrors;
    hide Safe;
    hide TakenIn;
    hide Faithful;
    if ch in y.delivered {
      SafeSend(x.e.senders[ch], m, y.e.receivers[ch]);
      MirrorsStays(y.e.receivers[ch], x.log[ch], m);
      FaithfulStays(y.delivered[ch], x.log[ch], x.log[ch] + [m]);
    }
    hide S.SendMessage;
  }

  lemma SendKeeps(x: Peer, y: Peer, ch: nat, m: Bytes, x': Peer)
    requires Joined(x, y) && Sends(x, ch, m, x')
    ensures Joined(x', y)
  {
    hide Side;
    hide Network;
    hide Link;
    hide S.SendMessage;
    SendKeepsSide(x, ch, m, x');
    SendKeepsLink(x, ch, m, y, x');
    NetworkStays(x, x');
    LinkTo(y, x, x');
  }

  lemma ReceiveKeepsSide(x: Peer, ch: nat, x': Peer)
    requires Side(x) && Receives(x, ch, x')
    ensures Side(x')
  {
    hide Endpoints.Inv;
    hide R.Exact;
    hide R.Inv;
    hide Stores;
    hide Has;
    hide R.ReceiveMessage;
    ReceiveMessageInv(x.e, ch);
    ReceiverInv(x.e, ch);
    R.ReceiveMessageExact(x.e.receivers[ch], x.delivered[ch]);
  }

  /** A receiver that grows keeps everything it has taken in. */
  lemma TakenInStays(receivers: map<nat, R.Receiver>, ch: nat, r: R.Receiver, p: Packet)
    requires TakenIn(receivers, p) && ch in receivers && R.Grows(receivers[ch], r)
    ensures TakenIn(receivers[ch := r], p)
  {
  }

  /** One receiver of `x` grows, and still holds only what `y` sent. */
  lemma LinkGrows(y: Peer, x: Peer, x': Peer, ch: nat)
    requires Link(y, x) && ch in x.e.receivers && ch in x'.e.receivers
    requires x'.e.receivers == x.e.receivers[ch := x'.e.receivers[ch]]
    requires x'.processed == x.processed && x'.delivered == x.delivered
    requires R.Grows(x.e.receivers[ch], x'.e.receivers[ch])
    requires ch in y.log ==> R.Mirrors(x'.e.receivers[ch], y.log[ch])
    ensures Link(y, x')
  {
    hide R.Mirrors;
    hide R.Grows;
    hide Safe;
    hide TakenIn;
    hide Faithful;
    forall q | q in x.processed
      ensures TakenIn(x'.e.receivers, y.out[q])
    {
      TakenInStays(x.e.receivers, ch, x'.e.receivers[ch], y.out[q]);
    }
    SafeGrowsIn(y.e.senders, x.e.receivers, x'.e.receivers, ch);
  }

  lemma SafeGrowsIn(senders: map<nat, S.Sender>, receivers: map<nat, R.Receiver>, receivers': map<nat, R.Receiver>,
                    ch: nat)
    requires ch in receivers && ch in receivers' && R.Grows(receivers[ch], receivers'[ch])
    ensures ch in senders && Safe(senders[ch], receivers[ch]) ==> Safe(senders[ch], receivers'[ch])
  {
    if ch in senders && Safe(senders[ch], receivers[ch]) {
      SafeGrows(senders[ch], receivers[ch], receivers'[ch]);
    }
  }

  lemma ReceiveGrows(r: R.Receiver)
    requires R.Inv(r)
    ensures R.Grows(r, R.ReceiveMessage(r).0)
  {
    R.ReceiveMessageGot(r);
    hide R.Inv;
    hide R.ReceiveMessage;
  }

  lemma FaithfulSnoc(delivered: seq<(nat, Bytes)>, log: seq<Bytes>, d: (nat, Bytes))
    requires Faithful(delivered, log) && d.0 < |log| && d.1 == log[d.0]
    ensures Faithful(delivered + [d], log)
  {
  }

  lemma DeliveredStays(y: Peer, x: Peer, x': Peer, ch: nat)
    requires Link(y, x) && ch in x.delivered && ch in x'.delivered
    requires x' == x.(delivered := x.delivered[ch := x'.delivered[ch]])
    requires (ch in y.log ==> Faithful(x'.delivered[ch], y.log[ch]))
    ensures Link(y, x')
  {
    hide R.Mirrors;
    hide Safe;
    hide TakenIn;
    hide Faithful;
  }

  lemma ReceiveKeepsLink(y: Peer, x: Peer, ch: nat, x': Peer)
    requires Link(y, x) && Side(y) && Receives(x, ch, x')
    ensures Link(y, x')
  {
    hide R.ReceiveMessage;
    hide R.Mirrors;
    hide R.Inv;
    hide R.Grows;
    hide Safe;
    hide TakenIn;
    hide Faithful;
    hide Endpoints.Inv;
    ReceiverInv(x.e, ch);
    var r := x.e.receivers[ch];
    assert ch in y.log;
    ReceiveGrows(r);
    R.ReceiveMessageMirrors(r, y.log[ch]);
    var res := R.ReceiveMessage(r).1;
    var mid := x.(e := x'.e);
    LinkGrows(y, x, mid, ch);
    if res.Some? {
      FaithfulSnoc(x.delivered[ch], y.log[ch], res.value);
    } else {
      assert x.delivered[ch] + [] == x.delivered[ch];
    }
    DeliveredStays(y, mid, x', ch);
  }

  lemma ReceiveKeeps(x: Peer, y: Peer, ch: nat, x': Peer)
    requires Joined(x, y) && Receives(x, ch, x')
    ensures Joined(x', y)
  {
    hide Side;
    hide Network;
    hide Link;
    hide R.ReceiveMessage;
    hide Endpoints.Inv;
    ReceiveKeepsSide(x, ch, x');
    ReceiveKeepsLink(y, x, ch, x');
    NetworkStays(x, x');
    LinkFrom(x, x', y);
  }

  lemma JoinedInv(x: Peer, y: Peer)
    requires Joined(x, y)
    ensures Endpoints.Inv(x.e)
  {
  }

  lemma SideStays(x: Peer, x': Peer)
    requires Side(x) && Endpoints.Inv(x'.e)
    requires x' == x.(e := x'.e.(senders := x.e.senders, receivers := x.e.receivers, pendingAcks := x.e.pendingAcks))
    requires x'.e.connected ==> x.e.connected
    ensures Side(x')
  {
    hide Endpoints.Inv;
    hide Stores;
    hide R.Exact;
    hide Has;
  }

  lemma UpdateKeeps(x: Peer, y: Peer, duration: nat, x': Peer)
    requires Joined(x, y) && x' == x.(e := Tick(x.e, duration))
    ensures Joined(x', y)
  {
    hide Side;
    hide Network;
    hide Link;
    hide Endpoints.Inv;
    JoinedInv(x, y);
    TickInv(x.e, duration);
    SideStays(x, x');
    NetworkStays(x, x');
    LinkFrom(x, x', y);
    LinkTo(y, x, x');
  }

  lemma DisconnectKeeps(x: Peer, y: Peer, x': Peer)
    requires Joined(x, y) && x' == x.(e := x.e.(connected := false))
    ensures Joined(x', y)
  {
    hide Side;
    hide Network;
    hide Link;
    hide Endpoints.Inv;
    JoinedInv(x, y);
    StatusStays(x.e, false);
    SideStays(x, x');
    NetworkStays(x, x');
    LinkFrom(x, x', y);
    LinkTo(y, x, x');
  }

  // ----- Transmitting

  lemma TimersOnlyStores(s: S.Sender, s': S.Sender, log: seq<Bytes>, now: nat)
    requires Stores(s, log) && TimersOnly(s, s', now)
    ensures Stores(s', log)
  {
    hide S.Inv;
    hide S.SentBefore;
  }

  lemma TimersOnlySafe(s: S.Sender, s': S.Sender, r: R.Receiver, now: nat)
    requires Safe(s, r) && TimersOnly(s, s', now)
    ensures Safe(s', r)
  {
    hide S.Inv;
    hide S.SentBefore;
    hide R.Got;
    hide R.GotSlice;
    forall id, i | Flagged(s', id, i)
      ensures R.GotSlice(r, id, i)
    {
      assert Flagged(s, id, i);
    }
  }

  lemma TransmitKeepsSide(x: Peer, packets: seq<Packet>, x': Peer)
    requires Side(x) && Transmits(x, packets, x')
    ensures Side(x')
  {
    hide Endpoints.Inv;
    hide R.Exact;
    hide Stores;
    hide Has;
    hide TimersOnly;
    hide Recorded;
    FlushInv(x.e, packets, x'.e);
    forall ch | ch in x.e.senders
      ensures Stores(x'.e.senders[ch], x.log[ch])
    {
      TimersOnlyStores(x.e.senders[ch], x'.e.senders[ch], x.log[ch], x.e.time);
    }
  }

  lemma CarriedHonest(s: S.Sender, log: seq<Bytes>, p: Packet)
    requires S.Inv(s) && Stores(s, log) && Carries(s, p)
    ensures p.SmallReliable? ==> HonestMessages(log, p.messages)
    ensures p.ReliableSlice? ==> HonestSlice(log, p.slice)
  {
  }

  lemma PacketHonest(x: Peer, p: Packet)
    requires Side(x) && x.e.connected && PacketFrom(x.e, p)
    ensures Honest(x.log, x.processed, p)
  {
    hide R.Exact;
    hide HonestMessages;
    hide HonestSlice;
    hide Has;
    hide Carries;
    hide S.Inv;
    hide R.Inv;
    hide Stores;
    hide Normal;
    match p
    case SmallReliable(_, ch, _) => CarriedHonest(x.e.senders[ch], x.log[ch], p);
    case ReliableSlice(_, ch, _) => CarriedHonest(x.e.senders[ch], x.log[ch], p);
    case _ =>
  }

  /** Every packet handed over matches its entry in the ledger. */
  lemma TransmitKeepsLedger(x: Peer, packets: seq<Packet>, x': Peer)
    requires Network(x) && Transmits(x, packets, x') && x'.e.connected
    ensures forall q :: q in x'.out && x'.out[q].Ack? ==> x'.out[q].ackRanges != [] && Normal(x'.out[q].ackRanges)
    ensures forall q :: q in x'.e.sent ==> q in x'.out && x'.e.sent[q].info == InfoOf(x'.out[q])
  {
    hide Has;
    hide HonestMessages;
    hide HonestSlice;
    hide TimersOnly;
    hide PacketFrom;
  }

  lemma TransmitKeepsHonest(x: Peer, packets: seq<Packet>, x': Peer, q: nat)
    requires Side(x) && Network(x) && Transmits(x, packets, x') && q in x'.out
    ensures q < x'.e.sequence && x'.out[q].sequence == q && Honest(x'.log, x'.processed, x'.out[q])
  {
    hide Side;
    hide Honest;
    hide TimersOnly;
    hide PacketFrom;
    hide Recorded;
    if x'.e.connected && x.e.sequence <= q < x.e.sequence + |packets| {
      PacketHonest(x, packets[q - x.e.sequence]);
    } else {
      assert q in x.out;
    }
  }

  lemma TransmitKeepsNetwork(x: Peer, packets: seq<Packet>, x': Peer)
    requires Side(x) && Network(x) && Transmits(x, packets, x')
    ensures Network(x')
  {
    hide Side;
    hide Honest;
    hide Flush;
    forall q | q in x'.out
      ensures q < x'.e.sequence && x'.out[q].sequence == q && Honest(x'.log, x'.processed, x'.out[q])
    {
      TransmitKeepsHonest(x, packets, x', q);
    }
    if x'.e.connected {
      TransmitKeepsLedger(x, packets, x');
    }
  }

  lemma TransmitKeepsLink(x: Peer, packets: seq<Packet>, y: Peer, x': Peer)
    requires Link(x, y) && Network(x) && Transmits(x, packets, x')
    ensures Link(x', y)
  {
    hide R.Mirrors;
    hide Safe;
    hide TakenIn;
    hide Faithful;
    hide Honest;
    hide TimersOnly;
    hide PacketFrom;
    forall ch | ch in x.e.senders && ch in x.log && ch in y.delivered
      ensures Safe(x'.e.senders[ch], y.e.receivers[ch])
    {
      TimersOnlySafe(x.e.senders[ch], x'.e.senders[ch], y.e.receivers[ch], x.e.time);
    }
  }

  lemma TransmitKeeps(x: Peer, y: Peer, packets: seq<Packet>, x': Peer)
    requires Joined(x, y) && Transmits(x, packets, x')
    ensures Joined(x', y)
  {
    hide Side;
    hide Network;
    hide Link;
    TransmitKeepsSide(x, packets, x');
    TransmitKeepsNetwork(x, packets, x');
    TransmitKeepsLink(x, packets, y, x');
    LinkTo(y, x, x');
  }

  // ----- Delivery of a packet

  /** What a receiver keeps while it takes in an honest packet. */
  ghost predicate Advances(r: R.Receiver, r': R.Receiver, log: seq<Bytes>, delivered: seq<(nat, Bytes)>) {
    R.Inv(r') && R.Grows(r, r') && R.Mirrors(r', log) && R.Exact(r', delivered)
  }

  lemma MessageHonest(r: R.Receiver, log: seq<Bytes>, id: nat, delivered: seq<(nat, Bytes)>)
    requires R.Inv(r) && R.Mirrors(r, log) && R.Exact(r, delivered) && id < |log| && |log[id]| <= SLICE_SIZE
    ensures var (r', res) := R.ProcessMessage(r, log[id], id);
            Advances(r, r', log, delivered) && (res.Ok? ==> R.Got(r', id))
  {
    hide R.Inv;
    hide R.Exact;
    hide R.Got;
    hide R.GotSlice;
    hide R.ProcessMessage;
    R.ProcessMessageInv(r, log[id], id);
    R.ProcessMessageGrows(r, log[id], id);
    R.ProcessMessageMirrors(r, log, id);
    R.ProcessMessageExact(r, log[id], id, delivered);
  }

  lemma AdvancesOn(r: R.Receiver, r1: R.Receiver, r2: R.Receiver, log: seq<Bytes>, delivered: seq<(nat, Bytes)>)
    requires Advances(r, r1, log, delivered) && Advances(r1, r2, log, delivered)
    ensures Advances(r, r2, log, delivered)
  {
    hide R.Inv;
    hide R.Exact;
    hide R.Got;
    hide R.GotSlice;
    hide R.Mirrors;
  }

  /** Small messages of an honest peer: each is taken in, unless memory runs out. */
  lemma {:induction false} MessagesHonest(r: R.Receiver, messages: seq<(nat, Bytes)>, log: seq<Bytes>,
                                          delivered: seq<(nat, Bytes)>)
    requires R.Inv(r) && R.Mirrors(r, log) && R.Exact(r, delivered) && HonestMessages(log, messages)
    ensures var (r', res) := ProcessMessages(r, messages);
            && Advances(r, r', log, delivered)
            && (res.Ok? ==> forall k :: 0 <= k < |messages| ==> R.Got(r', messages[k].0))
    decreases |messages|
  {
    hide R.Inv;
    hide R.Exact;
    hide R.Got;
    hide R.GotSlice;
    hide R.Mirrors;
    hide R.ProcessMessage;
    if messages != [] {
      var (id, m) := messages[0];
      MessageHonest(r, log, id, delivered);
      var (r1, res) := R.ProcessMessage(r, m, id);
      if res.Ok? {
        MessagesHonest(r1, messages[1..], log, delivered);
        AdvancesOn(r, r1, ProcessMessages(r1, messages[1..]).0, log, delivered);
        assert forall k :: 0 < k < |messages| ==> messages[k] == messages[1..][k - 1];
      }
    }
  }

  lemma SliceHonest(r: R.Receiver, slice: Slice, log: seq<Bytes>, delivered: seq<(nat, Bytes)>)
    requires R.Inv(r) && R.Mirrors(r, log) && R.Exact(r, delivered) && HonestSlice(log, slice)
    ensures R.Consistent(r, slice)
    ensures var (r', res) := R.ProcessSlice(r, slice);
            Advances(r, r', log, delivered) && (res.Ok? ==> R.GotSlice(r', slice.messageId, slice.sliceIndex))
  {
    hide R.Inv;
    hide R.Exact;
    hide R.Mirrors;
    hide R.ProcessSlice;
    R.ProcessSliceMirrors(r, log, slice.messageId, slice.sliceIndex);
    R.ProcessSliceKeeps(r, slice);
    R.ProcessSliceExact(r, slice, delivered);
  }

  /** The peer's bookkeeping after a packet with sequence `q`. */
  ghost predicate Noted(x: Peer, q: nat, pending: seq<Range>, x': Peer) {
    && x.e.connected && Added(x.e.pendingAcks, q, pending)
    && x' == x.(e := x'.e, processed := if x'.e.connected then x.processed + {q} else x.processed)
  }

  lemma AddedIsProcessed(x: Peer, q: nat, pending: seq<Range>)
    requires Side(x) && x.e.connected && Added(x.e.pendingAcks, q, pending)
    ensures forall k :: Has(pending, k) ==> k in x.processed + {q}
  {
    hide Has;
    hide Endpoints.Inv;
    hide R.Exact;
    hide Stores;
  }

  lemma NotedKeepsSide(x: Peer, q: nat, pending: seq<Range>, x': Peer)
    requires Side(x) && Noted(x, q, pending, x') && Endpoints.Inv(x'.e)
    requires x'.e.senders.Keys == x.e.senders.Keys && x'.e.receivers.Keys == x.e.receivers.Keys
    requires forall ch :: ch in x.e.senders ==> Stores(x'.e.senders[ch], x.log[ch])
    requires forall ch :: ch in x.e.receivers ==> R.Exact(x'.e.receivers[ch], x.delivered[ch])
    requires forall k :: Has(x'.e.pendingAcks, k) ==> Has(pending, k)
    ensures Side(x')
  {
    hide Has;
    hide Endpoints.Inv;
    hide R.Exact;
    hide Stores;
    AddedIsProcessed(x, q, pending);
  }

  lemma ProcessedMore(y: Peer, x: Peer, x': Peer, q: nat)
    requires Link(y, x) && x' == x.(processed := x.processed + {q})
    requires q in y.out && TakenIn(x.e.receivers, y.out[q])
    ensures Link(y, x')
  {
    hide R.Mirrors;
    hide Safe;
    hide TakenIn;
    hide Faithful;
  }

  /** A packet of messages from an honest peer. */
  lemma DataKeeps(x: Peer, y: Peer, q: nat, pending: seq<Range>, ch: nat, x': Peer)
    requires Joined(x, y) && Noted(x, q, pending, x') && Endpoints.Inv(x'.e)
    requires q in y.out && ch in x.e.receivers && ch in x'.e.receivers && ch in x.delivered && ch in y.log
    requires x'.e ==
               x.e.(pendingAcks := pending, receivers := x.e.receivers[ch := x'.e.receivers[ch]],
                    connected := x'.e.connected)
    requires Advances(x.e.receivers[ch], x'.e.receivers[ch], y.log[ch], x.delivered[ch])
    requires x'.e.connected ==> TakenIn(x'.e.receivers, y.out[q])
    ensures Joined(x', y)
  {
    hide Link;
    hide Network;
    hide Endpoints.Inv;
    hide R.Inv;
    hide R.Grows;
    hide R.Mirrors;
    hide R.Exact;
    hide Stores;
    hide TakenIn;
    hide Has;
    hide Added;
    NotedKeepsSide(x, q, pending, x');
    NetworkStays(x, x');
    LinkFrom(x, x', y);
    var mid := x'.(processed := x.processed);
    LinkGrows(y, x, mid, ch);
    if x'.e.connected {
      ProcessedMore(y, mid, x', q);
    } else {
      LinkTo(y, mid, x');
    }
  }

  /** A packet that leaves the reliable channels alone. */
  lemma OtherKeeps(x: Peer, y: Peer, q: nat, pending: seq<Range>, x': Peer)
    requires Joined(x, y) && Noted(x, q, pending, x') && Endpoints.Inv(x'.e) && q in y.out
    requires x'.e == x.e.(pendingAcks := pending, connected := x'.e.connected)
    requires x'.e.connected ==> TakenIn(x.e.receivers, y.out[q])
    ensures Joined(x', y)
  {
    hide Link;
    hide Network;
    hide Endpoints.Inv;
    hide R.Exact;
    hide Stores;
    hide TakenIn;
    hide Has;
    hide Added;
    NotedKeepsSide(x, q, pending, x');
    NetworkStays(x, x');
    LinkFrom(x, x', y);
    var mid := x'.(processed := x.processed);
    LinkTo(y, x, mid);
    if x'.e.connected {
      ProcessedMore(y, mid, x', q);
    } else {
      LinkTo(y, mid, x');
    }
  }

  // ----- Delivery of an ack

  /** The other end has taken in what the ledger entry stands for. */
  ghost predicate InfoTaken(receivers: map<nat, R.Receiver>, info: SentInfo) {
    match info
    case ReliableMessages(ch, ids) => ch in receivers && forall id :: id in ids ==> R.Got(receivers[ch], id)
    case ReliableSliceMessage(ch, id, i) => ch in receivers && R.GotSlice(receivers[ch], id, i)
    case _ => true
  }

  lemma TakenInInfo(receivers: map<nat, R.Receiver>, p: Packet)
    requires TakenIn(receivers, p) && (p.Ack? ==> p.ackRanges != [] && 0 < p.ackRanges[|p.ackRanges| - 1].end)
    ensures InfoTaken(receivers, InfoOf(p))
  {
    hide R.Got;
    if p.SmallReliable? {
      var ids := Ids(p.messages);
      forall id | id in ids
        ensures R.Got(receivers[p.channelId], id)
      {
        var k :| 0 <= k < |ids| && ids[k] == id;
        assert id == p.messages[k].0;
      }
    }
  }

  /** Channel by channel, the sending end stores what it accepted and nothing is lost. */
  ghost predicate AllSafe(senders: map<nat, S.Sender>, log: map<nat, seq<Bytes>>, receivers: map<nat, R.Receiver>) {
    && senders.Keys == log.Keys == receivers.Keys
    && forall ch :: ch in senders ==>
         Stores(senders[ch], log[ch]) && Safe(senders[ch], receivers[ch]) && R.Mirrors(receivers[ch], log[ch])
  }

  lemma StoresAckSlice(s: S.Sender, id: nat, i: nat, log: seq<Bytes>)
    requires S.Inv(s) && S.SliceAckOk(s, id, i) && Stores(s, log)
    ensures Stores(S.AckSlice(s, id, i), log)
  {
    hide S.Inv;
    S.AckSliceLater(s, id, i);
    S.AckSliceEffect(s, id, i);
    hide S.AckSlice;
  }

  lemma AckOneSafe(e: Endpoint, q: nat, log: map<nat, seq<Bytes>>, receivers: map<nat, R.Receiver>)
    requires Endpoints.Inv(e) && q in e.sent
    requires AllSafe(e.senders, log, receivers) && InfoTaken(receivers, e.sent[q].info)
    ensures AllSafe(AckOne(e, q).senders, log, receivers)
  {
    hide Endpoints.Inv;
    hide S.Inv;
    hide Safe;
    hide Stores;
    hide R.Mirrors;
    hide R.Got;
    hide R.GotSlice;
    hide S.AckSlice;
    hide S.AckMessages;
    InvParts(e, q);
    match e.sent[q].info
    case ReliableMessages(ch, ids) =>
      SafeAckMessages(e.senders[ch], ids, receivers[ch]);
      StoresAckMessages(e.senders[ch], ids, log[ch]);
    case ReliableSliceMessage(ch, id, i) =>
      SafeAckSlice(e.senders[ch], id, i, receivers[ch], log[ch]);
      StoresAckSlice(e.senders[ch], id, i, log[ch]);
    case _ =>
  }

  lemma StoresAckMessages(s: S.Sender, ids: seq<nat>, log: seq<Bytes>)
    requires S.Inv(s) && (forall id :: id in ids ==> S.MessageAckOk(s, id)) && Stores(s, log)
    ensures Stores(S.AckMessages(s, ids), log)
  {
    hide S.Inv;
  }

  /** Acks touch only senders, the ledger and the list of pending acks. */
  ghost predicate Acked(e: Endpoint, e': Endpoint) {
    && e' == e.(senders := e'.senders, sent := e'.sent, pendingAcks := e'.pendingAcks)
    && (forall q :: q in e'.sent ==> q in e.sent && e'.sent[q] == e.sent[q])
    && (forall q :: Has(e'.pendingAcks, q) ==> Has(e.pendingAcks, q))
  }

  lemma AckOneFrame(e: Endpoint, q: nat)
    requires Endpoints.Inv(e) && q in e.sent
    ensures Acked(e, AckOne(e, q))
  {
    InvParts(e, q);
    if e.sent[q].info.AckInfo? {
      TrimTrims(e.pendingAcks, e.sent[q].info.largestAcked);
    }
    hide Endpoints.Inv;
    hide Trim;
    hide Has;
    hide S.AckSlice;
    hide S.AckMessages;
  }

  lemma {:induction false} AckAllSafe(e: Endpoint, qs: seq<nat>, log: map<nat, seq<Bytes>>,
                                      receivers: map<nat, R.Receiver>)
    requires Endpoints.Inv(e) && Ascending(qs) && AllSafe(e.senders, log, receivers)
    requires forall q :: q in qs ==> q in e.sent && InfoTaken(receivers, e.sent[q].info)
    ensures AllSafe(AckAll(e, qs).senders, log, receivers) && Acked(e, AckAll(e, qs))
    decreases |qs|
  {
    hide Endpoints.Inv;
    hide AllSafe;
    hide InfoTaken;
    hide AckOne;
    hide Has;
    if qs != [] {
      var e1 := AckOne(e, qs[0]);
      AckOneInv(e, qs[0]);
      AckOneSafe(e, qs[0], log, receivers);
      AckOneFrame(e, qs[0]);
      assert forall q :: q in qs[1..] ==> q in qs && q != qs[0];
      AckAllSafe(e1, qs[1..], log, receivers);
    }
  }

  lemma LinkAcked(x: Peer, x': Peer, y: Peer)
    requires Link(x, y) && x'.log == x.log && x'.out == x.out && AllSafe(x'.e.senders, x.log, y.e.receivers)
    ensures Link(x', y)
  {
    hide R.Mirrors;
    hide Safe;
    hide TakenIn;
    hide Faithful;
    hide Stores;
  }

  lemma LinkAllSafe(x: Peer, y: Peer)
    requires Side(x) && Side(y) && Link(x, y)
    ensures AllSafe(x.e.senders, x.log, y.e.receivers)
  {
    hide Endpoints.Inv;
    hide R.Mirrors;
    hide Safe;
    hide TakenIn;
    hide Faithful;
    hide Stores;
    hide R.Exact;
    hide Has;
  }

  /** Every entry an honest ack strikes off has been taken in by the other end. */
  lemma AcksTaken(x: Peer, y: Peer, q: nat, acks: seq<nat>, k: nat)
    requires Joined(x, y) && x.e.connected && q in y.out && y.out[q].Ack?
    requires IsNewAcks(x.e.sent, y.out[q].ackRanges, acks) && k in acks
    ensures k in x.e.sent && InfoTaken(y.e.receivers, x.e.sent[k].info)
  {
    hide Side;
    hide TakenIn;
    hide R.Mirrors;
    hide Safe;
    hide Faithful;
    hide InfoTaken;
    hide Has;
    hide HonestMessages;
    hide HonestSlice;
    TakenInInfo(y.e.receivers, x.out[k]);
  }

  lemma AckKeeps(x: Peer, y: Peer, q: nat, pending: seq<Range>, acks: seq<nat>, x': Peer)
    requires Joined(x, y) && Noted(x, q, pending, x') && Endpoints.Inv(x'.e)
    requires q in y.out && y.out[q].Ack? && IsNewAcks(x.e.sent, y.out[q].ackRanges, acks)
    requires Endpoints.Inv(x.e.(pendingAcks := pending)) && x'.e == AckAll(x.e.(pendingAcks := pending), acks)
    ensures Joined(x', y)
  {
    hide Side;
    hide Link;
    hide Network;
    hide Endpoints.Inv;
    hide AllSafe;
    hide InfoTaken;
    hide Has;
    hide Added;
    hide AckAll;
    var e1 := x.e.(pendingAcks := pending);
    forall k | k in acks
      ensures k in x.e.sent && InfoTaken(y.e.receivers, x.e.sent[k].info)
    {
      AcksTaken(x, y, q, acks, k);
    }
    LinkAllSafe(x, y);
    AckAllSafe(e1, acks, x.log, y.e.receivers);
    AckKeepsSide(x, q, pending, x', y);
    NetworkStays(x, x');
    LinkAcked(x, x', y);
    var mid := x'.(processed := x.processed);
    LinkTo(y, x, mid);
    ProcessedMore(y, mid, x', q);
  }

  lemma AckKeepsSide(x: Peer, q: nat, pending: seq<Range>, x': Peer, y: Peer)
    requires Side(x) && Noted(x, q, pending, x') && Endpoints.Inv(x'.e)
    requires Acked(x.e.(pendingAcks := pending), x'.e) && AllSafe(x'.e.senders, x.log, y.e.receivers)
    ensures Side(x')
  {
    hide Endpoints.Inv;
    hide R.Exact;
    hide R.Mirrors;
    hide Safe;
    hide Stores;
    hide Has;
    hide Added;
    NotedKeepsSide(x, q, pending, x');
  }

  lemma ChannelFacts(x: Peer, y: Peer, ch: nat)
    requires Joined(x, y) && ch in x.e.receivers
    ensures ch in x.delivered && ch in y.log
    ensures R.Inv(x.e.receivers[ch]) && R.Mirrors(x.e.receivers[ch], y.log[ch])
    ensures R.Exact(x.e.receivers[ch], x.delivered[ch])
  {
    hide Network;
    hide R.Inv;
    hide R.Mirrors;
    hide R.Exact;
    hide Safe;
    hide Faithful;
    hide TakenIn;
    hide Stores;
    hide Has;
    hide Endpoints.SentOk;
    hide SendersOk;
  }

  lemma PacketFacts(x: Peer, y: Peer, q: nat)
    requires Joined(x, y) && q in y.out
    ensures y.out[q].sequence == q && Honest(y.log, y.processed, y.out[q])
  {
    hide Side;
    hide Link;
    hide Honest;
  }

  /** The other end's packets are sound, so delivery never reaches a panic. */
  lemma DeliverySound(x: Peer, y: Peer, q: nat)
    requires Joined(x, y) && q in y.out
    ensures Sound(x.e, y.out[q])
  {
    hide Joined;
    hide R.Inv;
    hide R.Mirrors;
    hide R.Exact;
    hide Has;
    hide HonestMessages;
    PacketFacts(x, y, q);
    var p := y.out[q];
    if p.ReliableSlice? && p.channelId in x.e.receivers {
      ChannelFacts(x, y, p.channelId);
      SliceHonest(x.e.receivers[p.channelId], p.slice, y.log[p.channelId], x.delivered[p.channelId]);
    }
  }

  lemma MessagesDelivered(x: Peer, y: Peer, q: nat, pending: seq<Range>, acks: seq<nat>, x': Peer)
    requires Joined(x, y) && Delivers(x, y, q, pending, acks, x') && y.out[q].SmallReliable?
    ensures Joined(x', y)
  {
    hide Joined;
    hide Endpoints.Inv;
    hide ProcessMessages;
    hide HonestMessages;
    hide Added;
    hide R.Inv;
    hide R.Mirrors;
    hide R.Exact;
    hide R.Got;
    hide Advances;
    PacketFacts(x, y, q);
    ProcessInv(x.e, y.out[q], pending, acks, x'.e);
    var ch := y.out[q].channelId;
    if ch in x.e.receivers {
      ChannelFacts(x, y, ch);
      MessagesHonest(x.e.receivers[ch], y.out[q].messages, y.log[ch], x.delivered[ch]);
      DataKeeps(x, y, q, pending, ch, x');
    } else {
      OtherKeeps(x, y, q, pending, x');
    }
  }

  lemma SliceDelivered(x: Peer, y: Peer, q: nat, pending: seq<Range>, acks: seq<nat>, x': Peer)
    requires Joined(x, y) && Delivers(x, y, q, pending, acks, x') && y.out[q].ReliableSlice?
    ensures Joined(x', y)
  {
    hide Joined;
    hide Endpoints.Inv;
    hide R.ProcessSlice;
    hide HonestSlice;
    hide Added;
    hide R.Inv;
    hide R.Mirrors;
    hide R.Exact;
    hide R.GotSlice;
    hide Advances;
    hide R.Consistent;
    PacketFacts(x, y, q);
    ProcessInv(x.e, y.out[q], pending, acks, x'.e);
    var ch := y.out[q].channelId;
    if ch in x.e.receivers {
      ChannelFacts(x, y, ch);
      SliceHonest(x.e.receivers[ch], y.out[q].slice, y.log[ch], x.delivered[ch]);
      DataKeeps(x, y, q, pending, ch, x');
    } else {
      OtherKeeps(x, y, q, pending, x');
    }
  }

  lemma AckDelivered(x: Peer, y: Peer, q: nat, pending: seq<Range>, acks: seq<nat>, x': Peer)
    requires Joined(x, y) && Delivers(x, y, q, pending, acks, x') && y.out[q].Ack?
    ensures Joined(x', y)
  {
    hide Joined;
    hide Endpoints.Inv;
    hide AckAll;
    hide Added;
    hide IsNewAcks;
    hide Has;
    hide Normal;
    PacketFacts(x, y, q);
    ProcessInv(x.e, y.out[q], pending, acks, x'.e);
    AckKeeps(x, y, q, pending, acks, x');
  }

  lemma DeliverKeeps(x: Peer, y: Peer, q: nat, pending: seq<Range>, acks: seq<nat>, x': Peer)
    requires Joined(x, y) && Delivers(x, y, q, pending, acks, x')
    ensures Joined(x', y)
  {
    hide Joined;
    match y.out[q]
    case SmallReliable(_, _, _) => MessagesDelivered(x, y, q, pending, acks, x');
    case ReliableSlice(_, _, _) => SliceDelivered(x, y, q, pending, acks, x');
    case Ack(_, _) => AckDelivered(x, y, q, pending, acks, x');
    case _ =>
      hide Endpoints.Inv;
      hide Added;
      PacketFacts(x, y, q);
      ProcessInv(x.e, y.out[q], pending, acks, x'.e);
      OtherKeeps(x, y, q, pending, x');
  }

  lemma ActKeeps(x: Peer, y: Peer, a: Action, x': Peer)
    requires Joined(x, y) && Act(x, y, a, x')
    ensures Joined(x', y)
  {
    hide Joined;
    hide Sends;
    hide Receives;
    hide Transmits;
    hide Delivers;
    match a
    case Send(ch, m) => SendKeeps(x, y, ch, m, x');
    case Receive(ch) => ReceiveKeeps(x, y, ch, x');
    case Update(duration) => UpdateKeeps(x, y, duration, x');
    case Transmit(packets) => TransmitKeeps(x, y, packets, x');
    case Deliver(q, pending, acks) => DeliverKeeps(x, y, q, pending, acks, x');
    case Disconnect => DisconnectKeeps(x, y, x');
  }

  lemma JoinedBack(x: Peer, y: Peer)
    requires Joined(x, y)
    ensures Joined(y, x)
  {
    hide Side;
    hide Network;
    hide Link;
  }

  // ----- New ends

  lemma FreshReceiver(x: Peer, ch: nat, log: seq<Bytes>)
    requires Fresh(x) && ch in x.e.receivers
    ensures var r := x.e.receivers[ch];
            R.Inv(r) && R.Exact(r, []) && R.Mirrors(r, log) && ch in x.delivered && x.delivered[ch] == []
  {
    var maxMemory, ordered :| x.e.receivers[ch] == R.Empty(maxMemory, ordered);
  }

  lemma FreshSender(x: Peer, ch: nat)
    requires Fresh(x) && ch in x.e.senders
    ensures var s := x.e.senders[ch];
            && S.Inv(s) && S.SentBefore(s, x.e.time) && s.channelId == ch && s.nextId == 0 && s.unacked == map[]
            && ch in x.log && x.log[ch] == [] && Stores(s, [])
  {
    var resendTime, maxMemory :| x.e.senders[ch] == S.Empty(ch, resendTime, maxMemory);
  }

  lemma FreshSide(x: Peer)
    requires Fresh(x)
    ensures Side(x) && Network(x)
  {
    hide R.Inv;
    hide R.Exact;
    hide S.Inv;
    hide S.SentBefore;
    hide Stores;
    forall ch | ch in x.e.receivers
      ensures R.Inv(x.e.receivers[ch]) && R.Exact(x.e.receivers[ch], x.delivered[ch])
    {
      FreshReceiver(x, ch, []);
    }
    forall ch | ch in x.e.senders
      ensures S.Inv(x.e.senders[ch]) && S.SentBefore(x.e.senders[ch], x.e.time) && x.e.senders[ch].channelId == ch
      ensures Stores(x.e.senders[ch], x.log[ch])
    {
      FreshSender(x, ch);
    }
  }

  lemma FreshLink(x: Peer, y: Peer)
    requires Fresh(x) && Fresh(y) && x.e.senders.Keys == y.e.receivers.Keys
    ensures Link(x, y)
  {
    hide R.Mirrors;
    hide R.Got;
    hide R.GotSlice;
    hide S.Inv;
    hide R.Inv;
    hide R.Exact;
    forall ch | ch in x.e.senders && ch in x.log && ch in y.delivered
      ensures R.Mirrors(y.e.receivers[ch], x.log[ch]) && Safe(x.e.senders[ch], y.e.receivers[ch])
      ensures Faithful(y.delivered[ch], x.log[ch])
    {
      FreshReceiver(y, ch, x.log[ch]);
      FreshSender(x, ch);
    }
  }

  // ----- What the channels promise

  /** The message is handed over, byte for byte as it was sent. */
  ghost predicate HandedOver(delivered: seq<(nat, Bytes)>, id: nat, m: Bytes) {
    exists k :: 0 <= k < |delivered| && delivered[k] == (id, m)
  }

  lemma PairFacts(x: Peer, y: Peer, ch: nat)
    requires Joined(x, y) && ch in x.log
    ensures ch in x.e.senders && ch in y.e.receivers && ch in y.delivered
    ensures Stores(x.e.senders[ch], x.log[ch]) && Safe(x.e.senders[ch], y.e.receivers[ch])
    ensures R.Inv(y.e.receivers[ch]) && R.Mirrors(y.e.receivers[ch], x.log[ch])
    ensures R.Exact(y.e.receivers[ch], y.delivered[ch]) && Faithful(y.delivered[ch], x.log[ch])
  {
    hide Network;
    hide R.Inv;
    hide R.Mirrors;
    hide R.Exact;
    hide Safe;
    hide Faithful;
    hide TakenIn;
    hide Stores;
    hide Has;
    hide Endpoints.SentOk;
    hide SendersOk;
  }

  lemma TakenInIsHeld(r: R.Receiver, delivered: seq<(nat, Bytes)>, log: seq<Bytes>, id: nat)
    requires R.Mirrors(r, log) && R.Exact(r, delivered) && Faithful(delivered, log) && id < |log|
    ensures R.Got(r, id) ==> (id in r.messages && r.messages[id] == log[id]) || HandedOver(delivered, id, log[id])
  {
    if R.Got(r, id) && id !in r.messages {
      var k :| 0 <= k < |delivered| && delivered[k].0 == id;
      assert delivered[k] == (id, log[id]);
    }
  }

  /** The receiver's constructor of message `m` holds the bytes of slice `k` at their place. */
  ghost predicate Gathered(r: R.Receiver, id: nat, k: nat, m: Bytes) {
    id in r.slices && k < NumSlices(|m|) && C.Holds(r.slices[id].data, m, k)
  }

  lemma IsGathered(r: R.Receiver, log: seq<Bytes>, id: nat, k: nat)
    requires R.Mirrors(r, log) && R.GotSlice(r, id, k) && id < |log|
    ensures R.Got(r, id) || Gathered(r, id, k, log[id])
  {
    hide R.Got;
  }

  function Payloads(delivered: seq<(nat, Bytes)>): seq<Bytes> {
    seq(|delivered|, k requires 0 <= k < |delivered| => delivered[k].1)
  }

  lemma OrderedPrefix(r: R.Receiver, delivered: seq<(nat, Bytes)>, log: seq<Bytes>)
    requires R.Mirrors(r, log) && R.Exact(r, delivered) && Faithful(delivered, log) && r.order.Ordered?
    ensures Payloads(delivered) <= log
  {
    assert Payloads(delivered) == log[..|delivered|];
  }

  lemma UnorderedState(r: R.Receiver, delivered: seq<(nat, Bytes)>, log: seq<Bytes>)
    requires R.Inv(r) && R.Mirrors(r, log) && R.Exact(r, delivered) && Faithful(delivered, log) && r.order.Unordered?
    ensures forall j, k :: 0 <= j < k < |delivered| ==> delivered[j].0 != delivered[k].0
    ensures r.oldest <= |log|
    ensures forall id :: 0 <= id < r.oldest ==> id in r.messages || HandedOver(delivered, id, log[id])
    ensures r.oldest in r.order.received <==> r.oldest in r.messages
  {
    forall id | 0 <= id < r.oldest
      ensures id in r.messages || HandedOver(delivered, id, log[id])
    {
      TakenInIsHeld(r, delivered, log, id);
    }
    hide R.Exact;
  }
}
