/**
 * A reliable channel delivers. In a run of both ends, whenever an ack comes back that names all
 * packets of a pass, fewer units are outstanding; enough such rounds leave nothing stored, and then
 * everything is with the other end.
 */
module Delivery {
  import opened Base
  import opened AckRanges
  import opened SendPasses
  import opened ChannelTurns
  import opened Endpoints
  import opened Connections
  import GreedyPasses
  import Sums
  import P = Progress
  import S = ReliableSending
  import L = ReliableLinks

  /** The packet is one of the reliable channel. */
  predicate On(p: Packet, ch: nat) {
    (p.SmallReliable? || p.ReliableSlice?) && p.channelId == ch
  }

  // ----- Acks

  /** The ledger's entries are those of the packets handed to the network. */
  ghost predicate Known(e: Endpoint, out: map<nat, Packet>) {
    forall q :: q in e.sent ==>
      && q in out && (out[q].Ack? ==> out[q].ackRanges != [] && Normal(out[q].ackRanges))
      && e.sent[q].info == InfoOf(out[q])
  }

  lemma AckOneOpen(e: Endpoint, q: nat, p: Packet, ch: nat)
    requires Endpoints.Inv(e) && q in e.sent && ch in e.senders
    requires (p.Ack? ==> p.ackRanges != [] && Normal(p.ackRanges)) && e.sent[q].info == InfoOf(p)
    ensures ch in AckOne(e, q).senders
    ensures P.Outstanding(AckOne(e, q).senders[ch]) ==
              P.Outstanding(e.senders[ch]) - (if On(p, ch) then set u | u in UnitsOf(p) else {})
  {
    hide P.Outstanding;
    hide UnitsOf;
    hide LedgerOk;
    hide SendersOk;
    hide Normal;
    InvParts(e, q);
    SenderOk(e, ch);
    hide Endpoints.Inv;
    hide S.Inv;
    if p.SmallReliable? || p.ReliableSlice? {
      var e1 := e.(sent := e.sent - {q});
      P.AckIsApply(e1, p);
      hide Apply;
      hide P.AckPacket;
      hide P.AckOk;
      if p.channelId == ch {
        P.AckOutstanding(e.senders[ch], p);
      }
    }
  }

  lemma SenderOk(e: Endpoint, ch: nat)
    requires Endpoints.Inv(e) && ch in e.senders
    ensures S.Inv(e.senders[ch]) && e.senders[ch].channelId == ch
  {
  }

  lemma {:induction false} AckAllOpen(e: Endpoint, qs: seq<nat>, out: map<nat, Packet>, ch: nat)
    requires Endpoints.Inv(e) && Ascending(qs) && forall q :: q in qs ==> q in e.sent
    requires ch in e.senders && Known(e, out)
    ensures ch in AckAll(e, qs).senders
    ensures P.Outstanding(AckAll(e, qs).senders[ch]) <= P.Outstanding(e.senders[ch])
    ensures forall q, u :: q in qs && On(out[q], ch) && u in UnitsOf(out[q]) ==>
              u !in P.Outstanding(AckAll(e, qs).senders[ch])
    ensures forall q :: q in e.sent && q !in qs ==> q in AckAll(e, qs).sent && AckAll(e, qs).sent[q] == e.sent[q]
    ensures forall q :: q in AckAll(e, qs).sent ==> q in e.sent && AckAll(e, qs).sent[q] == e.sent[q]
    decreases |qs|
  {
    hide Endpoints.Inv;
    hide P.Outstanding;
    hide UnitsOf;
    hide AckOne;
    hide On;
    if qs == [] {
      AckAllDone(e);
    } else {
      AckAllStep(e, qs);
      AckOneOpen(e, qs[0], out[qs[0]], ch);
      AckAllOpen(AckOne(e, qs[0]), qs[1..], out, ch);
      assert forall q :: q in qs <==> q == qs[0] || q in qs[1..];
      hide AckAll;
    }
  }

  // ----- What an action leaves of a pass

  /** The unit is in a packet that is in flight. */
  ghost predicate Carried(x: L.Peer, q: nat, ch: nat, u: Unit) {
    q in x.e.sent && q in x.out && On(x.out[q], ch) && u in UnitsOf(x.out[q])
  }

  /** Those units that are outstanding are in a packet of `qs` in flight, and that since `since` at most. */
  ghost predicate Tracked(x: L.Peer, ch: nat, qs: Range, units: set<Unit>, since: nat) {
    && ch in x.e.senders
    && (forall q: nat :: InRange(qs, q) ==> q < x.e.sequence)
    && (forall q: nat :: InRange(qs, q) && q in x.e.sent ==> since <= x.e.sent[q].sentAt)
    && (forall u :: u in units && u in P.Outstanding(x.e.senders[ch]) ==>
         exists q: nat :: InRange(qs, q) && Carried(x, q, ch, u))
  }

  lemma TimersOutstanding(s: S.Sender, s': S.Sender, now: nat)
    requires TimersOnly(s, s', now)
    ensures P.Outstanding(s') == P.Outstanding(s)
  {
    hide S.Inv;
    hide S.SentBefore;
  }

  /** What the other facts about an end are needed for here. */
  lemma EndFacts(x: L.Peer, y: L.Peer, ch: nat)
    requires L.Joined(x, y)
    ensures Endpoints.Inv(x.e) && (x.e.connected ==> Known(x.e, x.out))
    ensures forall q :: q in x.out ==> q < x.e.sequence
    ensures ch in x.e.senders ==> S.Inv(x.e.senders[ch]) && x.e.senders[ch].channelId == ch
  {
    hide L.Link;
    hide L.HonestMessages;
    hide L.HonestSlice;
    if ch in x.e.senders {
      SenderOk(x.e, ch);
    }
    hide Endpoints.Inv;
  }

  /** An ack packet leaves less outstanding, and nothing of the packets in flight that it names. */
  lemma AcksOpen(x: L.Peer, y: L.Peer, q: nat, pending: seq<Range>, acks: seq<nat>, x': L.Peer, ch: nat)
    requires L.Joined(x, y) && L.Delivers(x, y, q, pending, acks, x') && y.out[q].Ack? && ch in x.e.senders
    ensures ch in x'.e.senders && P.Outstanding(x'.e.senders[ch]) <= P.Outstanding(x.e.senders[ch])
    ensures forall k, u :: Carried(x, k, ch, u) && Has(y.out[q].ackRanges, k) ==> u !in P.Outstanding(x'.e.senders[ch])
    ensures forall k :: k in x.e.sent && !Has(y.out[q].ackRanges, k) ==> k in x'.e.sent
    ensures forall k :: k in x'.e.sent ==> k in x.e.sent && x'.e.sent[k] == x.e.sent[k]
    ensures x'.e.sequence == x.e.sequence && x'.e.time == x.e.time && x'.out == x.out
  {
    hide L.Joined;
    hide P.Outstanding;
    hide UnitsOf;
    hide Has;
    hide Normal;
    hide Endpoints.Inv;
    hide Added;
    hide AckAll;
    hide On;
    EndFacts(x, y, ch);
    var e1 := x.e.(pendingAcks := pending);
    AckAllOpen(e1, acks, x.out, ch);
    AckAllFrame(e1, acks);
  }

  lemma {:induction false} AckAllFrame(e: Endpoint, qs: seq<nat>)
    requires Endpoints.Inv(e) && Ascending(qs) && forall q :: q in qs ==> q in e.sent
    ensures var e' := AckAll(e, qs);
            e'.sequence == e.sequence && e'.time == e.time && e'.connected == e.connected
    decreases |qs|
  {
    hide Endpoints.Inv;
    hide Apply;
    if qs == [] {
      AckAllDone(e);
    } else {
      AckAllStep(e, qs);
      AckAllFrame(AckOne(e, qs[0]), qs[1..]);
    }
  }

  lemma AckTracked(x: L.Peer, y: L.Peer, q: nat, pending: seq<Range>, acks: seq<nat>, x': L.Peer, ch: nat,
                   qs: Range, units: set<Unit>, since: nat)
    requires L.Joined(x, y) && L.Delivers(x, y, q, pending, acks, x') && y.out[q].Ack?
    requires Tracked(x, ch, qs, units, since)
    ensures Tracked(x', ch, qs, units, since) && P.Outstanding(x'.e.senders[ch]) <= P.Outstanding(x.e.senders[ch])
    ensures (forall k: nat :: InRange(qs, k) ==> Has(y.out[q].ackRanges, k)) ==>
              P.Outstanding(x'.e.senders[ch]) !! units
  {
    hide L.Joined;
    hide L.Delivers;
    hide P.Outstanding;
    hide UnitsOf;
    hide Has;
    hide On;
    InNetwork(x, y, q, pending, acks, x');
    AcksOpen(x, y, q, pending, acks, x', ch);
    forall u | u in units && u in P.Outstanding(x'.e.senders[ch])
      ensures exists k: nat :: InRange(qs, k) && Carried(x', k, ch, u) && !Has(y.out[q].ackRanges, k)
    {
      var k: nat :| InRange(qs, k) && Carried(x, k, ch, u);
      assert !Has(y.out[q].ackRanges, k);
      assert Carried(x', k, ch, u);
    }
  }

  /** The end keeps its senders, but for timers, and every entry of its ledger that is young enough. */
  ghost predicate Undisturbed(x: L.Peer, x': L.Peer, ch: nat) {
    && ch in x.e.senders && ch in x'.e.senders
    && P.Outstanding(x'.e.senders[ch]) == P.Outstanding(x.e.senders[ch])
    && x.e.sequence <= x'.e.sequence && x.e.time <= x'.e.time
    && (forall q :: q in x.e.sent && x'.e.time < x.e.sent[q].sentAt + DISCARD_AFTER ==>
          q in x'.e.sent && x'.e.sent[q] == x.e.sent[q])
    && (forall q :: q in x'.e.sent && q < x.e.sequence ==> q in x.e.sent && x'.e.sent[q] == x.e.sent[q])
    && (forall q :: q in x.out && q < x.e.sequence ==> q in x'.out && x'.out[q] == x.out[q])
  }

  lemma UndisturbedTracked(x: L.Peer, x': L.Peer, ch: nat, qs: Range, units: set<Unit>, since: nat)
    requires ch in x.e.senders && Undisturbed(x, x', ch) && Tracked(x, ch, qs, units, since)
    requires x'.e.time < since + DISCARD_AFTER
    ensures Tracked(x', ch, qs, units, since)
  {
    hide P.Outstanding;
    hide UnitsOf;
    hide On;
    forall u | u in units && u in P.Outstanding(x'.e.senders[ch])
      ensures exists q: nat :: InRange(qs, q) && Carried(x', q, ch, u)
    {
      var q: nat :| InRange(qs, q) && Carried(x, q, ch, u);
      assert Carried(x', q, ch, u);
    }
  }

  lemma TransmitUndisturbed(x: L.Peer, y: L.Peer, packets: seq<Packet>, x': L.Peer, ch: nat)
    requires L.Joined(x, y) && L.Transmits(x, packets, x') && x'.e.connected && ch in x.e.senders
    ensures Undisturbed(x, x', ch)
  {
    hide L.Joined;
    hide L.Transmits;
    hide P.Outstanding;
    TransmitOutstanding(x, packets, x', ch);
    TransmitGrows(x, y, packets, x');
  }

  lemma TransmitGrows(x: L.Peer, y: L.Peer, packets: seq<Packet>, x': L.Peer)
    requires L.Joined(x, y) && L.Transmits(x, packets, x')
    ensures x.e.sequence <= x'.e.sequence && x.e.time == x'.e.time
    ensures forall q :: q in x.e.sent ==> q in x'.e.sent && x'.e.sent[q] == x.e.sent[q]
    ensures forall q :: q in x'.e.sent && q < x.e.sequence ==> q in x.e.sent && x'.e.sent[q] == x.e.sent[q]
    ensures forall q :: q in x.out && q < x.e.sequence ==> q in x'.out && x'.out[q] == x.out[q]
  {
    hide L.Joined;
    hide Normal;
    hide PacketFrom;
    hide TimersOnly;
    hide Recorded;
    hide L.Handed;
    SentBelow(x, y);
    LedgerGrows(x.e.sent, x.e.sequence, packets, x.e.time);
    NetworkGrows(x.out, x.e.sequence, packets);
  }

  lemma SentBelow(x: L.Peer, y: L.Peer)
    requires L.Joined(x, y)
    ensures forall q :: q in x.e.sent ==> q < x.e.sequence
  {
    hide L.Link;
    hide L.Network;
    hide SendersOk;
    hide ReceiversOk;
    hide LedgerOk;
  }

  lemma TransmitOutstanding(x: L.Peer, packets: seq<Packet>, x': L.Peer, ch: nat)
    requires L.Transmits(x, packets, x') && ch in x.e.senders
    ensures ch in x'.e.senders && P.Outstanding(x'.e.senders[ch]) == P.Outstanding(x.e.senders[ch])
  {
    hide P.Outstanding;
    hide Normal;
    hide PacketFrom;
    hide Recorded;
    hide TimersOnly;
    TimersOutstanding(x.e.senders[ch], x'.e.senders[ch], x.e.time);
  }

  lemma LedgerGrows(sent: map<nat, PacketSent>, first: nat, packets: seq<Packet>, time: nat)
    requires Recordable(packets) && forall q :: q in sent ==> q < first
    ensures var sent' := Recorded(sent, first, packets, time);
            && (forall q :: q in sent ==> q in sent' && sent'[q] == sent[q])
            && (forall q :: q in sent' && q < first ==> q in sent && sent'[q] == sent[q])
  {
    hide Normal;
    hide InfoOf;
  }

  lemma NetworkGrows(out: map<nat, Packet>, first: nat, packets: seq<Packet>)
    ensures forall q :: q in out && q < first ==>
              q in L.Handed(out, first, packets) && L.Handed(out, first, packets)[q] == out[q]
  {
  }

  lemma DataUndisturbed(x: L.Peer, y: L.Peer, q: nat, pending: seq<Range>, acks: seq<nat>, x': L.Peer, ch: nat)
    requires L.Delivers(x, y, q, pending, acks, x') && !y.out[q].Ack? && ch in x.e.senders
    ensures Undisturbed(x, x', ch)
  {
    hide P.Outstanding;
    hide Endpoints.Inv;
    hide Sound;
    hide Added;
    hide ProcessMessages;
  }

  lemma OtherUndisturbed(x: L.Peer, y: L.Peer, a: L.Action, x': L.Peer, ch: nat)
    requires L.Act(x, y, a, x') && !a.Transmit? && !a.Deliver? && !(a.Send? && a.ch == ch) && ch in x.e.senders
    ensures Undisturbed(x, x', ch)
  {
    hide P.Outstanding;
    hide Endpoints.Inv;
  }

  /** Whatever the end does other than accept a message on the channel, the units stay tracked. */
  lemma ActTracked(x: L.Peer, y: L.Peer, a: L.Action, x': L.Peer, ch: nat, qs: Range, units: set<Unit>, since: nat)
    requires L.Joined(x, y) && L.Act(x, y, a, x') && x'.e.connected && !(a.Send? && a.ch == ch)
    requires Tracked(x, ch, qs, units, since) && x'.e.time < since + DISCARD_AFTER
    ensures Tracked(x', ch, qs, units, since)
  {
    hide L.Joined;
    hide L.Delivers;
    hide L.Transmits;
    hide L.Sends;
    hide L.Receives;
    hide P.Outstanding;
    hide Undisturbed;
    assert ch in x.e.senders;
    hide Tracked;
    match a
    case Transmit(packets) =>
      TransmitUndisturbed(x, y, packets, x', ch);
      UndisturbedTracked(x, x', ch, qs, units, since);
    case Deliver(q, pending, acks) =>
      InNetwork(x, y, q, pending, acks, x');
      if y.out[q].Ack? {
        AckTracked(x, y, q, pending, acks, x', ch, qs, units, since);
      } else {
        DataUndisturbed(x, y, q, pending, acks, x', ch);
        UndisturbedTracked(x, x', ch, qs, units, since);
      }
    case _ =>
      OtherUndisturbed(x, y, a, x', ch);
      UndisturbedTracked(x, x', ch, qs, units, since);
  }

  lemma InNetwork(x: L.Peer, y: L.Peer, q: nat, pending: seq<Range>, acks: seq<nat>, x': L.Peer)
    requires L.Delivers(x, y, q, pending, acks, x')
    ensures q in y.out
  {
    hide Process;
  }

  /** Nothing becomes outstanding again. */
  lemma ActShrinks(x: L.Peer, y: L.Peer, a: L.Action, x': L.Peer, ch: nat)
    requires L.Joined(x, y) && L.Act(x, y, a, x') && !(a.Send? && a.ch == ch) && ch in x.e.senders
    ensures ch in x'.e.senders && P.Outstanding(x'.e.senders[ch]) <= P.Outstanding(x.e.senders[ch])
  {
    hide L.Joined;
    hide P.Outstanding;
    match a
    case Transmit(packets) =>
      assert TimersOnly(x.e.senders[ch], x'.e.senders[ch], x.e.time);
      TimersOutstanding(x.e.senders[ch], x'.e.senders[ch], x.e.time);
    case Deliver(q, pending, acks) =>
      hide L.Delivers;
      InNetwork(x, y, q, pending, acks, x');
      if y.out[q].Ack? {
        AcksOpen(x, y, q, pending, acks, x', ch);
      } else {
        DataUndisturbed(x, y, q, pending, acks, x', ch);
      }
    case _ => OtherUndisturbed(x, y, a, x', ch);
  }

  // ----- The pass

  /** What is outstanding on the channel. */
  ghost function OpenOn(x: L.Peer, ch: nat): set<Unit> {
    if ch in x.e.senders then P.Outstanding(x.e.senders[ch]) else {}
  }

  lemma {:induction false} UnitIn(packets: seq<Packet>, u: Unit)
    requires u in Units(packets)
    ensures exists i :: 0 <= i < |packets| && u in UnitsOf(packets[i])
    decreases |packets|
  {
    hide UnitsOf;
    var n := |packets| - 1;
    if u in UnitsOf(packets[n]) {
    } else {
      UnitIn(packets[..n], u);
      var i :| 0 <= i < n && u in UnitsOf(packets[..n][i]);
      assert packets[i] == packets[..n][i];
    }
  }

  /** The first turn of a channel finds it as it was, and the packets made stay where they are. */
  lemma {:induction false} TurnsBefore(order: seq<ChannelOrder>, stages: seq<Stage>, first: nat, now: nat, k: nat,
                                       ch: nat)
    requires Turns(order, stages, first, now) && k <= |order| && ch in stages[0].senders
    requires forall i :: 0 <= i < k ==> order[i] != Reliable(ch)
    ensures ch in stages[k].senders && stages[k].senders[ch] == stages[0].senders[ch]
    decreases k
  {
    hide SendPass;
    hide GreedyPasses.Greedy;
    hide GreedyPasses.Tight;
    hide Passes;
    if k > 0 {
      TurnsBefore(order, stages, first, now, k - 1, ch);
      assert Turn(order[k - 1], stages[k - 1], stages[k], first, now);
    }
  }

  lemma {:induction false} TurnsPrefix(order: seq<ChannelOrder>, stages: seq<Stage>, first: nat, now: nat, k: nat,
                                       n: nat)
    requires Turns(order, stages, first, now) && k <= n <= |order|
    ensures stages[k].packets <= stages[n].packets
    decreases n
  {
    hide SendPass;
    hide GreedyPasses.Greedy;
    hide GreedyPasses.Tight;
    hide Passes;
    if k < n {
      TurnsPrefix(order, stages, first, now, k, n - 1);
      assert Turn(order[n - 1], stages[n - 1], stages[n], first, now);
    }
  }

  /** The channel's turn in a transmission: its first, with a slice's worth of budget and everything due. */
  ghost predicate Starts(x: Node, a: Action, ch: nat, k: nat) {
    && a.Transmit? && |a.stages| == |a.order| + 1 && k < |a.order|
    && a.order[k] == Reliable(ch) && (forall i :: 0 <= i < k ==> a.order[i] != Reliable(ch))
    && a.stages[k].available >= SLICE_SIZE
    && ch in x.p.e.senders && P.AllDue(x.p.e.senders[ch], x.p.e.time)
    && |a.stages[k].packets| <= |a.stages[k + 1].packets|
  }

  /** The packets made in the channel's turn, none if there is no such turn. */
  ghost function PassPackets(a: Action, k: nat): seq<Packet> {
    if a.Transmit? && k + 1 < |a.stages| && |a.stages[k].packets| <= |a.stages[k + 1].packets| then
      a.stages[k + 1].packets[|a.stages[k].packets|..]
    else []
  }

  ghost function PassUnits(a: Action, k: nat): set<Unit> {
    set u | u in Units(PassPackets(a, k))
  }

  /** Their sequences. */
  ghost function PassSequences(x: Node, a: Action, k: nat): Range {
    if a.Transmit? && k + 1 < |a.stages| then
      Range(x.p.e.sequence + |a.stages[k].packets|, x.p.e.sequence + |a.stages[k + 1].packets|)
    else Range(0, 0)
  }

  lemma PassOf(x: Node, y: Node, a: Action, x': Node, ch: nat, k: nat)
    requires Starts(x, a, ch, k) && L.Joined(x.p, y.p) && Act(x, y, a, x')
    ensures var s, more := x.p.e.senders[ch], PassPackets(a, k);
            && S.Inv(s) && s.channelId == ch && ch in a.stages[k + 1].senders
            && SendPass(s, a.stages[k + 1].senders[ch], more, x.p.e.sequence + |a.stages[k].packets|,
                        a.stages[k].available, a.stages[k + 1].available, x.p.e.time)
  {
    hide L.Joined;
    hide L.Act;
    hide P.AllDue;
    hide SendPass;
    hide GreedyPasses.Greedy;
    hide GreedyPasses.Tight;
    hide S.Inv;
    EndFacts(x.p, y.p, ch);
    hide Endpoints.Inv;
    TurnsBefore(a.order, a.stages, x.p.e.sequence, x.p.e.time, k, ch);
    assert Turn(a.order[k], a.stages[k], a.stages[k + 1], x.p.e.sequence, x.p.e.time);
  }

  /** The packets of the turn are among those transmitted, in their place. */
  lemma PassPlace(x: Node, packets: seq<Packet>, order: seq<ChannelOrder>, stages: seq<Stage>, x': Node, k: nat, i: nat)
    requires Transmits(x, packets, order, stages, x') && k < |order|
    requires |stages[k].packets| <= |stages[k + 1].packets| && i < |stages[k + 1].packets| - |stages[k].packets|
    ensures var from := |stages[k].packets|;
            from + i < |packets| && packets[from + i] == stages[k + 1].packets[from..][i]
  {
    TurnsPrefix(order, stages, x.p.e.sequence, x.p.e.time, k + 1, |order|);
    hide Turns;
    var from, made := |stages[k].packets|, stages[|order|].packets;
    assert made <= packets;
    assert stages[k + 1].packets[from + i] == made[from + i] == packets[from + i];
  }

  lemma TransmittedAt(x: L.Peer, packets: seq<Packet>, x': L.Peer, n: nat)
    requires L.Transmits(x, packets, x') && x'.e.connected && n < |packets|
    ensures var q := x.e.sequence + n;
            && q in x'.out && x'.out[q] == packets[n] && q < x'.e.sequence
            && q in x'.e.sent && x'.e.sent[q].sentAt == x.e.time
  {
    hide TimersOnly;
    hide PacketFrom;
    hide Normal;
    RecordedAt(x.e.sent, x.e.sequence, packets, x.e.time, n);
    hide Recorded;
    assert L.At(packets, x.e.sequence, x.e.sequence + n) == packets[n];
  }

  lemma RecordedAt(sent: map<nat, PacketSent>, first: nat, packets: seq<Packet>, time: nat, n: nat)
    requires Recordable(packets) && n < |packets|
    ensures var sent' := Recorded(sent, first, packets, time);
            first + n in sent' && sent'[first + n].sentAt == time
  {
    hide Normal;
    hide InfoOf;
  }

  lemma BothTransmit(x: Node, y: Node, a: Action, x': Node)
    requires Act(x, y, a, x') && a.Transmit?
    ensures L.Transmits(x.p, a.packets, x'.p) && Transmits(x, a.packets, a.order, a.stages, x')
  {
    hide L.Transmits;
    hide Transmits;
    hide L.Act;
    TransmitsOf(x.p, y.p, a.packets, x'.p);
  }

  /** Packet `i` of the turn is in the network under its sequence, and in the ledger. */
  ghost predicate InFlight(x: Node, a: Action, x': Node, k: nat, i: nat) {
    && i < |PassPackets(a, k)|
    && var q := PassSequences(x, a, k).start + i;
       && q in x'.p.out && x'.p.out[q] == PassPackets(a, k)[i] && q < x'.p.e.sequence
       && q in x'.p.e.sent && x'.p.e.sent[q].sentAt == x.p.e.time
  }

  lemma PassHandedOver(x: Node, y: Node, a: Action, x': Node, ch: nat, k: nat, i: nat)
    requires Starts(x, a, ch, k) && i < |PassPackets(a, k)| && x'.p.e.connected && Act(x, y, a, x')
    ensures InFlight(x, a, x', k, i)
  {
    hide P.AllDue;
    hide Act;
    hide Transmits;
    hide L.Transmits;
    BothTransmit(x, y, a, x');
    PassPlace(x, a.packets, a.order, a.stages, x', k, i);
    TransmittedAt(x.p, a.packets, x'.p, |a.stages[k].packets| + i);
  }

  /** With anything outstanding the pass sends some of it. */
  lemma StartUnits(x: Node, y: Node, a: Action, x': Node, ch: nat, k: nat)
    requires Starts(x, a, ch, k) && L.Joined(x.p, y.p) && Act(x, y, a, x')
    ensures PassUnits(a, k) <= OpenOn(x.p, ch) && (OpenOn(x.p, ch) != {} ==> PassUnits(a, k) != {})
    ensures forall i :: 0 <= i < |PassPackets(a, k)| ==> On(PassPackets(a, k)[i], ch)
  {
    hide L.Joined;
    hide Act;
    hide P.Outstanding;
    hide Units;
    hide S.Inv;
    var more, from := PassPackets(a, k), |a.stages[k].packets|;
    PassOf(x, y, a, x', ch, k);
    var s, s' := x.p.e.senders[ch], a.stages[k + 1].senders[ch];
    var budget, left := a.stages[k].available, a.stages[k + 1].available;
    hide SendPass;
    P.PassEmits(s, s', more, x.p.e.sequence + from, budget, left, x.p.e.time);
    hide P.AllDue;
    if P.Outstanding(s) != {} {
      assert Units(more)[0] in PassUnits(a, k);
    }
    forall i | 0 <= i < |more|
      ensures On(more[i], ch)
    {
      OnChannel(s, s', more, x.p.e.sequence + from, budget, left, x.p.e.time, i);
    }
  }

  lemma StartTracked(x: Node, y: Node, a: Action, x': Node, ch: nat, k: nat)
    requires Starts(x, a, ch, k) && x'.p.e.connected && L.Joined(x.p, y.p) && Act(x, y, a, x')
    ensures Tracked(x'.p, ch, PassSequences(x, a, k), PassUnits(a, k), x.p.e.time)
  {
    hide L.Joined;
    hide Act;
    hide P.Outstanding;
    hide P.AllDue;
    hide Units;
    hide UnitsOf;
    hide On;
    StartUnits(x, y, a, x', ch, k);
    SequencesTracked(x, y, a, x', ch, k);
    ChannelStays(x, y, a, x', ch);
    var more, qs := PassPackets(a, k), PassSequences(x, a, k);
    forall u | u in PassUnits(a, k)
      ensures exists q: nat :: InRange(qs, q) && Carried(x'.p, q, ch, u)
    {
      UnitIn(more, u);
      var i: nat :| i < |more| && u in UnitsOf(more[i]);
      PassHandedOver(x, y, a, x', ch, k, i);
      assert InRange(qs, qs.start + i) && Carried(x'.p, qs.start + i, ch, u);
    }
  }

  lemma ChannelStays(x: Node, y: Node, a: Action, x': Node, ch: nat)
    requires Act(x, y, a, x') && a.Transmit? && ch in x.p.e.senders
    ensures ch in x'.p.e.senders
  {
    hide TimersOnly;
    hide Turns;
    hide PacketFrom;
    hide Normal;
  }

  lemma OnChannel(s: S.Sender, s': S.Sender, packets: seq<Packet>, sequence: nat, budget: nat, left: nat, now: nat,
                  i: nat)
    requires SendPass(s, s', packets, sequence, budget, left, now) && i < |packets|
    ensures On(packets[i], s.channelId)
  {
    hide SendPasses.SentOk;
    hide TimersOk;
  }

  lemma SequencesTracked(x: Node, y: Node, a: Action, x': Node, ch: nat, k: nat)
    requires Starts(x, a, ch, k) && x'.p.e.connected && Act(x, y, a, x')
    ensures forall q: nat :: InRange(PassSequences(x, a, k), q) ==>
              q < x'.p.e.sequence && q in x'.p.e.sent && x.p.e.time <= x'.p.e.sent[q].sentAt
  {
    hide Act;
    hide P.AllDue;
    forall q: nat | InRange(PassSequences(x, a, k), q)
      ensures q < x'.p.e.sequence && q in x'.p.e.sent && x.p.e.time <= x'.p.e.sent[q].sentAt
    {
      PassHandedOver(x, y, a, x', ch, k, q - PassSequences(x, a, k).start);
    }
  }

  // ----- Runs

  /** The action on the ledger and the reliable channels. */
  function Project(a: Action): L.Action {
    match a
    case Send(ch, m) => L.Send(ch, m)
    case Receive(ch) => L.Receive(ch)
    case Update(duration) => L.Update(duration)
    case Transmit(packets, _, _) => L.Transmit(packets)
    case Deliver(q, pending, acks) => L.Deliver(q, pending, acks)
    case Disconnect => L.Disconnect
  }

  lemma Projected(x: Node, y: Node, a: Action, x': Node)
    requires Act(x, y, a, x')
    ensures x'.p == x.p || L.Act(x.p, y.p, Project(a), x'.p)
  {
    hide L.Act;
  }

  /** The step is one of the sending end. */
  predicate Sends(step: Step, d: Direction) {
    step.ByA? <==> d == AToB
  }

  lemma StepIs(s: System, step: Step, s': System, d: Direction)
    requires Next(s, step, s')
    ensures Sends(step, d) ==> Act(Sending(s, d), Receiving(s, d), step.action, Sending(s', d))
    ensures !Sends(step, d) ==> Sending(s', d) == Sending(s, d)
  {
    hide Act;
  }

  /** No message is accepted on the channel from step `i` up to step `j`. */
  ghost predicate Quiet(steps: seq<Step>, i: nat, j: nat, d: Direction, ch: nat) {
    forall k :: i <= k < j && k < |steps| && Sends(steps[k], d) ==> !(steps[k].action.Send? && steps[k].action.ch == ch)
  }

  lemma ActMonotone(x: L.Peer, y: L.Peer, a: L.Action, x': L.Peer)
    requires L.Act(x, y, a, x')
    ensures x'.e.connected ==> x.e.connected
    ensures x.e.time <= x'.e.time
  {
    hide Endpoints.Inv;
    hide Sound;
    hide Added;
    hide ProcessMessages;
    hide AckAll;
    hide Has;
    if a.Deliver? && y.out[a.q].Ack? {
      AckAllFrame(x.e.(pendingAcks := a.pending), a.acks);
    }
  }

  lemma {:induction false} Monotone(states: seq<System>, steps: seq<Step>, i: nat, j: nat, d: Direction)
    requires Run(states, steps) && i <= j < |states|
    ensures Sending(states[j], d).p.e.connected ==> Sending(states[i], d).p.e.connected
    ensures Sending(states[i], d).p.e.time <= Sending(states[j], d).p.e.time
    decreases j
  {
    hide Init;
    hide Act;
    hide L.Act;
    if i < j {
      Monotone(states, steps, i, j - 1, d);
      assert Next(states[j - 1], steps[j - 1], states[j]);
      StepIs(states[j - 1], steps[j - 1], states[j], d);
      if Sends(steps[j - 1], d) {
        var x, y := Sending(states[j - 1], d), Receiving(states[j - 1], d);
        Projected(x, y, steps[j - 1].action, Sending(states[j], d));
        if Sending(states[j], d).p != x.p {
          ActMonotone(x.p, y.p, Project(steps[j - 1].action), Sending(states[j], d).p);
        }
      }
    }
  }

  ghost function Open(s: System, d: Direction, ch: nat): set<Unit> {
    OpenOn(Sending(s, d).p, ch)
  }

  lemma {:induction false} OnlyLess(states: seq<System>, steps: seq<Step>, i: nat, j: nat, d: Direction, ch: nat)
    requires Run(states, steps) && i <= j < |states| && Quiet(steps, i, j, d, ch)
    requires ch in Sending(states[i], d).p.e.senders
    ensures ch in Sending(states[j], d).p.e.senders && Open(states[j], d, ch) <= Open(states[i], d, ch)
    decreases j
  {
    hide Init;
    hide Act;
    hide L.Act;
    hide L.Joined;
    hide Loosely;
    hide P.Outstanding;
    if i < j {
      OnlyLess(states, steps, i, j - 1, d, ch);
      EitherWay(states, steps, j - 1, d);
      assert Next(states[j - 1], steps[j - 1], states[j]);
      StepIs(states[j - 1], steps[j - 1], states[j], d);
      if Sends(steps[j - 1], d) {
        var x, y := Sending(states[j - 1], d), Receiving(states[j - 1], d);
        Projected(x, y, steps[j - 1].action, Sending(states[j], d));
        if Sending(states[j], d).p != x.p {
          ActShrinks(x.p, y.p, Project(steps[j - 1].action), Sending(states[j], d).p, ch);
        }
      }
    }
  }

  /** The units of a pass stay tracked from one state to a later one. */
  lemma {:induction false} StaysTracked(states: seq<System>, steps: seq<Step>, i: nat, j: nat, d: Direction, ch: nat,
                                        qs: Range, units: set<Unit>, since: nat)
    requires Run(states, steps) && i <= j < |states| && Quiet(steps, i, j, d, ch)
    requires Tracked(Sending(states[i], d).p, ch, qs, units, since)
    requires Sending(states[j], d).p.e.connected && Sending(states[j], d).p.e.time < since + DISCARD_AFTER
    ensures Tracked(Sending(states[j], d).p, ch, qs, units, since)
    decreases j
  {
    hide Init;
    hide Act;
    hide L.Act;
    hide L.Joined;
    hide Loosely;
    hide Tracked;
    if i < j {
      Monotone(states, steps, j - 1, j, d);
      StaysTracked(states, steps, i, j - 1, d, ch, qs, units, since);
      EitherWay(states, steps, j - 1, d);
      assert Next(states[j - 1], steps[j - 1], states[j]);
      StepIs(states[j - 1], steps[j - 1], states[j], d);
      if Sends(steps[j - 1], d) {
        var x, y := Sending(states[j - 1], d), Receiving(states[j - 1], d);
        Projected(x, y, steps[j - 1].action, Sending(states[j], d));
        if Sending(states[j], d).p != x.p {
          ActTracked(x.p, y.p, Project(steps[j - 1].action), Sending(states[j], d).p, ch, qs, units, since);
        }
      }
    }
  }

  /** Step `i` makes a pass of the channel, and step `j - 1` takes in an ack that names all its packets. */
  ghost predicate Answered(states: seq<System>, steps: seq<Step>, i: nat, j: nat, d: Direction, ch: nat, k: nat)
    requires |states| == |steps| + 1
  {
    && i + 1 < j <= |steps|
    && Sends(steps[i], d) && Starts(Sending(states[i], d), steps[i].action, ch, k)
    && Sends(steps[j - 1], d) && steps[j - 1].action.Deliver?
    && var out, q := Receiving(states[j - 1], d).p.out, steps[j - 1].action.q;
       && q in out && out[q].Ack?
       && forall n: nat :: InRange(PassSequences(Sending(states[i], d), steps[i].action, k), n) ==>
            Has(out[q].ackRanges, n)
  }

  /** The ack is back before the packets are given up, and the connection lasts. */
  ghost predicate Round(states: seq<System>, steps: seq<Step>, i: nat, j: nat, d: Direction, ch: nat)
    requires |states| == |steps| + 1
  {
    && i < j <= |steps| && (exists k :: Answered(states, steps, i, j, d, ch, k))
    && Sending(states[j], d).p.e.connected
    && Sending(states[j], d).p.e.time < Sending(states[i], d).p.e.time + DISCARD_AFTER
  }

  /** The last step of a round: the ack arrives. */
  lemma AckArrives(states: seq<System>, steps: seq<Step>, j: nat, d: Direction, ch: nat, qs: Range, units: set<Unit>,
                   since: nat)
    requires Run(states, steps) && 0 < j < |states| && Tracked(Sending(states[j - 1], d).p, ch, qs, units, since)
    requires Sends(steps[j - 1], d) && steps[j - 1].action.Deliver?
    requires var out, q := Receiving(states[j - 1], d).p.out, steps[j - 1].action.q;
             q in out && out[q].Ack? && forall n: nat :: InRange(qs, n) ==> Has(out[q].ackRanges, n)
    ensures ch in Sending(states[j], d).p.e.senders && Open(states[j], d, ch) !! units
  {
    hide Init;
    hide Act;
    hide L.Joined;
    hide Loosely;
    hide Tracked;
    hide Has;
    hide P.Outstanding;
    EitherWay(states, steps, j - 1, d);
    assert Next(states[j - 1], steps[j - 1], states[j]);
    StepIs(states[j - 1], steps[j - 1], states[j], d);
    var x, y, a := Sending(states[j - 1], d), Receiving(states[j - 1], d), steps[j - 1].action;
    DeliversOf(x, y, a, Sending(states[j], d));
    AckTracked(x.p, y.p, a.q, a.pending, a.acks, Sending(states[j], d).p, ch, qs, units, since);
    TrackedChannel(Sending(states[j], d).p, ch, qs, units, since);
  }

  lemma TrackedChannel(x: L.Peer, ch: nat, qs: Range, units: set<Unit>, since: nat)
    requires Tracked(x, ch, qs, units, since)
    ensures ch in x.e.senders
  {
  }

  lemma DeliversOf(x: Node, y: Node, a: Action, x': Node)
    requires Act(x, y, a, x') && a.Deliver?
    ensures L.Delivers(x.p, y.p, a.q, a.pending, a.acks, x'.p)
  {
    hide L.Delivers;
    hide Unreliably;
  }

  /** A round leaves strictly less outstanding. */
  lemma RoundShrinks(states: seq<System>, steps: seq<Step>, i: nat, j: nat, d: Direction, ch: nat)
    requires Run(states, steps) && Round(states, steps, i, j, d, ch) && Quiet(steps, i, j, d, ch)
    ensures ch in Sending(states[i], d).p.e.senders && ch in Sending(states[j], d).p.e.senders
    ensures Open(states[j], d, ch) <= Open(states[i], d, ch)
    ensures Open(states[i], d, ch) != {} ==> Open(states[j], d, ch) < Open(states[i], d, ch)
  {
    hide Init;
    hide Act;
    hide L.Joined;
    hide Loosely;
    hide Tracked;
    hide Has;
    hide P.Outstanding;
    hide P.AllDue;
    hide Units;
    var k: nat :| Answered(states, steps, i, j, d, ch, k);
    OnlyLess(states, steps, i, j, d, ch);
    Monotone(states, steps, i + 1, j, d);
    Monotone(states, steps, j - 1, j, d);
    EitherWay(states, steps, i, d);
    assert Next(states[i], steps[i], states[i + 1]);
    StepIs(states[i], steps[i], states[i + 1], d);
    var x, y, a := Sending(states[i], d), Receiving(states[i], d), steps[i].action;
    StartTracked(x, y, a, Sending(states[i + 1], d), ch, k);
    StartUnits(x, y, a, Sending(states[i + 1], d), ch, k);
    var units, qs := PassUnits(a, k), PassSequences(x, a, k);
    StaysTracked(states, steps, i + 1, j - 1, d, ch, qs, units, x.p.e.time);
    AckArrives(states, steps, j, d, ch, qs, units, x.p.e.time);
    if Open(states[i], d, ch) != {} {
      var u :| u in units;
      assert u in Open(states[i], d, ch) && u !in Open(states[j], d, ch);
    }
  }

  /** The rounds follow one another, from state `i` on. */
  ghost predicate Rounds(states: seq<System>, steps: seq<Step>, rounds: seq<(nat, nat)>, d: Direction, ch: nat)
    requires |states| == |steps| + 1
  {
    && (forall r :: 0 <= r < |rounds| ==> Round(states, steps, rounds[r].0, rounds[r].1, d, ch))
    && (forall r :: 0 < r < |rounds| ==> rounds[r - 1].1 <= rounds[r].0)
  }

  lemma {:induction false} Fewer(states: seq<System>, steps: seq<Step>, rounds: seq<(nat, nat)>, i: nat, j: nat,
                                 d: Direction, ch: nat)
    requires Run(states, steps) && Rounds(states, steps, rounds, d, ch) && i <= j < |states|
    requires Quiet(steps, i, j, d, ch)
    requires ch in Sending(states[i], d).p.e.senders
    requires rounds != [] ==> i <= rounds[0].0 && rounds[|rounds| - 1].1 <= j
    ensures ch in Sending(states[j], d).p.e.senders
    ensures Open(states[j], d, ch) == {} || |Open(states[j], d, ch)| + |rounds| <= |Open(states[i], d, ch)|
    decreases |rounds|
  {
    hide Init;
    hide Next;
    hide Run;
    hide Round;
    hide Open;
    RunLength(states, steps);
    if rounds == [] {
      OnlyLess(states, steps, i, j, d, ch);
      Sums.SubsetSize(Open(states[j], d, ch), Open(states[i], d, ch));
    } else {
      var n := |rounds| - 1;
      var a, b := rounds[n].0, rounds[n].1;
      RoundBounds(states, steps, rounds, n, d, ch);
      Fewer(states, steps, rounds[..n], i, a, d, ch);
      RoundShrinks(states, steps, a, b, d, ch);
      OnlyLess(states, steps, b, j, d, ch);
      Sums.SubsetSize(Open(states[j], d, ch), Open(states[b], d, ch));
      if Open(states[j], d, ch) != {} {
        P.SmallerSet(Open(states[b], d, ch), Open(states[a], d, ch));
      }
    }
  }

  lemma RunLength(states: seq<System>, steps: seq<Step>)
    requires Run(states, steps)
    ensures |states| == |steps| + 1
  {
    hide Init;
    hide Next;
  }

  lemma {:induction false} RoundBounds(states: seq<System>, steps: seq<Step>, rounds: seq<(nat, nat)>, n: nat,
                                       d: Direction, ch: nat)
    requires |states| == |steps| + 1 && Rounds(states, steps, rounds, d, ch) && n < |rounds|
    ensures rounds[0].0 <= rounds[n].0 < rounds[n].1 <= |steps|
    decreases n
  {
    hide Answered;
    if n > 0 {
      RoundBounds(states, steps, rounds, n - 1, d, ch);
    }
  }

  /**
   * A channel delivers: from a state on, as many rounds as units were outstanding leave nothing
   * stored, if no more messages are accepted on it meanwhile; every message is then with the other
   * end, held or handed over, byte for byte.
   */
  lemma Delivers(states: seq<System>, steps: seq<Step>, rounds: seq<(nat, nat)>, i: nat, j: nat, d: Direction, ch: nat)
    requires Run(states, steps) && Rounds(states, steps, rounds, d, ch) && i <= j < |states|
    requires Quiet(steps, i, j, d, ch)
    requires rounds != [] ==> i <= rounds[0].0 && rounds[|rounds| - 1].1 <= j
    requires ch in Sending(states[i], d).p.e.senders && |Open(states[i], d, ch)| <= |rounds|
    ensures ch in Sending(states[j], d).p.e.senders && Sending(states[j], d).p.e.senders[ch].unacked == map[]
    ensures ch in Sending(states[j], d).p.log
    ensures ch in Receiving(states[j], d).p.e.receivers && ch in Receiving(states[j], d).p.delivered
    ensures var r, log := Receiving(states[j], d).p.e.receivers[ch], Sending(states[j], d).p.log[ch];
            var delivered := Receiving(states[j], d).p.delivered[ch];
            forall id :: 0 <= id < |log| ==>
              (id in r.messages && r.messages[id] == log[id]) || L.HandedOver(delivered, id, log[id])
  {
    hide Run;
    hide Rounds;
    hide L.Joined;
    hide Loosely;
    hide P.Outstanding;
    hide S.Inv;
    Fewer(states, steps, rounds, i, j, d, ch);
    EitherWay(states, steps, j, d);
    var x, y := Sending(states[j], d).p, Receiving(states[j], d).p;
    EndFacts(x, y, ch);
    P.NothingOutstanding(x.e.senders[ch]);
    LoggedChannel(x, y, ch);
    DrainedIsThere(states, steps, j, d, ch);
  }

  lemma LoggedChannel(x: L.Peer, y: L.Peer, ch: nat)
    requires L.Joined(x, y) && ch in x.e.senders
    ensures ch in x.log
  {
    hide L.Network;
    hide L.Link;
    hide Endpoints.Inv;
  }
}
