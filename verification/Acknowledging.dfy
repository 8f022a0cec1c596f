/**
 * Which packets are waiting to be acked: those that arrived, until the other end is known to have
 * an ack for them or a later one (renet2/src/remote_connection.rs).
 */
module Acknowledging {
  import opened Base
  import opened AckRanges
  import opened SendPasses
  import opened ChannelTurns
  import opened Endpoints
  import opened Connections
  import opened Delivery
  import S = ReliableSending
  import R = ReliableReceiving
  import L = ReliableLinks

  /** The sequence lies above all that the list names. */
  ghost predicate Above(rs: seq<Range>, k: nat) {
    forall n: nat :: Has(rs, n) ==> n < k
  }

  lemma LargestNamed(rs: seq<Range>, k: nat)
    requires Normal(rs) && rs != []
    ensures 0 < rs[|rs| - 1].end && (rs[|rs| - 1].end - 1 < k <==> Above(rs, k))
  {
    var last := rs[|rs| - 1];
    assert InRange(last, last.end - 1);
    assert Has(rs, last.end - 1);
    forall n: nat | Has(rs, n)
      ensures n < last.end
    {
      var i :| 0 <= i < |rs| && InRange(rs[i], n);
      assert i < |rs| - 1 ==> rs[i].end < last.start;
    }
  }

  /** Once an ack packet is acked, nothing that it named, nor anything below that, is waiting any more. */
  lemma AckOnePending(e: Endpoint, q: nat, p: Packet, k: nat)
    requires Endpoints.Inv(e) && q in e.sent
    requires (p.Ack? ==> p.ackRanges != [] && Normal(p.ackRanges)) && e.sent[q].info == InfoOf(p)
    ensures Has(AckOne(e, q).pendingAcks, k) <==> Has(e.pendingAcks, k) && (p.Ack? ==> Above(p.ackRanges, k))
  {
    InvParts(e, q);
    hide Endpoints.Inv;
    hide SendersOk;
    hide LedgerOk;
    hide Has;
    hide Above;
    if p.Ack? {
      LargestNamed(p.ackRanges, k);
      TrimTrims(e.pendingAcks, p.ackRanges[|p.ackRanges| - 1].end - 1);
    }
    hide Normal;
  }

  /** None of the packets struck off is an ack packet that names the sequence or a later one. */
  ghost predicate NoneNames(out: map<nat, Packet>, qs: seq<nat>, k: nat) {
    forall q :: q in qs && q in out && out[q].Ack? ==> Above(out[q].ackRanges, k)
  }

  lemma {:induction false} AckAllPending(e: Endpoint, qs: seq<nat>, out: map<nat, Packet>, k: nat)
    requires Endpoints.Inv(e) && Ascending(qs) && (forall q :: q in qs ==> q in e.sent) && Known(e, out)
    ensures Has(AckAll(e, qs).pendingAcks, k) <==> Has(e.pendingAcks, k) && NoneNames(out, qs, k)
    decreases |qs|
  {
    hide Endpoints.Inv;
    hide Has;
    hide Above;
    hide AckOne;
    hide Normal;
    if qs == [] {
      AckAllDone(e);
    } else {
      AckAllStep(e, qs);
      AckOnePending(e, qs[0], out[qs[0]], k);
      AckAllPending(AckOne(e, qs[0]), qs[1..], out, k);
      assert forall q :: q in qs <==> q == qs[0] || q in qs[1..];
      hide AckAll;
    }
  }

  /**
   * After a packet has been taken in, exactly these are waiting: itself and those that were, without
   * the lowest range if the list was full, and without what acked ack packets named or passed.
   */
  lemma DeliverPending(x: L.Peer, y: L.Peer, q: nat, pending: seq<Range>, acks: seq<nat>, x': L.Peer, k: nat)
    requires L.Joined(x, y) && L.Delivers(x, y, q, pending, acks, x') && x'.e.connected
    ensures Has(x'.e.pendingAcks, k) <==>
              && (|| k == q
                  || (Has(x.e.pendingAcks, k) && !(Evicts(x.e.pendingAcks, q) && InRange(x.e.pendingAcks[0], k))))
              && (y.out[q].Ack? ==> NoneNames(x.out, acks, k))
  {
    hide L.Joined;
    hide NoneNames;
    hide ProcessMessages;
    hide Has;
    hide Normal;
    L.PacketFacts(x, y, q);
    EndFacts(x, y, 0);
    hide Endpoints.Inv;
    hide AckAll;
    if y.out[q].Ack? {
      AckAllPending(x.e.(pendingAcks := pending), acks, x.out, k);
    }
  }

  lemma KeptPending(x: L.Peer, y: L.Peer, a: L.Action, x': L.Peer)
    requires L.Act(x, y, a, x') && !a.Deliver?
    ensures x'.e.pendingAcks == x.e.pendingAcks
  {
    hide Endpoints.Inv;
    hide Normal;
    hide PacketFrom;
    hide TimersOnly;
  }

  predicate IsAck(x: L.Peer, q: nat, rs: seq<Range>) {
    q in x.out && x.out[q].Ack? && x.out[q].ackRanges == rs
  }

  /** What is waiting is all named by the ack packet that ends the next transmission. */
  lemma TransmitNames(x: Node, y: Node, a: Action, x': Node)
    requires Act(x, y, a, x') && a.Transmit? && x'.p.e.connected && x.p.e.pendingAcks != []
    ensures |a.packets| > 0 && IsAck(x'.p, x.p.e.sequence + |a.packets| - 1, x.p.e.pendingAcks)
  {
    hide Act;
    hide L.Transmits;
    hide Transmits;
    hide Endpoints.Inv;
    BothTransmit(x, y, a, x');
    AckComesLast(x, a.packets, a.order, a.stages, x');
    TransmittedAt(x.p, a.packets, x'.p, |a.packets| - 1);
    AckIsPending(x.p, a.packets, x'.p, |a.packets| - 1);
  }

  lemma AckComesLast(x: Node, packets: seq<Packet>, order: seq<ChannelOrder>, stages: seq<Stage>, x': Node)
    requires Transmits(x, packets, order, stages, x') && x.p.e.pendingAcks != []
    ensures |packets| > 0 && packets[|packets| - 1].Ack?
  {
    hide Turns;
  }

  lemma AckIsPending(x: L.Peer, packets: seq<Packet>, x': L.Peer, i: nat)
    requires L.Transmits(x, packets, x') && i < |packets| && packets[i].Ack?
    ensures packets[i].ackRanges == x.e.pendingAcks
  {
    hide Recorded;
    hide TimersOnly;
    assert PacketFrom(x.e, packets[i]);
  }

  // ----- Over runs

  /** Nothing that is taken in from step `i` up to step `j` pushes the sequence out, or acks an ack of a later one. */
  ghost predicate Unbroken(states: seq<System>, steps: seq<Step>, i: nat, j: nat, d: Direction, k: nat)
    requires |states| == |steps| + 1
  {
    forall n :: i <= n < j && n < |steps| && Sends(steps[n], d) && steps[n].action.Deliver? ==>
      && !Evicts(Sending(states[n], d).p.e.pendingAcks, steps[n].action.q)
      && NoneNames(Sending(states[n], d).p.out, steps[n].action.acks, k)
  }

  lemma {:induction false} StaysPending(states: seq<System>, steps: seq<Step>, i: nat, j: nat, d: Direction, k: nat)
    requires Run(states, steps) && i <= j < |states| && Unbroken(states, steps, i, j, d, k)
    requires Has(Sending(states[i], d).p.e.pendingAcks, k) && Sending(states[j], d).p.e.connected
    ensures Has(Sending(states[j], d).p.e.pendingAcks, k)
    decreases j
  {
    hide Init;
    hide Act;
    hide L.Act;
    hide L.Joined;
    hide Loosely;
    hide Has;
    hide NoneNames;
    if i < j {
      Monotone(states, steps, j - 1, j, d);
      StaysPending(states, steps, i, j - 1, d, k);
      EitherWay(states, steps, j - 1, d);
      assert Next(states[j - 1], steps[j - 1], states[j]);
      StepIs(states[j - 1], steps[j - 1], states[j], d);
      if Sends(steps[j - 1], d) {
        var x, y, a := Sending(states[j - 1], d), Receiving(states[j - 1], d), steps[j - 1].action;
        if a.Deliver? {
          DeliversOf(x, y, a, Sending(states[j], d));
          DeliverPending(x.p, y.p, a.q, a.pending, a.acks, Sending(states[j], d).p, k);
        } else {
          Projected(x, y, a, Sending(states[j], d));
          if Sending(states[j], d).p != x.p {
            KeptPending(x.p, y.p, Project(a), Sending(states[j], d).p);
          }
        }
      }
    }
  }

  /**
   * In every run, a packet that is taken in at step `i` is named by the ack that goes out with the
   * transmission at step `j`, unless it was pushed out of the list or a later ack was acked meanwhile.
   */
  lemma ArrivalIsAcked(states: seq<System>, steps: seq<Step>, i: nat, j: nat, d: Direction, q: nat)
    requires Run(states, steps) && i < j < |steps| && Sends(steps[i], d) && Sends(steps[j], d)
    requires steps[i].action.Deliver? && steps[i].action.q == q && steps[j].action.Transmit?
    requires Sending(states[j + 1], d).p.e.connected && Unbroken(states, steps, i, j, d, q)
    ensures var x' := Sending(states[j + 1], d).p;
            exists n :: n in x'.out && x'.out[n].Ack? && Has(x'.out[n].ackRanges, q)
  {
    hide Init;
    hide Act;
    hide L.Act;
    hide L.Joined;
    hide Loosely;
    hide NoneNames;
    Monotone(states, steps, j, j + 1, d);
    Monotone(states, steps, i + 1, j, d);
    EitherWay(states, steps, i, d);
    assert Next(states[i], steps[i], states[i + 1]);
    StepIs(states[i], steps[i], states[i + 1], d);
    var a := steps[i].action;
    DeliversOf(Sending(states[i], d), Receiving(states[i], d), a, Sending(states[i + 1], d));
    DeliverPending(Sending(states[i], d).p, Receiving(states[i], d).p, q, a.pending, a.acks,
                   Sending(states[i + 1], d).p, q);
    hide Unbroken;
    LaterUnbroken(states, steps, i, j, d, q);
    StaysPending(states, steps, i + 1, j, d, q);
    assert Next(states[j], steps[j], states[j + 1]);
    StepIs(states[j], steps[j], states[j + 1], d);
    var x := Sending(states[j], d);
    assert x.p.e.pendingAcks != [];
    TransmitNames(x, Receiving(states[j], d), steps[j].action, Sending(states[j + 1], d));
  }

  lemma LaterUnbroken(states: seq<System>, steps: seq<Step>, i: nat, j: nat, d: Direction, k: nat)
    requires |states| == |steps| + 1 && Unbroken(states, steps, i, j, d, k)
    ensures Unbroken(states, steps, i + 1, j, d, k)
  {
    hide NoneNames;
    hide Evicts;
  }

  // ----- A packet that is never acked

  /**
   * Packet 1 arrives and an ack for it goes out; packet 0 arrives late, and then the ack of that ack:
   * packet 0 is forgotten, though no ack ever named it.
   */
  lemma LateArrivalForgotten(e0: Endpoint) returns (e1: Endpoint, e2: Endpoint, e3: Endpoint, e4: Endpoint)
    requires New(e0) && e0.senders == map[]
    ensures Process(e0, SmallUnreliable(1, 0, []), [Range(1, 2)], [], e1)
    ensures Flush(e1, [Ack(0, [Range(1, 2)])], e2)
    ensures Process(e2, SmallUnreliable(0, 0, []), [Range(0, 2)], [], e3)
    ensures Process(e3, Ack(2, [Range(0, 1)]), [Range(0, 3)], [0], e4)
    ensures e4.connected && e4.pendingAcks == [Range(2, 3)]
  {
    NewInv(e0);
    e1 := e0.(pendingAcks := [Range(1, 2)]);
    FirstAdded();
    PendingStay(e0, [Range(1, 2)]);
    var ack := Ack(0, [Range(1, 2)]);
    e2 := e1.(sequence := 1, sent := map[0 := PacketSent(e1.time, AckInfo(1))]);
    assert Flush(e1, [ack], e2);
    FlushInv(e1, [ack], e2);
    e3, e4 := Late(e2);
  }

  lemma Late(e2: Endpoint) returns (e3: Endpoint, e4: Endpoint)
    requires Endpoints.Inv(e2) && e2.connected && e2.pendingAcks == [Range(1, 2)]
    requires e2.sent.Keys == {0} && e2.sent[0].info == AckInfo(1)
    ensures Process(e2, SmallUnreliable(0, 0, []), [Range(0, 2)], [], e3)
    ensures Process(e3, Ack(2, [Range(0, 1)]), [Range(0, 3)], [0], e4)
    ensures e4.connected && e4.pendingAcks == [Range(2, 3)]
  {
    e3 := e2.(pendingAcks := [Range(0, 2)]);
    PendingStay(e2, [Range(0, 2)]);
    PendingStay(e2, [Range(0, 3)]);
    MoreAdded();
    hide Endpoints.Inv;
    hide Added;
    var e := e3.(pendingAcks := [Range(0, 3)]);
    AckAllStep(e, [0]);
    AckAllDone(AckOne(e, [0][0]));
    assert [0][1..] == [];
    e4 := AckAll(e, [0]);
    assert Trim([Range(0, 3)], 1) == [Range(2, 3)];
    NewAck(e3.sent);
  }

  lemma NewAck(sent: map<nat, PacketSent>)
    requires sent.Keys == {0}
    ensures IsNewAcks(sent, [Range(0, 1)], [0])
  {
    assert InRange([Range(0, 1)][0], 0);
  }

  lemma FirstAdded()
    ensures Normal([Range(1, 2)]) && Added([], 1, [Range(1, 2)])
  {
    assert forall q: nat :: Has([Range(1, 2)], q) <==> InRange([Range(1, 2)][0], q);
  }

  lemma MoreAdded()
    ensures Normal([Range(0, 2)]) && Added([Range(1, 2)], 0, [Range(0, 2)])
    ensures Normal([Range(0, 3)]) && Added([Range(0, 2)], 2, [Range(0, 3)])
  {
    assert forall q: nat :: Has([Range(1, 2)], q) <==> InRange([Range(1, 2)][0], q);
    assert forall q: nat :: Has([Range(0, 2)], q) <==> InRange([Range(0, 2)][0], q);
    assert forall q: nat :: Has([Range(0, 3)], q) <==> InRange([Range(0, 3)][0], q);
  }
}
