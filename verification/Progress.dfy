/**
 * A reliable channel drains: every loss-free round of a sending pass and the acks for it leaves
 * fewer units outstanding (renet2/src/channel/reliable.rs, `get_packets_to_send` and the acks).
 */
module Progress {
  import opened Base
  import opened Sums
  import opened Slicing
  import opened ReliableSending
  import opened SendPasses
  import Endpoints

  /** The small messages, and the slices of long ones, that are not acked yet. */
  ghost function Outstanding(s: Sender): set<Unit> {
    (set id | id in s.unacked && s.unacked[id].Small? :: Whole(id)) +
    (set id, i | id in s.unacked && s.unacked[id].Sliced? && 0 <= i < |s.unacked[id].acked| &&
        !s.unacked[id].acked[i] :: Part(id, i))
  }

  ghost predicate AllDue(s: Sender, now: nat) {
    forall u :: u in Outstanding(s) ==> Due(s, u, now)
  }

  // ----- The pass

  lemma PassStays(s: Sender, s': Sender, packets: seq<Packet>, sequence: nat, budget: nat, left: nat, now: nat)
    requires Inv(s) && SendPass(s, s', packets, sequence, budget, left, now)
    ensures Inv(s') && Outstanding(s') == Outstanding(s)
  {
    hide PacketsOk;
    hide NoRepeat;
    SendPassInv(s, s', packets, sequence, budget, left, now);
    hide Inv;
  }

  lemma {:induction false} NoUnitsNoBytes(s: Sender, packets: seq<Packet>, sequence: nat)
    requires PacketsOk(s, packets, sequence) && Units(packets) == []
    ensures TotalBytes(packets) == 0
  {
    if packets != [] {
      var front, last := packets[..|packets| - 1], packets[|packets| - 1];
      assert Carries(s, last) && UnitsOf(last) == [];
      NoUnitsNoBytes(s, front, sequence);
    }
  }

  lemma NeedIsASlice(s: Sender, u: Unit)
    requires Inv(s) && u in Outstanding(s)
    ensures u.id in s.unacked && Need(s, u) <= SLICE_SIZE && u.id < s.nextId
  {
    hide Count;
  }

  /** With a slice's worth of budget and everything due, something goes out, and nothing twice. */
  lemma PassEmits(s: Sender, s': Sender, packets: seq<Packet>, sequence: nat, budget: nat, left: nat, now: nat)
    requires Inv(s) && SendPass(s, s', packets, sequence, budget, left, now)
    requires AllDue(s, now) && budget >= SLICE_SIZE
    ensures NoRepeat(Units(packets)) && forall u :: u in Units(packets) ==> u in Outstanding(s)
    ensures Outstanding(s) != {} ==> Units(packets) != []
  {
    hide Inv;
    hide PacketsOk;
    hide TimersOk;
    forall u | u in Units(packets)
      ensures u in Outstanding(s)
    {
      DueIsOutstanding(s, u, now);
    }
    if Outstanding(s) != {} && Units(packets) == [] {
      NoUnitsNoBytes(s, packets, sequence);
      var u :| u in Outstanding(s);
      NeedIsASlice(s, u);
      assert false;
    }
  }

  lemma DueIsOutstanding(s: Sender, u: Unit, now: nat)
    requires Due(s, u, now)
    ensures u in Outstanding(s)
  {
  }

  // ----- Acks

  /** The ack of one packet, as its ledger entry says. */
  ghost predicate AckOk(s: Sender, p: Packet) {
    match p
    case SmallReliable(_, _, messages) => forall id :: id in Endpoints.Ids(messages) ==> MessageAckOk(s, id)
    case ReliableSlice(_, _, slice) => SliceAckOk(s, slice.messageId, slice.sliceIndex)
    case _ => true
  }

  ghost function AckPacket(s: Sender, p: Packet): (s': Sender)
    requires Inv(s) && AckOk(s, p)
    ensures Inv(s')
  {
    match p
    case SmallReliable(_, _, messages) => AckMessages(s, Endpoints.Ids(messages))
    case ReliableSlice(_, _, slice) => AckSlice(s, slice.messageId, slice.sliceIndex)
    case _ => s
  }

  /** It is the effect that striking off the packet's ledger entry has on its channel. */
  lemma AckIsApply(e: Endpoints.Endpoint, p: Packet)
    requires p.SmallReliable? || p.ReliableSlice?
    requires Endpoints.SendersOk(e.senders, e.time) && Endpoints.LedgerOk(e.senders, Endpoints.InfoOf(p))
    ensures AckOk(e.senders[p.channelId], p)
    ensures Endpoints.Apply(e, Endpoints.InfoOf(p)).senders ==
              e.senders[p.channelId := AckPacket(e.senders[p.channelId], p)]
  {
    hide Inv;
    hide SentBefore;
    hide MessageAckOk;
    hide SliceAckOk;
  }

  lemma AckMessagesOutstanding(s: Sender, ids: seq<nat>)
    requires Inv(s) && forall id :: id in ids ==> MessageAckOk(s, id)
    ensures Outstanding(AckMessages(s, ids)) == Outstanding(s) - set id | id in ids :: Whole(id)
  {
    hide Inv;
  }

  lemma AckSliceOutstanding(s: Sender, id: nat, i: nat)
    requires Inv(s) && SliceAckOk(s, id, i)
    ensures Outstanding(AckSlice(s, id, i)) == Outstanding(s) - {Part(id, i)}
  {
    AckSliceEffect(s, id, i);
    hide Inv;
    hide AckSlice;
  }

  /** Acking a packet takes its units, and no others, off what is outstanding. */
  lemma AckOutstanding(s: Sender, p: Packet)
    requires Inv(s) && AckOk(s, p)
    ensures Outstanding(AckPacket(s, p)) == Outstanding(s) - set u | u in UnitsOf(p)
  {
    hide Inv;
    hide AckMessages;
    hide AckSlice;
    hide Outstanding;
    match p
    case SmallReliable(_, _, messages) =>
      var ids := Endpoints.Ids(messages);
      AckMessagesOutstanding(s, ids);
      SameUnits(messages);
    case ReliableSlice(_, _, slice) => AckSliceOutstanding(s, slice.messageId, slice.sliceIndex);
    case _ =>
  }

  lemma SameUnits(messages: seq<(nat, Bytes)>)
    ensures (set id | id in Endpoints.Ids(messages) :: Whole(id)) == (set u | u in Wholes(messages))
  {
    var ids, us := Endpoints.Ids(messages), Wholes(messages);
    forall id | id in ids
      ensures Whole(id) in us
    {
      var k :| 0 <= k < |ids| && ids[k] == id;
      assert us[k] == Whole(id);
    }
    forall u | u in us
      ensures u.Whole? && u.id in ids
    {
      var k :| 0 <= k < |us| && us[k] == u;
      assert ids[k] == u.id;
    }
  }

  /** Acks drop messages or set flags; what they leave, they leave alone. */
  ghost predicate Kept(s: Sender, r: Sender) {
    && r == s.(unacked := r.unacked, memory := r.memory)
    && forall id :: id in r.unacked ==> id in s.unacked && FlagsOnly(s.unacked[id], r.unacked[id])
  }

  ghost predicate FlagsOnly(u: UnackedMessage, u': UnackedMessage) {
    || u' == u
    || (u.Sliced? && u'.Sliced? && u' == u.(acked := u'.acked, numAcked := u'.numAcked) && |u'.acked| == |u.acked|)
  }

  lemma AckKeeps(s: Sender, p: Packet)
    requires Inv(s) && AckOk(s, p)
    ensures Kept(s, AckPacket(s, p))
  {
    hide Inv;
  }

  lemma KeptTwice(s: Sender, r: Sender, t: Sender)
    requires Kept(s, r) && Kept(r, t)
    ensures Kept(s, t)
  {
  }

  lemma CarriedAckOk(s: Sender, r: Sender, p: Packet)
    requires Carries(s, p) && Kept(s, r) && Inv(s)
    ensures AckOk(r, p)
  {
    hide Count;
    if p.SmallReliable? {
      var ids := Endpoints.Ids(p.messages);
      forall id | id in ids
        ensures MessageAckOk(r, id)
      {
        var k :| 0 <= k < |ids| && ids[k] == id;
        assert p.messages[k].0 == id;
      }
    }
  }

  ghost predicate CarriesEach(s: Sender, packets: seq<Packet>) {
    forall k :: 0 <= k < |packets| ==> Carries(s, packets[k])
  }

  /** The channel once every packet has been acked. */
  ghost function AckPackets(s: Sender, packets: seq<Packet>): (r: Sender)
    requires Inv(s) && CarriesEach(s, packets)
    ensures Inv(r) && Kept(s, r)
    decreases |packets|
  {
    if packets == [] then s
    else
      var front := AckPackets(s, packets[..|packets| - 1]);
      var last := packets[|packets| - 1];
      CarriedAckOk(s, front, last);
      AckKeeps(front, last);
      KeptTwice(s, front, AckPacket(front, last));
      AckPacket(front, last)
  }

  lemma {:induction false} AckedOutstanding(s: Sender, packets: seq<Packet>)
    requires Inv(s) && CarriesEach(s, packets)
    ensures Outstanding(AckPackets(s, packets)) == Outstanding(s) - set u | u in Units(packets)
    decreases |packets|
  {
    hide Inv;
    hide Kept;
    hide UnitsOf;
    hide Outstanding;
    hide AckPacket;
    hide Carries;
    hide AckOk;
    if packets != [] {
      var last := packets[|packets| - 1];
      var front := packets[..|packets| - 1];
      AckedOutstanding(s, front);
      CarriedAckOk(s, AckPackets(s, front), last);
      AckOutstanding(AckPackets(s, front), last);
    }
  }

  // ----- Rounds

  lemma PassCarries(s: Sender, s': Sender, packets: seq<Packet>, sequence: nat, budget: nat, left: nat, now: nat)
    requires SendPass(s, s', packets, sequence, budget, left, now)
    ensures CarriesEach(s', packets)
  {
    hide SentOk;
  }

  /** A pass whose packets all arrive and are all acked. */
  ghost predicate LossFree(s: Sender, r: Sender, budget: nat, now: nat) {
    Inv(s) && exists s', packets, sequence, left ::
      SendPass(s, s', packets, sequence, budget, left, now) && AckedAs(s, s', packets, sequence, budget, left, now, r)
  }

  ghost predicate AckedAs(s: Sender, s': Sender, packets: seq<Packet>, sequence: nat, budget: nat, left: nat, now: nat,
                          r: Sender)
    requires Inv(s) && SendPass(s, s', packets, sequence, budget, left, now)
  {
    PassStays(s, s', packets, sequence, budget, left, now);
    PassCarries(s, s', packets, sequence, budget, left, now);
    r == AckPackets(s', packets)
  }

  /** What did not go out keeps its timers, so it stays due. */
  lemma StillDue(s: Sender, s': Sender, r: Sender, u: Unit, sent: seq<Unit>, now: nat, later: nat)
    requires TimersOk(s, s'.unacked, sent, now) && s' == s.(unacked := s'.unacked) && Kept(s', r)
    requires u in Outstanding(r) && u !in sent && Due(s, u, now) && now <= later
    ensures Due(r, u, later)
  {
  }

  /** A loss-free round leaves fewer units outstanding, all of them still due. */
  lemma RoundShrinks(s: Sender, r: Sender, budget: nat, now: nat, later: nat)
    requires LossFree(s, r, budget, now) && AllDue(s, now) && budget >= SLICE_SIZE && now <= later
    ensures Inv(r) && AllDue(r, later)
    ensures Outstanding(r) <= Outstanding(s)
    ensures Outstanding(s) != {} ==> Outstanding(r) != Outstanding(s)
  {
    hide Inv;
    hide Outstanding;
    hide Units;
    hide Due;
    hide Kept;
    hide CarriesEach;
    hide PacketsOk;
    hide TimersOk;
    hide AckPackets;
    var s', packets, sequence, left :|
      SendPass(s, s', packets, sequence, budget, left, now) && AckedAs(s, s', packets, sequence, budget, left, now, r);
    PassStays(s, s', packets, sequence, budget, left, now);
    PassCarries(s, s', packets, sequence, budget, left, now);
    PassEmits(s, s', packets, sequence, budget, left, now);
    AckedOutstanding(s', packets);
    var sent := Units(packets);
    assert forall u :: u in Outstanding(r) <==> u in Outstanding(s) && u !in sent;
    if Outstanding(s) != {} {
      assert sent[0] in Outstanding(s) && sent[0] !in Outstanding(r);
    }
    forall u | u in Outstanding(r)
      ensures Due(r, u, later)
    {
      StillDue(s, s', r, u, sent, now, later);
    }
  }

  lemma StoredIsOutstanding(s: Sender, id: nat)
    requires Inv(s) && id in s.unacked
    ensures Outstanding(s) != {}
  {
    match s.unacked[id]
    case Small(_, _) =>
      assert Whole(id) in Outstanding(s);
    case Sliced(_, _, _, _, acked, _) =>
      CountFull(acked);
      var i :| 0 <= i < |acked| && !acked[i];
      assert Part(id, i) in Outstanding(s);
  }

  lemma NothingOutstanding(s: Sender)
    requires Inv(s) && Outstanding(s) == {}
    ensures s.unacked == map[] && s.memory == 0
  {
    if s.unacked.Keys == {} {
      assert Lengths(s.unacked) == map[];
    } else {
      var id :| id in s.unacked;
      StoredIsOutstanding(s, id);
    }
  }

  lemma SmallerSet(a: set<Unit>, b: set<Unit>)
    requires a <= b && a != b
    ensures |a| < |b|
  {
    var x :| x in b && x !in a;
    assert a <= b - {x};
    SubsetSize(a, b - {x});
  }

  /**
   * A channel drains: from a state where everything is due, as many loss-free rounds as there are
   * units outstanding leave nothing stored.
   */
  lemma {:induction false} Drains(states: seq<Sender>, budgets: seq<nat>, times: seq<nat>)
    requires |budgets| == |times| == |states| - 1 && Inv(states[0])
    requires forall k :: 0 <= k < |states| - 1 ==> LossFree(states[k], states[k + 1], budgets[k], times[k])
    requires forall k :: 0 <= k < |budgets| ==> budgets[k] >= SLICE_SIZE
    requires forall j, k :: 0 <= j < k < |times| ==> times[j] <= times[k]
    requires |times| > 0 ==> AllDue(states[0], times[0])
    requires |Outstanding(states[0])| < |states|
    ensures Inv(states[|states| - 1])
    ensures states[|states| - 1].unacked == map[] && states[|states| - 1].memory == 0
    decreases |states|
  {
    hide Inv;
    hide LossFree;
    hide Outstanding;
    hide AllDue;
    if |states| == 1 {
      NothingOutstanding(states[0]);
    } else {
      var later := if |times| > 1 then times[1] else times[0];
      RoundShrinks(states[0], states[1], budgets[0], times[0], later);
      if Outstanding(states[0]) != {} {
        SmallerSet(Outstanding(states[1]), Outstanding(states[0]));
      }
      Drains(states[1..], budgets[1..], times[1..]);
    }
  }
}
