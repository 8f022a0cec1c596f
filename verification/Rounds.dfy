/**
 * Slices of a message take turns: a pass sends them in order, and those that had to wait come first
 * in the next one (renet2/src/channel/reliable.rs, `get_packets_to_send`).
 */
module SliceRounds {
  import opened Base
  import opened Sums
  import opened Slicing
  import opened SendPasses
  import opened GreedyPasses
  import opened ReliableSendChannel
  import S = ReliableSending

  // ----- What is picked stays in line

  lemma {:induction false} PickedFrom(s: S.Sender, queue: seq<Unit>, budget: nat)
    requires forall u :: u in queue ==> u.id in s.unacked
    ensures forall u :: u in Pick(s, queue, budget).0 ==> u in queue
  {
    if queue != [] {
      PickedFrom(s, queue[..|queue| - 1], budget);
    }
  }

  lemma InLineFront(s: S.Sender, front: seq<Unit>, last: Unit)
    requires InLine(s, front + [last])
    ensures InLine(s, front) && forall u :: u in front ==> Earlier(s, u, last)
  {
    hide Earlier;
    var us := front + [last];
    forall p, q | 0 <= p < q < |front|
      ensures Earlier(s, front[p], front[q])
    {
      assert Earlier(s, us[p], us[q]);
    }
    forall u | u in front
      ensures Earlier(s, u, last)
    {
      var p :| 0 <= p < |front| && front[p] == u;
      assert Earlier(s, us[p], us[|front|]);
    }
  }

  lemma InLineSnoc(s: S.Sender, us: seq<Unit>, u: Unit)
    requires InLine(s, us) && forall v :: v in us ==> Earlier(s, v, u)
    ensures InLine(s, us + [u])
  {
    hide Earlier;
    assert forall p :: 0 <= p < |us| ==> us[p] in us;
    OneInLine(s, u);
    InLineJoined(s, us, [u]);
  }

  lemma {:induction false} PickInLine(s: S.Sender, queue: seq<Unit>, budget: nat)
    requires InLine(s, queue) && forall u :: u in queue ==> u.id in s.unacked
    ensures InLine(s, Pick(s, queue, budget).0)
  {
    hide InLine;
    hide Earlier;
    if queue == [] {
      NoneInLine(s);
    } else {
      assert queue == queue[..|queue| - 1] + [queue[|queue| - 1]];
      InLineFront(s, queue[..|queue| - 1], queue[|queue| - 1]);
      PickInLine(s, queue[..|queue| - 1], budget);
      PickedFrom(s, queue[..|queue| - 1], budget);
      InLineSnoc(s, Pick(s, queue[..|queue| - 1], budget).0, queue[|queue| - 1]);
    }
  }

  lemma {:induction false} PartsAre(us: seq<Unit>)
    ensures forall u :: u in Only(us, true) <==> u in us && u.Part?
  {
    if us != [] {
      PartsAre(us[..|us| - 1]);
      assert us == us[..|us| - 1] + [us[|us| - 1]];
    }
  }

  lemma {:induction false} OnlyInLine(s: S.Sender, us: seq<Unit>)
    requires InLine(s, us)
    ensures InLine(s, Only(us, true))
  {
    hide InLine;
    hide Earlier;
    if us == [] {
      NoneInLine(s);
    } else {
      assert us == us[..|us| - 1] + [us[|us| - 1]];
      InLineFront(s, us[..|us| - 1], us[|us| - 1]);
      OnlyInLine(s, us[..|us| - 1]);
      PartsAre(us[..|us| - 1]);
      InLineSnoc(s, Only(us[..|us| - 1], true), us[|us| - 1]);
      assert Only(us[..|us| - 1], true) + [] == Only(us[..|us| - 1], true);
    }
  }

  lemma {:induction false} LastOfOnly(us: seq<Unit>, id: nat)
    ensures LastPart(Only(us, true), id) == LastPart(us, id)
  {
    if us != [] {
      var front, u := us[..|us| - 1], us[|us| - 1];
      LastOfOnly(front, id);
      if u.Part? {
        assert (Only(front, true) + [u])[..|Only(front, true)|] == Only(front, true);
      } else {
        assert Only(front, true) + [] == Only(front, true);
      }
    }
  }

  lemma {:induction false} LastComesLast(s: S.Sender, us: seq<Unit>, id: nat, v: Unit)
    requires InLine(s, us) && v in us && v.Part? && v.id == id
    ensures LastPart(us, id).Some?
    ensures v.index == LastPart(us, id).value || Earlier(s, v, Part(id, LastPart(us, id).value))
  {
    hide InLine;
    hide Earlier;
    var front, u := us[..|us| - 1], us[|us| - 1];
    assert us == front + [u];
    InLineFront(s, front, u);
    if !(u.Part? && u.id == id) {
      LastComesLast(s, front, id, v);
    }
  }

  // ----- What had to wait

  /** A slice that is not picked leaves less than a slice of budget. */
  lemma {:induction false} WaitsForBudget(s: S.Sender, queue: seq<Unit>, budget: nat, u: Unit)
    requires (forall v :: v in queue ==> v.id in s.unacked) && u in queue && u !in Pick(s, queue, budget).0
    requires u.Part? && Cost(s, u) <= SLICE_SIZE
    ensures Pick(s, queue, budget).1 < SLICE_SIZE
  {
    hide Cost;
    var front, w := queue[..|queue| - 1], queue[|queue| - 1];
    assert queue == front + [w];
    if u in front && u !in Pick(s, front, budget).0 {
      WaitsForBudget(s, front, budget, u);
    }
  }

  /** All slices that are picked come before those that are not. */
  lemma {:induction false} WaitsBehind(s: S.Sender, queue: seq<Unit>, budget: nat, u: Unit, v: Unit)
    requires InLine(s, queue) && forall w :: w in queue ==> w.id in s.unacked
    requires u in queue && u !in Pick(s, queue, budget).0 && u.Part? && Cost(s, u) <= SLICE_SIZE
    requires v in Pick(s, queue, budget).0 && v.Part?
    ensures Earlier(s, v, u)
  {
    hide InLine;
    hide Earlier;
    hide Cost;
    var front, w := queue[..|queue| - 1], queue[|queue| - 1];
    assert queue == front + [w];
    InLineFront(s, front, w);
    PickedFrom(s, front, budget);
    if u in front {
      assert u !in Pick(s, front, budget).0;
      WaitsForBudget(s, front, budget, u);
      WaitsBehind(s, front, budget, u, v);
    } else {
      assert v in front;
    }
  }

  // ----- The next round

  /** Going round without division. */
  lemma AheadForm(x: nat, start: nat, n: nat)
    requires x < n && start <= n
    ensures (x + n - start) % n == if start == n then x else if x >= start then x - start else x + n - start
  {
    if x >= start {
      ModOnce(x + n - start, n);
    }
  }

  lemma StartsBehind(a: nat, b: nat, last: nat, start: nat, n: nat)
    requires a < n && b < n && last < n && start <= n
    requires (b + n - start) % n <= (last + n - start) % n < (a + n - start) % n
    ensures (a + n - (last + 1)) % n < (b + n - (last + 1)) % n
  {
    AheadForm(a, start, n);
    AheadForm(b, start, n);
    AheadForm(last, start, n);
    AheadForm(a, last + 1, n);
    AheadForm(b, last + 1, n);
  }

  /** In a pass the slices of a message go out in the order of the queue. */
  lemma SlicesGoInLine(s: S.Sender, packets: seq<Packet>, budget: nat, left: nat, now: nat)
    requires S.Inv(s) && Greedy(s, packets, budget, left, now)
    ensures InLine(s, Only(Units(packets), true))
  {
    hide S.Inv;
    hide InLine;
    hide Only;
    hide Pick;
    hide Units;
    var queue := Queue(s, s.nextId, now);
    QueueInLine(s, s.nextId, now);
    PickInLine(s, queue, budget);
    OnlyInLine(s, Pick(s, queue, budget).0);
  }

  lemma SentIsPicked(s: S.Sender, packets: seq<Packet>, budget: nat, left: nat, now: nat, u: Unit)
    requires Greedy(s, packets, budget, left, now)
    ensures u in Units(packets) <==> u in Pick(s, Queue(s, s.nextId, now), budget).0
  {
    hide Pick;
    hide Queue;
    hide Units;
    OnlyIs(Units(packets));
    OnlyIs(Pick(s, Queue(s, s.nextId, now), budget).0);
    hide Only;
    assert u in Units(packets) <==> u in multiset(Units(packets));
  }

  /**
   * Slices of a message take turns: one that was due and had to wait comes, in the next round, before
   * every one that went out.
   */
  lemma WaitingComesFirst(s: S.Sender, s': S.Sender, packets: seq<Packet>, sequence: nat, budget: nat, left: nat,
                          now: nat, id: nat, x: nat, y: nat)
    requires S.Inv(s) && SendPass(s, s', packets, sequence, budget, left, now) && Greedy(s, packets, budget, left, now)
    requires Due(s, Part(id, x), now) && Part(id, x) !in Units(packets) && Part(id, y) in Units(packets)
    ensures Earlier(s', Part(id, x), Part(id, y))
  {
    hide Greedy;
    hide InLine;
    hide Earlier;
    hide PacketsOk;
    hide NoRepeat;
    hide TimersOk;
    KeptSlices(s, id, x, now);
    KeptSlices(s, id, y, now);
    var last := LastSlice(s, s', packets, sequence, budget, left, now, id, y);
    KeptSlices(s, id, last, now);
    WaitsBehindLast(s, packets, budget, left, now, id, x, last);
    TurnsTaken(s, s', id, x, y, last);
  }

  lemma TurnsTaken(s: S.Sender, s': S.Sender, id: nat, x: nat, y: nat, last: nat)
    requires IsSlice(s, Part(id, x), id) && x < s.unacked[id].numSlices && y < s.unacked[id].numSlices
    requires last < s.unacked[id].numSlices && Earlier(s, Part(id, last), Part(id, x))
    requires y == last || Earlier(s, Part(id, y), Part(id, last))
    requires id in s'.unacked && s'.unacked[id].Sliced? && s'.unacked[id].nextSlice == last + 1
    requires s'.unacked[id].numSlices == s.unacked[id].numSlices
    ensures Earlier(s', Part(id, x), Part(id, y))
  {
    var n, start := s.unacked[id].numSlices, s.unacked[id].nextSlice;
    assert Ahead(s, Part(id, y)) <= Ahead(s, Part(id, last)) < Ahead(s, Part(id, x));
    StartsBehind(x, y, last, start, n);
  }

  /** The round goes on after the last slice that went out. */
  lemma LastSlice(s: S.Sender, s': S.Sender, packets: seq<Packet>, sequence: nat, budget: nat, left: nat, now: nat,
                  id: nat, y: nat) returns (last: nat)
    requires S.Inv(s) && SendPass(s, s', packets, sequence, budget, left, now) && Greedy(s, packets, budget, left, now)
    requires Part(id, y) in Units(packets) && id in s.unacked && s.unacked[id].Sliced?
    ensures Part(id, last) in Units(packets) && (y == last || Earlier(s, Part(id, y), Part(id, last)))
    ensures id in s'.unacked && s'.unacked[id].Sliced? && s'.unacked[id].nextSlice == last + 1
    ensures s'.unacked[id].numSlices == s.unacked[id].numSlices
  {
    hide S.Inv;
    hide Greedy;
    hide Earlier;
    hide InLine;
    SlicesGoInLine(s, packets, budget, left, now);
    var us := Units(packets);
    LastOfOnly(us, id);
    PartsAre(us);
    LastComesLast(s, Only(us, true), id, Part(id, y));
    last := LastPart(us, id).value;
    assert Stamped(s.unacked[id], s'.unacked[id], id, us, now);
  }

  lemma WaitsBehindLast(s: S.Sender, packets: seq<Packet>, budget: nat, left: nat, now: nat, id: nat, x: nat, last: nat)
    requires S.Inv(s) && Greedy(s, packets, budget, left, now)
    requires Due(s, Part(id, x), now) && Part(id, x) !in Units(packets) && Part(id, last) in Units(packets)
    ensures Earlier(s, Part(id, last), Part(id, x))
  {
    var queue := Queue(s, s.nextId, now);
    KeptSlices(s, id, x, now);
    QueueIsDue(s, s.nextId, Part(id, x), now);
    QueueInLine(s, s.nextId, now);
    SentIsPicked(s, packets, budget, left, now, Part(id, x));
    SentIsPicked(s, packets, budget, left, now, Part(id, last));
    hide S.Inv;
    hide InLine;
    hide Pick;
    hide Queue;
    hide Units;
    hide Due;
    hide Only;
    WaitsBehind(s, queue, budget, Part(id, x), Part(id, last));
  }

  lemma KeptSlices(s: S.Sender, id: nat, x: nat, now: nat)
    requires S.Inv(s) && Due(s, Part(id, x), now)
    ensures id < s.nextId && IsSlice(s, Part(id, x), id) && x < s.unacked[id].numSlices
    ensures Cost(s, Part(id, x)) <= SLICE_SIZE
  {
    hide Count;
    KeptAt(s, id);
    SliceBounds(s.unacked[id].message, x);
  }
}
