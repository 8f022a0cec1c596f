/** Packet counts over a sliding window (renet2/src/connection_stats.rs). */
module LossStats {
  import opened Base
  import opened Sums

  /** Times are in nanoseconds, the window is counted in milliseconds. */
  const NANOS_PER_MILLI: nat := 1_000_000
  const RESOLUTION_MS: nat := 300
  const WINDOW_MS: nat := 6000
  const SIZE: nat := 20

  datatype Stats = Stats(sent: seq<nat>, acked: seq<nat>, current: nat)

  predicate Shaped(st: Stats) {
    |st.sent| == |st.acked| == SIZE && st.current < SIZE
  }

  /** The bucket before folding: how many resolutions have passed. */
  function Tick(time: nat): nat {
    time / NANOS_PER_MILLI / RESOLUTION_MS
  }

  function Index(time: nat): (i: nat)
    ensures i < SIZE
  {
    Tick(time) % SIZE
  }

  function Empty(): Stats {
    Stats(seq(SIZE, _ => 0), seq(SIZE, _ => 0), 0)
  }

  function Updated(st: Stats, time: nat): Stats
    requires Shaped(st)
  {
    var i := Index(time);
    if st.current == i then st else Stats(st.sent[i := 0], st.acked[i := 0], i)
  }

  function WithSent(st: Stats, n: nat): Stats
    requires Shaped(st)
  {
    st.(sent := st.sent[st.current := st.sent[st.current] + n])
  }

  function WithAcked(st: Stats, sentAt: nat, now: nat): Stats
    requires Shaped(st)
  {
    if now - sentAt > WINDOW_MS * NANOS_PER_MILLI then st
    else st.(acked := st.acked[Index(sentAt) := st.acked[Index(sentAt)] + 1])
  }

  function Sum(s: seq<nat>): nat {
    if s == [] then 0 else Sum(s[..|s| - 1]) + s[|s| - 1]
  }

  /** The buckets that count: all but the current one and the two before it. */
  function Settled(s: seq<nat>, current: nat): (r: seq<nat>)
    requires |s| == SIZE && current < SIZE
    ensures |r| == SIZE
  {
    s[current := 0][Back(current, 1) := 0][Back(current, 2) := 0]
  }

  /** The share of settled packets that were not acked. */
  function Loss(st: Stats): real
    requires Shaped(st)
  {
    var sent, acked := Sum(Settled(st.sent, st.current)), Sum(Settled(st.acked, st.current));
    if sent == 0 then 0.0 else (sent - acked) as real / sent as real
  }

  /** The bucket `k` places before `current` in the ring. */
  function Back(current: nat, k: nat): (i: nat)
    requires current < SIZE && k <= SIZE
    ensures i < SIZE
  {
    (current + SIZE - k) % SIZE
  }

  lemma BackDistinct(current: nat)
    requires current < SIZE
    ensures current != Back(current, 1) && current != Back(current, 2) && Back(current, 1) != Back(current, 2)
  {
    assert Back(current, 1) == if current < 1 then current + 19 else current - 1;
    assert Back(current, 2) == if current < 2 then current + 18 else current - 2;
  }

  lemma {:induction false} SumUpdate(s: seq<nat>, i: nat, v: nat)
    requires i < |s|
    ensures Sum(s[i := v]) == Sum(s) - s[i] + v
  {
    var n := |s| - 1;
    if i == n {
      assert s[i := v][..n] == s[..n];
    } else {
      SumUpdate(s[..n], i, v);
      assert s[i := v][..n] == s[..n][i := v];
    }
  }

  lemma {:induction false} SumMonotone(a: seq<nat>, b: seq<nat>)
    requires |a| == |b| && forall i :: 0 <= i < |a| ==> a[i] <= b[i]
    ensures Sum(a) <= Sum(b)
  {
    if a != [] {
      SumMonotone(a[..|a| - 1], b[..|b| - 1]);
    }
  }

  /** Leaving the three recent buckets out of the sum never goes below zero. */
  lemma SumSettled(s: seq<nat>, current: nat)
    requires |s| == SIZE && current < SIZE
    ensures Sum(Settled(s, current)) == Sum(s) - s[current] - s[Back(current, 1)] - s[Back(current, 2)]
  {
    hide Sum;
    hide Back;
    var p1, p2 := Back(current, 1), Back(current, 2);
    BackDistinct(current);
    SumUpdate(s, current, 0);
    SumUpdate(s[current := 0], p1, 0);
    SumUpdate(s[current := 0][p1 := 0], p2, 0);
  }

  class ConnectionStats {
    const packetsSent: array<nat>
    const packetsAcked: array<nat>
    var currentIndex: nat

    ghost predicate Valid()
      reads this
    {
      packetsSent.Length == packetsAcked.Length == SIZE && currentIndex < SIZE && packetsSent != packetsAcked
    }

    ghost function View(): Stats
      reads this, packetsSent, packetsAcked
    {
      Stats(packetsSent[..], packetsAcked[..], currentIndex)
    }

    constructor ()
      ensures Valid() && fresh(packetsSent) && fresh(packetsAcked) && View() == Empty()
    {
      packetsSent := new nat[SIZE](_ => 0);
      packetsAcked := new nat[SIZE](_ => 0);
      currentIndex := 0;
      new;
      assert packetsSent[..] == Empty().sent && packetsAcked[..] == Empty().acked;
    }

    method Update(currentTime: nat)
      requires Valid()
      modifies this, packetsSent, packetsAcked
      ensures Valid() && View() == Updated(old(View()), currentTime)
    {
      var i := Index(currentTime);
      if currentIndex != i {
        currentIndex := i;
        packetsSent[i] := 0;
        packetsAcked[i] := 0;
      }
    }

    method SentPackets(numPackets: nat)
      requires Valid()
      modifies packetsSent
      ensures Valid() && View() == WithSent(old(View()), numPackets)
    {
      packetsSent[currentIndex] := packetsSent[currentIndex] + numPackets;
    }

    method AckedPacket(sentAt: nat, currentTime: nat)
      requires Valid() && sentAt <= currentTime
      modifies packetsAcked
      ensures Valid() && View() == WithAcked(old(View()), sentAt, currentTime)
    {
      var delta := currentTime - sentAt;
      if delta > WINDOW_MS * NANOS_PER_MILLI {
        return;
      }
      packetsAcked[Index(sentAt)] := packetsAcked[Index(sentAt)] + 1;
    }

    /** The share of settled packets that were not acked. */
    method PacketLoss() returns (loss: real)
      requires Valid()
      ensures loss == Loss(View())
    {
      hide Sum;
      var last, beforeLast := (currentIndex + SIZE - 1) % SIZE, (currentIndex + SIZE - 2) % SIZE;
      var totalSent := SumArray(packetsSent);
      totalSent := totalSent - packetsSent[currentIndex] - packetsSent[last] - packetsSent[beforeLast];
      var totalAcked := SumArray(packetsAcked);
      totalAcked := totalAcked - packetsAcked[currentIndex] - packetsAcked[last] - packetsAcked[beforeLast];
      SumSettled(packetsSent[..], currentIndex);
      SumSettled(packetsAcked[..], currentIndex);
      if totalSent == 0 {
        return 0.0;
      }
      loss := (totalSent - totalAcked) as real / totalSent as real;
    }
  }

  method SumArray(a: array<nat>) returns (sum: int)
    ensures sum == Sum(a[..])
  {
    sum := 0;
    for i := 0 to a.Length
      invariant sum == Sum(a[..i])
    {
      assert a[..i + 1][..i] == a[..i];
      sum := sum + a[i];
    }
    assert a[..a.Length] == a[..];
  }

  // ----- What the counts stand for

  /**
   * What has happened on the connection: when each packet was sent, which were acked, and when each
   * bucket was last cleared.
   */
  datatype History = History(sentAt: map<nat, nat>, acked: set<nat>, cleared: seq<nat>)

  function NoHistory(): History {
    History(map[], {}, seq(SIZE, _ => 0))
  }

  function AfterUpdate(h: History, before: nat, time: nat): History
    requires |h.cleared| == SIZE
  {
    if Index(before) == Index(time) then h else h.(cleared := h.cleared[Index(time) := time])
  }

  function AfterSend(h: History, first: nat, n: nat, time: nat): History {
    h.(sentAt := Extended(h.sentAt, first, n, time))
  }

  function AfterAcks(h: History, qs: set<nat>): History {
    h.(acked := h.acked + qs)
  }

  /** The packets with `n` more, numbered from `first`, sent now. */
  function Extended(sentAt: map<nat, nat>, first: nat, n: nat, time: nat): map<nat, nat> {
    if n == 0 then sentAt else Extended(sentAt, first, n - 1, time)[first + n - 1 := time]
  }

  lemma {:induction false} ExtendedKeys(sentAt: map<nat, nat>, first: nat, n: nat, time: nat)
    ensures forall q :: q in Extended(sentAt, first, n, time) <==> q in sentAt || first <= q < first + n
    ensures forall q :: q in Extended(sentAt, first, n, time) ==>
              Extended(sentAt, first, n, time)[q] == if first <= q < first + n then time else sentAt[q]
  {
    if n > 0 {
      ExtendedKeys(sentAt, first, n - 1, time);
    }
  }

  /** The packets sent in bucket `j` since it was last cleared. */
  function Since(h: History, j: nat): set<nat>
    requires j < |h.cleared|
  {
    set q | q in h.sentAt && Index(h.sentAt[q]) == j && h.cleared[j] <= h.sentAt[q]
  }

  /** The packets that are not acked and have not been given up. */
  function InFlight(h: History, time: nat): map<nat, nat> {
    map q | q in h.sentAt && q !in h.acked && time - h.sentAt[q] < DISCARD_AFTER :: h.sentAt[q]
  }

  /** Each bucket counts the packets sent in it since it was last cleared, and those of them that were acked. */
  ghost predicate Counts(st: Stats, h: History) {
    && Shaped(st) && |h.cleared| == SIZE
    && forall j :: 0 <= j < SIZE ==> st.sent[j] == |Since(h, j)| && st.acked[j] == |Since(h, j) * h.acked|
  }

  /** Nothing lies in the future, and a bucket is cleared before the first packet of its turn. */
  ghost predicate Timely(h: History, time: nat) {
    && |h.cleared| == SIZE && h.acked <= h.sentAt.Keys
    && (forall q :: q in h.sentAt ==> h.sentAt[q] <= time)
    && (forall j :: 0 <= j < SIZE ==> h.cleared[j] <= time)
    && (forall q, j :: q in h.sentAt && 0 <= j < SIZE && Index(h.sentAt[q]) == j && h.sentAt[q] < h.cleared[j] ==>
          Tick(h.sentAt[q]) < Tick(h.cleared[j]))
    && (forall j :: 0 <= j < SIZE ==> h.cleared[j] == 0 || Index(h.cleared[j]) == j)
  }

  /** What the counts of a connection keep to, at any time. */
  ghost predicate Tallies(st: Stats, h: History, time: nat) {
    Counts(st, h) && Timely(h, time) && st.current == Index(time)
  }

  lemma EmptyTallies()
    ensures Tallies(Empty(), NoHistory(), 0)
  {
  }

  // ----- Every operation keeps them

  lemma MonotoneTick(a: nat, b: nat)
    requires a <= b
    ensures Tick(a) <= Tick(b)
  {
  }

  lemma UpdateTimely(h: History, before: nat, time: nat)
    requires Timely(h, before) && before <= time
    ensures Timely(AfterUpdate(h, before, time), time)
  {
    hide Tick;
    var h' := AfterUpdate(h, before, time);
    MonotoneTick(before, time);
    forall q, j | q in h'.sentAt && 0 <= j < SIZE && Index(h'.sentAt[q]) == j && h'.sentAt[q] < h'.cleared[j]
      ensures Tick(h'.sentAt[q]) < Tick(h'.cleared[j])
    {
      MonotoneTick(h.sentAt[q], before);
    }
  }

  /** A bucket that time has just moved into counts from scratch. */
  lemma UpdateTallies(st: Stats, h: History, before: nat, time: nat)
    requires Tallies(st, h, before) && before <= time
    ensures Tallies(Updated(st, time), AfterUpdate(h, before, time), time)
  {
    UpdateTimely(h, before, time);
    hide Timely;
    var i, h' := Index(time), AfterUpdate(h, before, time);
    if st.current != i {
      forall j | 0 <= j < SIZE
        ensures Since(h', j) == if j == i then {} else Since(h, j)
      {
        NoneSince(h, before, time, j);
      }
    }
  }

  lemma NoneSince(h: History, before: nat, time: nat, j: nat)
    requires Timely(h, before) && before <= time && Index(before) != Index(time) && j < SIZE
    ensures Since(AfterUpdate(h, before, time), j) == if j == Index(time) then {} else Since(h, j)
  {
    hide Tick;
    var h' := AfterUpdate(h, before, time);
    if j == Index(time) {
      forall q | q in h.sentAt
        ensures h.sentAt[q] < time
      {
        assert h.sentAt[q] <= before;
      }
    }
  }

  lemma {:induction false} SendTallies(st: Stats, h: History, first: nat, n: nat, time: nat)
    requires Tallies(st, h, time) && forall q :: q in h.sentAt ==> q < first
    ensures Tallies(WithSent(st, n), AfterSend(h, first, n, time), time)
  {
    hide Tallies;
    TalliesShape(st, h, time);
    if n == 0 {
      assert WithSent(st, 0) == st;
    } else {
      SendTallies(st, h, first, n - 1, time);
      ExtendedKeys(h.sentAt, first, n - 1, time);
      OneSent(WithSent(st, n - 1), AfterSend(h, first, n - 1, time), first + n - 1, time);
      assert WithSent(WithSent(st, n - 1), 1) == WithSent(st, n);
    }
  }

  lemma TalliesShape(st: Stats, h: History, time: nat)
    requires Tallies(st, h, time)
    ensures Shaped(st) && |h.cleared| == SIZE
  {
  }

  /** The packets just sent are in flight, besides those that were. */
  lemma SendInFlight(st: Stats, h: History, first: nat, n: nat, time: nat)
    requires Tallies(st, h, time) && forall q :: q in h.sentAt ==> q < first
    ensures var flying := InFlight(AfterSend(h, first, n, time), time);
            && (forall q :: q in flying <==> q in InFlight(h, time) || first <= q < first + n)
            && (forall q :: q in flying ==> flying[q] == if first <= q < first + n then time else InFlight(h, time)[q])
  {
    hide Index;
    hide Tick;
    hide Counts;
    ExtendedKeys(h.sentAt, first, n, time);
  }

  lemma OneSent(st: Stats, h: History, q: nat, time: nat)
    requires Tallies(st, h, time) && q !in h.sentAt
    ensures Tallies(WithSent(st, 1), h.(sentAt := h.sentAt[q := time]), time)
  {
    hide Tick;
    hide Index;
    var h' := h.(sentAt := h.sentAt[q := time]);
    OneTimely(h, q, time);
    forall j | 0 <= j < SIZE
      ensures |Since(h', j)| == |Since(h, j)| + if j == st.current then 1 else 0
      ensures Since(h', j) * h.acked == Since(h, j) * h.acked
    {
      OneSince(h, q, time, j);
    }
    hide Timely;
    hide Since;
  }

  lemma OneTimely(h: History, q: nat, time: nat)
    requires Timely(h, time) && q !in h.sentAt
    ensures Timely(h.(sentAt := h.sentAt[q := time]), time)
  {
    hide Tick;
    hide Index;
  }

  lemma OneSince(h: History, q: nat, time: nat, j: nat)
    requires Timely(h, time) && q !in h.sentAt && j < SIZE
    ensures var h' := h.(sentAt := h.sentAt[q := time]);
            && |Since(h', j)| == |Since(h, j)| + (if j == Index(time) then 1 else 0)
            && Since(h', j) * h.acked == Since(h, j) * h.acked
  {
    hide Tick;
    hide Index;
    var h' := h.(sentAt := h.sentAt[q := time]);
    assert Since(h', j) == Since(h, j) + if j == Index(time) then {q} else {};
    assert Since(h', j) * h.acked == Since(h, j) * h.acked;
  }

  lemma ModDiffers(a: nat, b: nat)
    requires a < b <= a + 10
    ensures a % SIZE != b % SIZE
  {
  }

  /** A packet in flight is counted: it is given up after 3 s, and the ring comes round in 6 s. */
  lemma InFlightCounts(h: History, time: nat, q: nat)
    requires Timely(h, time) && q in InFlight(h, time)
    ensures q in Since(h, Index(h.sentAt[q]))
  {
    var t, j := h.sentAt[q], Index(h.sentAt[q]);
    if t < h.cleared[j] {
      TicksApart(t, h.cleared[j], time);
      ModDiffers(Tick(t), Tick(h.cleared[j]));
    }
  }

  lemma TicksApart(a: nat, b: nat, time: nat)
    requires a <= b <= time && time - a < DISCARD_AFTER
    ensures Tick(b) <= Tick(a) + 10
  {
  }

  /** The ack of a packet in flight is counted in the bucket it was sent in. */
  lemma AckTallies(st: Stats, h: History, q: nat, time: nat)
    requires Tallies(st, h, time) && q in InFlight(h, time)
    ensures Tallies(WithAcked(st, h.sentAt[q], time), AfterAcks(h, {q}), time)
    ensures InFlight(AfterAcks(h, {q}), time) == InFlight(h, time) - {q}
  {
    hide Tick;
    hide Index;
    InFlightCounts(h, time, q);
    AckTimely(h, q, time);
    hide Timely;
    AckCounts(st, h, q, time);
    hide Counts;
    hide Since;
  }

  lemma AckTimely(h: History, q: nat, time: nat)
    requires Timely(h, time) && q in h.sentAt
    ensures Timely(AfterAcks(h, {q}), time)
  {
    hide Tick;
    hide Index;
  }

  lemma AckCounts(st: Stats, h: History, q: nat, time: nat)
    requires Counts(st, h) && q in InFlight(h, time) && q in Since(h, Index(h.sentAt[q]))
    ensures Counts(WithAcked(st, h.sentAt[q], time), AfterAcks(h, {q}))
  {
    hide Index;
    var h' := AfterAcks(h, {q});
    forall j | 0 <= j < SIZE
      ensures Since(h', j) == Since(h, j)
      ensures |Since(h', j) * h'.acked| == |Since(h, j) * h.acked| + if j == Index(h.sentAt[q]) then 1 else 0
    {
      OneAcked(h, q, j);
    }
    hide Since;
  }

  lemma OneAcked(h: History, q: nat, j: nat)
    requires j < |h.cleared| && q in h.sentAt && q !in h.acked
    requires Index(h.sentAt[q]) < |h.cleared| && q in Since(h, Index(h.sentAt[q]))
    ensures var h' := AfterAcks(h, {q});
            && Since(h', j) == Since(h, j)
            && |Since(h', j) * h'.acked| == |Since(h, j) * h.acked| + if j == Index(h.sentAt[q]) then 1 else 0
  {
    hide Index;
    var h' := AfterAcks(h, {q});
    assert Since(h', j) == Since(h, j);
    if j == Index(h.sentAt[q]) {
      assert Since(h, j) * h'.acked == Since(h, j) * h.acked + {q};
    } else {
      assert Since(h, j) * h'.acked == Since(h, j) * h.acked;
    }
  }

  // ----- The loss

  /** The bucket is the current one or one of the two before it. */
  predicate Recent(j: nat, current: nat) {
    j == current || (j + 1) % SIZE == current || (j + 2) % SIZE == current
  }

  /** The packets counted in buckets that are no longer recent: they had time to be acked. */
  function SettledPackets(h: History, time: nat): set<nat>
    requires |h.cleared| == SIZE
  {
    set q | q in h.sentAt && h.cleared[Index(h.sentAt[q])] <= h.sentAt[q] && !Recent(Index(h.sentAt[q]), Index(time))
  }

  lemma RecentBack(j: nat, current: nat)
    requires j < SIZE && current < SIZE
    ensures Recent(j, current) <==> j == current || j == Back(current, 1) || j == Back(current, 2)
  {
    assert Back(current, 1) == if current < 1 then current + 19 else current - 1;
    assert Back(current, 2) == if current < 2 then current + 18 else current - 2;
  }

  /** The settled packets of the buckets below `n`. */
  function SettledBelow(h: History, time: nat, n: nat): set<nat>
    requires |h.cleared| == SIZE
  {
    set q | q in SettledPackets(h, time) && Index(h.sentAt[q]) < n
  }

  lemma SettledStep(h: History, time: nat, n: nat, only: set<nat>)
    requires |h.cleared| == SIZE && n < SIZE
    ensures |SettledBelow(h, time, n + 1) * only| ==
              |SettledBelow(h, time, n) * only| + if Recent(n, Index(time)) then 0 else |Since(h, n) * only|
  {
    hide Index;
    hide Recent;
    var a, b := SettledBelow(h, time, n) * only, if Recent(n, Index(time)) then {} else Since(h, n) * only;
    assert SettledBelow(h, time, n + 1) * only == a + b;
    assert a !! b;
  }

  /** Summed over the settled buckets, such counts add up to the settled packets. */
  lemma {:induction false} SettledSum(counts: seq<nat>, h: History, time: nat, only: set<nat>, n: nat)
    requires |counts| == SIZE && |h.cleared| == SIZE && n <= SIZE
    requires forall j :: 0 <= j < SIZE ==> counts[j] == |Since(h, j) * only|
    ensures Sum(Settled(counts, Index(time))[..n]) == |SettledBelow(h, time, n) * only|
  {
    hide Index;
    hide Recent;
    hide Since;
    hide Back;
    if n == 0 {
      assert SettledBelow(h, time, 0) * only == {};
    } else {
      hide SettledBelow;
      BackDistinct(Index(time));
      var settled := Settled(counts, Index(time));
      SettledSum(counts, h, time, only, n - 1);
      SettledStep(h, time, n - 1, only);
      RecentBack(n - 1, Index(time));
      assert settled[..n][..n - 1] == settled[..n - 1];
    }
  }

  lemma SettledTotal(counts: seq<nat>, h: History, time: nat, only: set<nat>)
    requires |counts| == SIZE && |h.cleared| == SIZE
    requires forall j :: 0 <= j < SIZE ==> counts[j] == |Since(h, j) * only|
    ensures Sum(Settled(counts, Index(time))) == |SettledPackets(h, time) * only|
  {
    hide Index;
    hide Recent;
    hide Since;
    SettledSum(counts, h, time, only, SIZE);
    assert Settled(counts, Index(time))[..SIZE] == Settled(counts, Index(time));
    assert SettledBelow(h, time, SIZE) == SettledPackets(h, time);
  }

  lemma SettledCounts(st: Stats, h: History, time: nat)
    requires Counts(st, h)
    ensures Sum(Settled(st.sent, Index(time))) == |SettledPackets(h, time)|
    ensures Sum(Settled(st.acked, Index(time))) == |SettledPackets(h, time) * h.acked|
  {
    hide Index;
    hide Recent;
    hide Since;
    hide Sum;
    hide Settled;
    forall j | 0 <= j < SIZE
      ensures Since(h, j) * h.sentAt.Keys == Since(h, j)
    {
      AllSent(h, j);
    }
    SettledTotal(st.sent, h, time, h.sentAt.Keys);
    SettledTotal(st.acked, h, time, h.acked);
    assert SettledPackets(h, time) * h.sentAt.Keys == SettledPackets(h, time);
  }

  /** The loss reported is the share of the settled packets that were never acked. */
  lemma LossExact(st: Stats, h: History, time: nat)
    requires Tallies(st, h, time)
    ensures var settled := SettledPackets(h, time);
            Loss(st) * |settled| as real == |settled - h.acked| as real && (settled == {} ==> Loss(st) == 0.0)
  {
    hide Index;
    hide Timely;
    hide Sum;
    hide Settled;
    SettledCounts(st, h, time);
    hide Counts;
    TalliesShape(st, h, time);
    var settled := SettledPackets(h, time);
    hide SettledPackets;
    SplitBy(settled, h.acked);
    var sent, acked := Sum(Settled(st.sent, st.current)), Sum(Settled(st.acked, st.current));
    if sent != 0 {
      Divided((sent - acked) as real, sent as real);
    }
  }

  lemma Divided(part: real, whole: real)
    requires whole != 0.0
    ensures part / whole * whole == part
  {
  }

  lemma SplitBy(a: set<nat>, b: set<nat>)
    ensures |a| == |a * b| + |a - b|
  {
    assert a == (a * b) + (a - b);
  }

  lemma AllSent(h: History, j: nat)
    requires j < |h.cleared|
    ensures Since(h, j) * h.sentAt.Keys == Since(h, j)
  {
  }

  /** So it is never below 0 and never above 1. */
  lemma LossIsAShare(st: Stats, h: History, time: nat)
    requires Tallies(st, h, time)
    ensures 0.0 <= Loss(st) <= 1.0
  {
    hide Index;
    hide Loss;
    hide SettledPackets;
    hide Tallies;
    LossExact(st, h, time);
    TalliesShape(st, h, time);
    var settled := SettledPackets(h, time);
    SubsetSize(settled - h.acked, settled);
    if settled != {} {
      ShareBounds(Loss(st), |settled| as real, |settled - h.acked| as real);
    }
  }

  lemma ShareBounds(x: real, whole: real, part: real)
    requires x * whole == part && 0.0 <= part <= whole && whole > 0.0
    ensures 0.0 <= x <= 1.0
  {
  }

  // ----- The window

  /** No packet that is counted was sent more than 6 s ago. */
  ghost predicate Fresh(h: History, time: nat) {
    && |h.cleared| == SIZE
    && forall q :: q in h.sentAt && h.cleared[Index(h.sentAt[q])] <= h.sentAt[q] ==>
         Tick(time) < Tick(h.sentAt[q]) + SIZE
  }

  /** The packets sent in the window, without the last three resolutions. */
  function InWindow(h: History, time: nat): set<nat> {
    set q | q in h.sentAt && Tick(h.sentAt[q]) + 3 <= Tick(time) < Tick(h.sentAt[q]) + SIZE
  }

  /** The loss is that of the window exactly when nothing settled is older. */
  lemma LossOfWindow(h: History, time: nat)
    requires Timely(h, time)
    ensures InWindow(h, time) <= SettledPackets(h, time)
    ensures SettledPackets(h, time) == InWindow(h, time) <==>
              forall q :: q in SettledPackets(h, time) ==> Tick(time) < Tick(h.sentAt[q]) + SIZE
  {
    hide Tick;
    forall q | q in InWindow(h, time)
      ensures q in SettledPackets(h, time)
    {
      WindowSettled(h, time, q);
    }
    forall q | q in SettledPackets(h, time) && Tick(time) < Tick(h.sentAt[q]) + SIZE
      ensures q in InWindow(h, time)
    {
      SettledOld(h, time, q);
    }
  }

  lemma WindowSettled(h: History, time: nat, q: nat)
    requires Timely(h, time) && q in InWindow(h, time)
    ensures q in SettledPackets(h, time)
  {
    hide Tick;
    var t, j := h.sentAt[q], Index(h.sentAt[q]);
    if t < h.cleared[j] {
      MonotoneTick(h.cleared[j], time);
      SameResidue(Tick(t), Tick(h.cleared[j]));
    }
    NotRecent(Tick(t), Tick(time));
  }

  lemma SettledOld(h: History, time: nat, q: nat)
    requires Timely(h, time) && q in SettledPackets(h, time) && Tick(time) < Tick(h.sentAt[q]) + SIZE
    ensures q in InWindow(h, time)
  {
    hide Tick;
    MonotoneTick(h.sentAt[q], time);
    if Tick(time) <= Tick(h.sentAt[q]) + 2 {
      IsRecent(Tick(h.sentAt[q]), Tick(time));
    }
  }

  lemma SameResidue(a: nat, b: nat)
    requires a < b < a + SIZE
    ensures a % SIZE != b % SIZE
  {
  }

  lemma NotRecent(a: nat, b: nat)
    requires a + 3 <= b < a + SIZE
    ensures !Recent(a % SIZE, b % SIZE)
  {
    SameResidue(a, b);
    SameResidue(a + 1, b);
    SameResidue(a + 2, b);
    NextResidue(a, 1);
    NextResidue(a, 2);
  }

  lemma NextResidue(a: nat, k: nat)
    requires k <= 2
    ensures (a % SIZE + k) % SIZE == (a + k) % SIZE
  {
  }

  lemma IsRecent(a: nat, b: nat)
    requires a <= b <= a + 2
    ensures Recent(a % SIZE, b % SIZE)
  {
    NextResidue(a, b - a);
  }

  /** Updates at most one resolution apart leave no bucket out, so only the window counts. */
  lemma UpdateFresh(h: History, before: nat, time: nat)
    requires Timely(h, before) && Fresh(h, before) && before <= time && Tick(time) <= Tick(before) + 1
    ensures Fresh(AfterUpdate(h, before, time), time)
  {
    hide Tick;
    hide Index;
    var h' := AfterUpdate(h, before, time);
    MonotoneTick(before, time);
    RoundOnce(before, time);
    forall q | q in h'.sentAt && h'.cleared[Index(h'.sentAt[q])] <= h'.sentAt[q]
      ensures Tick(time) < Tick(h'.sentAt[q]) + SIZE
    {
      var t := h.sentAt[q];
      RoundOnce(t, time);
      assert t <= before;
      assert Tick(time) == Tick(t) + SIZE ==> time <= t;
    }
  }

  /** Buckets a whole ring apart are the same, neighbours are not. */
  lemma RoundOnce(a: nat, b: nat)
    ensures Tick(b) == Tick(a) + SIZE ==> Index(a) == Index(b)
    ensures Tick(b) == Tick(a) + 1 ==> Index(a) != Index(b)
    ensures Tick(a) == Tick(b) ==> Index(a) == Index(b)
  {
    hide Tick;
  }

  lemma SendFresh(h: History, first: nat, n: nat, time: nat)
    requires Fresh(h, time)
    ensures Fresh(AfterSend(h, first, n, time), time)
  {
    hide Tick;
    hide Index;
    ExtendedKeys(h.sentAt, first, n, time);
  }

  /** A packet sent more than 6 s ago still counts as lost when updates left its bucket out. */
  lemma StaleLoss() returns (st: Stats)
    ensures st == Updated(WithSent(Updated(Empty(), 300_000_000), 1), 7_500_000_000)
    ensures Loss(st) == 1.0
  {
    hide Sum;
    var a := Updated(Empty(), 300_000_000);
    assert Index(300_000_000) == 1 && Index(7_500_000_000) == 5;
    var b := WithSent(a, 1);
    st := Updated(b, 7_500_000_000);
    var zero := Empty().sent;
    assert a.sent == zero && a.acked == zero;
    assert b.sent == zero[1 := 1];
    assert st.sent == zero[1 := 1] && st.acked == zero && st.current == 5;
    SumUpdate(zero, 1, 1);
    ZeroSum(zero);
    SumSettled(st.sent, 5);
    SumSettled(st.acked, 5);
    assert Back(5, 1) == 4 && Back(5, 2) == 3;
  }

  lemma {:induction false} ZeroSum(s: seq<nat>)
    requires forall i :: 0 <= i < |s| ==> s[i] == 0
    ensures Sum(s) == 0
  {
    if s != [] {
      ZeroSum(s[..|s| - 1]);
    }
  }
}
