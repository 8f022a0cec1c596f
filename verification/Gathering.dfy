/**
 * How an unreliable channel gathers the slices of long messages among everything else that happens
 * to it, and when it gives them up (renet2/src/channel/unreliable.rs).
 */
module Gathering {
  import opened Base
  import opened Sums
  import opened Slicing
  import opened SliceConstruction
  import opened UnreliableSending
  import opened UnreliableReceiving
  import R = ReliableReceiving

  datatype Event = Message(m: Bytes) | SliceIn(s: Slice, now: nat) | HandOver | GiveUp(now: nat)

  /** A slice that is refused ends the connection; runs stop before that. */
  ghost predicate Moves(r: Receiver, e: Event, r': Receiver) {
    && Inv(r)
    && match e
       case Message(m) => r' == ProcessMessage(r, m)
       case SliceIn(s, now) => Consistent(r, s) && ProcessSlice(r, s, now) == (r', Ok(()))
       case HandOver => r' == Receive(r).0
       case GiveUp(now) => r' == Discarded(r, now)
  }

  ghost predicate Run(states: seq<Receiver>, events: seq<Event>) {
    |states| == |events| + 1 && forall n :: 0 <= n < |events| ==> Moves(states[n], events[n], states[n + 1])
  }

  /** A message is queued exactly when it fits in the memory beside what the channel holds. */
  lemma QueuedExactly(r: Receiver, m: Bytes)
    requires Inv(r)
    ensures ProcessMessage(r, m).messages == r.messages + [m] <==>
              BytesOf(r.messages) + SLICE_SIZE * Total(R.Sizes(r.slices)) + |m| <= r.maxMemory
    ensures ProcessMessage(r, m).messages == r.messages || ProcessMessage(r, m).messages == r.messages + [m]
    ensures ProcessMessage(r, m).slices == r.slices && ProcessMessage(r, m).lastReceived == r.lastReceived
  {
    hide BytesOf;
    assert |r.messages + [m]| == |r.messages| + 1;
  }

  // ----- What has arrived

  predicate IsFor(e: Event, id: nat) {
    e.SliceIn? && e.s.messageId == id
  }

  /** The slices of message `id` that came in from event `i` up to event `j`. */
  function Seen(events: seq<Event>, id: nat, i: nat, j: nat): set<nat>
    requires i <= j <= |events|
  {
    if i == j then {}
    else Seen(events, id, i, j - 1) + if IsFor(events[j - 1], id) then {events[j - 1].s.sliceIndex} else {}
  }

  /** When the last of them came. */
  function Last(events: seq<Event>, id: nat, i: nat, j: nat): nat
    requires i < j <= |events| && IsFor(events[i], id)
  {
    if IsFor(events[j - 1], id) then events[j - 1].now else Last(events, id, i, j - 1)
  }

  /** What comes in as message `id` are slices of `m`. */
  ghost predicate Honest(events: seq<Event>, m: Bytes, id: nat, i: nat, j: nat)
    requires j <= |events|
  {
    forall n :: i <= n < j && IsFor(events[n], id) ==>
      events[n].s.sliceIndex < NumSlices(|m|) && events[n].s == SliceOf(m, id, events[n].s.sliceIndex)
  }

  /** Whenever old slices are given up, one of message `id` came less than 3 s before. */
  ghost predicate InTime(events: seq<Event>, id: nat, i: nat, j: nat)
    requires i < |events| && IsFor(events[i], id) && j <= |events|
  {
    forall n :: i < n < j && events[n].GiveUp? ==> events[n].now < Last(events, id, i, n) + 3_000_000_000
  }

  ghost predicate All(m: Bytes, seen: set<nat>) {
    forall k :: 0 <= k < NumSlices(|m|) ==> k in seen
  }

  lemma MoreSeen(m: Bytes, seen: set<nat>, k: nat)
    ensures All(m, seen) ==> All(m, seen + {k})
  {
  }

  lemma SameSeen(events: seq<Event>, id: nat, i: nat, j: nat)
    requires i <= j < |events| && !IsFor(events[j], id)
    ensures Seen(events, id, i, j + 1) == Seen(events, id, i, j)
  {
  }

  /** The constructor for `id` holds the given slices of `m`; the last came at the given time. */
  ghost predicate Holding(r: Receiver, m: Bytes, id: nat, seen: set<nat>, last: nat) {
    && id in r.slices && PartOf(r.slices[id], m)
    && (forall k :: 0 <= k < NumSlices(|m|) ==> (r.slices[id].received[k] <==> k in seen))
    && id in r.lastReceived && r.lastReceived[id] == last
  }

  lemma AllButOne(m: Bytes, received: seq<bool>, seen: set<nat>, k: nat)
    requires |received| == NumSlices(|m|) && k < NumSlices(|m|)
    requires forall j :: 0 <= j < NumSlices(|m|) ==> (received[j] <==> j in seen)
    ensures All(m, seen + {k}) <==> forall j :: 0 <= j < NumSlices(|m|) && j != k ==> received[j]
  {
    var more := seen + {k};
    assert forall j :: 0 <= j < NumSlices(|m|) && j != k ==> (received[j] <==> j in more);
  }

  // ----- One step

  lemma OwnSlice(r: Receiver, m: Bytes, id: nat, k: nat, now: nat, seen: set<nat>, last: nat)
    requires Inv(r) && Holding(r, m, id, seen, last) && k < NumSlices(|m|)
    ensures Consistent(r, SliceOf(m, id, k))
    ensures var r' := ProcessSlice(r, SliceOf(m, id, k), now).0;
            if All(m, seen + {k}) then
              r'.messages == r.messages + [m] && id !in r'.slices
            else Holding(r', m, id, seen + {k}, now)
  {
    hide Inv;
    hide Accept;
    var s := SliceOf(m, id, k);
    WithConstructorInv(r, s);
    AcceptHonest(r.slices[id], m, k);
    AllButOne(m, r.slices[id].received, seen, k);
    hide PartOf;
    hide All;
  }

  lemma FirstOf(r: Receiver, m: Bytes, id: nat, k: nat, now: nat)
    requires Inv(r) && id !in r.slices && k < NumSlices(|m|)
    requires r.memory + NumSlices(|m|) * SLICE_SIZE <= r.maxMemory
    ensures var r' := ProcessSlice(r, SliceOf(m, id, k), now).0;
            if All(m, {k}) then r'.messages == r.messages + [m] && id !in r'.slices
            else Holding(r', m, id, {k}, now)
  {
    hide Inv;
    hide Accept;
    var s := SliceOf(m, id, k);
    assert 0 < |m|;
    WithConstructorInv(r, s);
    FreshIsPart(m);
    AcceptHonest(Fresh(NumSlices(|m|)), m, k);
    hide PartOf;
    AllButOne(m, Fresh(NumSlices(|m|)).received, {}, k);
    assert {} + {k} == {k};
    hide All;
  }

  /** What happens to the channel besides leaves the constructor alone. */
  lemma OtherEvents(r: Receiver, e: Event, r': Receiver, m: Bytes, id: nat, seen: set<nat>, last: nat)
    requires Moves(r, e, r') && !IsFor(e, id) && Holding(r, m, id, seen, last)
    requires e.GiveUp? ==> e.now < last + 3_000_000_000
    ensures Holding(r', m, id, seen, last)
  {
    hide Inv;
    hide PartOf;
    hide Accept;
    hide BytesOf;
    if e.GiveUp? {
      assert !Stale(r, id, e.now);
      assert !GivenUp(r, id, e.now);
    } else if e.SliceIn? {
      WithConstructorKeeps(r, e.s, id);
    }
  }

  lemma WithConstructorKeeps(r: Receiver, s: Slice, id: nat)
    requires id in r.slices
    ensures id in WithConstructor(r, s).slices && WithConstructor(r, s).slices[id] == r.slices[id]
    ensures WithConstructor(r, s).lastReceived == r.lastReceived
  {
  }

  // ----- Over runs

  /**
   * In every run, from the first slice on, the constructor holds just the slices that came in,
   * until they are all there or none of them has come for 3 s.
   */
  lemma {:induction false} Gathers(states: seq<Receiver>, events: seq<Event>, m: Bytes, id: nat, i: nat, j: nat)
    requires Run(states, events) && i < j < |states| && IsFor(events[i], id) && id !in states[i].slices
    requires states[i].memory + NumSlices(|m|) * SLICE_SIZE <= states[i].maxMemory
    requires Honest(events, m, id, i, j) && InTime(events, id, i, j) && !All(m, Seen(events, id, i, j))
    ensures Holding(states[j], m, id, Seen(events, id, i, j), Last(events, id, i, j))
    decreases j
  {
    hide Inv;
    hide Holding;
    hide ProcessSlice;
    assert Moves(states[j - 1], events[j - 1], states[j]);
    hide All;
    if j == i + 1 {
      assert Seen(events, id, i, j) == {events[i].s.sliceIndex} by {
        assert Seen(events, id, i, i) == {};
      }
      FirstOf(states[i], m, id, events[i].s.sliceIndex, events[i].now);
    } else {
      var seen, last := Seen(events, id, i, j - 1), Last(events, id, i, j - 1);
      if IsFor(events[j - 1], id) {
        var k := events[j - 1].s.sliceIndex;
        MoreSeen(m, seen, k);
        Gathers(states, events, m, id, i, j - 1);
        OwnSlice(states[j - 1], m, id, k, events[j - 1].now, seen, last);
      } else {
        assert Seen(events, id, i, j) == seen;
        Gathers(states, events, m, id, i, j - 1);
        OtherEvents(states[j - 1], events[j - 1], states[j], m, id, seen, last);
      }
    }
  }

  /** The event that brings the last missing slice puts the message in the queue, exactly as it was sent. */
  lemma Completes(states: seq<Receiver>, events: seq<Event>, m: Bytes, id: nat, i: nat, j: nat)
    requires Run(states, events) && i <= j < |events| && IsFor(events[i], id) && id !in states[i].slices
    requires states[i].memory + NumSlices(|m|) * SLICE_SIZE <= states[i].maxMemory
    requires Honest(events, m, id, i, j + 1) && InTime(events, id, i, j + 1)
    requires !All(m, Seen(events, id, i, j)) && All(m, Seen(events, id, i, j + 1))
    ensures states[j + 1].messages == states[j].messages + [m] && id !in states[j + 1].slices
  {
    hide Inv;
    hide Holding;
    hide ProcessSlice;
    assert Moves(states[j], events[j], states[j + 1]);
    hide All;
    if !IsFor(events[j], id) {
      SameSeen(events, id, i, j);
      assert false;
    }
    var k := events[j].s.sliceIndex;
    if i == j {
      assert Seen(events, id, i, j + 1) == {k} by {
        assert Seen(events, id, i, i) == {};
      }
      FirstOf(states[i], m, id, k, events[i].now);
    } else {
      Gathers(states, events, m, id, i, j);
      OwnSlice(states[j], m, id, k, events[j].now, Seen(events, id, i, j), Last(events, id, i, j));
    }
  }

  /** A first slice that finds no room for the whole message leaves no trace. */
  lemma NoRoom(r: Receiver, s: Slice, now: nat)
    requires Inv(r) && Consistent(r, s) && s.messageId !in r.slices
    requires BytesOf(r.messages) + SLICE_SIZE * (Total(R.Sizes(r.slices)) + s.numSlices) > r.maxMemory
    ensures ProcessSlice(r, s, now) == (r, Ok(()))
  {
    hide BytesOf;
  }

  // ----- Quiet

  /** All slices up to event `j` came at least 3 s before the given time. */
  ghost predicate Quiet(events: seq<Event>, j: nat, now: nat)
    requires j <= |events|
  {
    forall n :: 0 <= n < j && events[n].SliceIn? ==> events[n].now + 3_000_000_000 <= now
  }

  ghost predicate Dated(r: Receiver, events: seq<Event>, j: nat)
    requires j <= |events|
  {
    forall id :: id in r.lastReceived ==>
      exists n :: 0 <= n < j && IsFor(events[n], id) && events[n].now == r.lastReceived[id]
  }

  lemma DatedStep(r: Receiver, e: Event, r': Receiver, id: nat)
    requires Moves(r, e, r') && r.slices.Keys == r.lastReceived.Keys
    ensures r'.slices.Keys == r'.lastReceived.Keys
    ensures id in r'.lastReceived ==>
              || (id in r.lastReceived && r.lastReceived[id] == r'.lastReceived[id])
              || (IsFor(e, id) && e.now == r'.lastReceived[id])
  {
    hide Inv;
    hide Accept;
    hide BytesOf;
  }

  lemma {:induction false} AllDated(states: seq<Receiver>, events: seq<Event>, j: nat)
    requires Run(states, events) && j < |states| && states[0].lastReceived == map[]
    requires states[0].slices == map[]
    ensures Dated(states[j], events, j) && states[j].slices.Keys == states[j].lastReceived.Keys
  {
    hide Moves;
    if j > 0 {
      AllDated(states, events, j - 1);
      var r, r' := states[j - 1], states[j];
      assert Moves(r, events[j - 1], r');
      DatedStep(r, events[j - 1], r', 0);
      forall id | id in r'.lastReceived
        ensures exists n :: 0 <= n < j && IsFor(events[n], id) && events[n].now == r'.lastReceived[id]
      {
        DatedStep(r, events[j - 1], r', id);
        if id in r.lastReceived && r.lastReceived[id] == r'.lastReceived[id] {
          var n :| 0 <= n < j - 1 && IsFor(events[n], id) && events[n].now == r.lastReceived[id];
        }
      }
    }
  }

  /** After 3 s without slices a pass gives up all that have been gathered. */
  lemma QuietEndsAll(states: seq<Receiver>, events: seq<Event>, j: nat)
    requires Run(states, events) && j < |events| && states[0].slices == map[] && states[0].lastReceived == map[]
    requires events[j].GiveUp? && Quiet(events, j, events[j].now)
    ensures states[j + 1].slices == map[] && states[j + 1].lastReceived == map[]
    ensures states[j + 1].messages == states[j].messages && states[j + 1].memory == BytesOf(states[j].messages)
  {
    hide Inv;
    hide BytesOf;
    AllDated(states, events, j);
    var r, now := states[j], events[j].now;
    assert Moves(r, events[j], states[j + 1]);
    forall id | id in r.lastReceived
      ensures Stale(r, id, now)
    {
      var n :| 0 <= n < j && IsFor(events[n], id) && events[n].now == r.lastReceived[id];
    }
    assert forall id :: id in r.lastReceived ==> GivenUp(r, id, now);
    assert states[j + 1].slices == map[];
    assert R.Sizes(map[]) == map[];
  }
}
