/**
 * Which messages a connection accepts, takes in and hands over, in runs of both ends: memory is all
 * that counts (renet2/src/remote_connection.rs, renet2/src/channel/reliable.rs).
 */
module Acceptance {
  import opened Base
  import opened Sums
  import opened Slicing
  import opened AckRanges
  import opened ChannelPairs
  import opened Endpoints
  import opened Connections
  import opened Delivery
  import R = ReliableReceiving
  import S = ReliableSending
  import L = ReliableLinks

  // ----- Sending

  /** What the channel has room for, besides the messages it stores. */
  ghost predicate HasRoom(x: L.Peer, ch: nat, m: Bytes) {
    ch in x.e.senders && Total(S.Lengths(x.e.senders[ch].unacked)) + |m| <= x.e.senders[ch].maxMemory
  }

  lemma SendAct(x: L.Peer, ch: nat, m: Bytes, x': L.Peer)
    requires L.Sends(x, ch, m, x') && S.Inv(x.e.senders[ch])
    ensures x'.e.connected <==> HasRoom(x, ch, m)
    ensures x'.log == if HasRoom(x, ch, m) then x.log[ch := x.log[ch] + [m]] else x.log
    ensures x'.e.senders == if HasRoom(x, ch, m) then x'.e.senders else x.e.senders
  {
    S.AcceptedExactly(x.e.senders[ch], m);
    hide S.Inv;
    hide S.SendMessage;
    hide Total;
    assert !HasRoom(x, ch, m) ==> x.e.senders[ch := x.e.senders[ch]] == x.e.senders;
  }

  /**
   * In every run, a message sent on a reliable channel is accepted exactly when there is room for it
   * besides those not acked yet: it is then the last of the log, and the connection lasts. Otherwise
   * the connection ends, and the log stays.
   */
  lemma SendExactly(states: seq<System>, steps: seq<Step>, i: nat, d: Direction, ch: nat, m: Bytes)
    requires Run(states, steps) && i < |steps| && Sends(steps[i], d) && steps[i].action == Send(ch, m)
    requires ch in Sending(states[i], d).p.e.senders
    ensures var x, x' := Sending(states[i], d).p, Sending(states[i + 1], d).p;
            && ch in x.log && (x'.e.connected <==> HasRoom(x, ch, m))
            && x'.log == if HasRoom(x, ch, m) then x.log[ch := x.log[ch] + [m]] else x.log
  {
    hide Init;
    hide L.Joined;
    hide Loosely;
    hide HasRoom;
    hide S.Inv;
    EitherWay(states, steps, i, d);
    assert Next(states[i], steps[i], states[i + 1]);
    var x, y, x' := Sending(states[i], d), Receiving(states[i], d), Sending(states[i + 1], d);
    StepIs(states[i], steps[i], states[i + 1], d);
    EndFacts(x.p, y.p, ch);
    hide Endpoints.Inv;
    assert L.Sends(x.p, ch, m, x'.p);
    hide Act;
    hide L.Sends;
    LoggedChannel(x.p, y.p, ch);
    SendAct(x.p, ch, m, x'.p);
  }

  // ----- Taking in

  /** The bytes of the messages. */
  function BytesIn(messages: seq<(nat, Bytes)>): nat {
    if messages == [] then 0 else |messages[0].1| + BytesIn(messages[1..])
  }

  /** Messages are all taken in when there is room for all of them. */
  lemma {:induction false} MessagesTaken(r: R.Receiver, messages: seq<(nat, Bytes)>)
    requires R.Inv(r) && R.Held(r) + BytesIn(messages) <= r.maxMemory
    ensures ProcessMessages(r, messages).1.Ok?
    decreases |messages|
  {
    hide R.Inv;
    hide R.Got;
    if messages != [] {
      var (r1, res) := R.ProcessMessage(r, messages[0].1, messages[0].0);
      R.TakenInExactly(r, messages[0].1, messages[0].0);
      R.ProcessMessageInv(r, messages[0].1, messages[0].0);
      HeldIsMemory(r);
      HeldIsMemory(r1);
      hide R.Held;
      MessagesTaken(r1, messages[1..]);
    }
  }

  lemma HeldIsMemory(r: R.Receiver)
    requires R.Inv(r)
    ensures r.memory == R.Held(r) <= r.maxMemory
  {
  }

  /** A slice is taken in exactly when its message was, or has a constructor, or there is room for all its slices. */
  lemma SliceTaken(r: R.Receiver, slice: Slice, log: seq<Bytes>)
    requires R.Inv(r) && R.Mirrors(r, log) && L.HonestSlice(log, slice)
    ensures R.Consistent(r, slice)
    ensures R.ProcessSlice(r, slice).1.Ok? <==>
              || slice.messageId in r.messages || slice.messageId < r.oldest || slice.messageId in r.slices
              || R.Held(r) + slice.numSlices * SLICE_SIZE <= r.maxMemory
  {
    hide R.Inv;
    hide R.Mirrors;
    hide R.Held;
    hide R.Consistent;
    R.ProcessSliceMirrors(r, log, slice.messageId, slice.sliceIndex);
    R.ProcessSliceKeeps(r, slice);
    HeldIsMemory(r);
    if slice.messageId !in r.messages && r.oldest <= slice.messageId && slice.messageId !in r.slices {
      SliceRefused(r, slice);
    }
    hide R.ProcessSlice;
  }

  lemma SliceRefused(r: R.Receiver, slice: Slice)
    requires R.Inv(r) && R.Consistent(r, slice)
    requires slice.messageId !in r.messages && r.oldest <= slice.messageId && slice.messageId !in r.slices
    ensures r.memory + slice.numSlices * SLICE_SIZE > r.maxMemory ==>
              R.ProcessSlice(r, slice).1 == Err(ReliableChannelMaxMemoryReached)
  {
    hide R.Inv;
    hide R.Feed;
  }

  /** The receiver has room for what the packet brings. */
  ghost predicate RoomFor(receivers: map<nat, R.Receiver>, p: Packet) {
    match p
    case SmallReliable(_, ch, messages) =>
      ch in receivers && R.Held(receivers[ch]) + BytesIn(messages) <= receivers[ch].maxMemory
    case ReliableSlice(_, ch, slice) =>
      && ch in receivers
      && (|| slice.messageId in receivers[ch].messages || slice.messageId < receivers[ch].oldest
          || slice.messageId in receivers[ch].slices
          || R.Held(receivers[ch]) + slice.numSlices * SLICE_SIZE <= receivers[ch].maxMemory)
    case _ => true
  }

  lemma MessagesLast(x: L.Peer, y: L.Peer, q: nat, pending: seq<Range>, acks: seq<nat>, x': L.Peer)
    requires L.Joined(x, y) && L.Delivers(x, y, q, pending, acks, x') && y.out[q].SmallReliable?
    requires RoomFor(x.e.receivers, y.out[q])
    ensures x'.e.connected
  {
    hide L.Joined;
    hide Added;
    hide ProcessMessages;
    hide R.Held;
    ReceiverInv(x.e, y.out[q].channelId);
    hide Endpoints.Inv;
    hide R.Inv;
    MessagesTaken(x.e.receivers[y.out[q].channelId], y.out[q].messages);
  }

  lemma SliceLasts(x: L.Peer, y: L.Peer, q: nat, pending: seq<Range>, acks: seq<nat>, x': L.Peer)
    requires L.Joined(x, y) && L.Delivers(x, y, q, pending, acks, x') && y.out[q].ReliableSlice?
    ensures x'.e.connected <==> RoomFor(x.e.receivers, y.out[q])
  {
    hide L.Joined;
    hide Added;
    hide R.Held;
    hide R.ProcessSlice;
    hide Endpoints.Inv;
    hide R.Inv;
    hide R.Mirrors;
    hide R.Consistent;
    L.PacketFacts(x, y, q);
    var ch := y.out[q].channelId;
    if ch in x.e.receivers {
      L.ChannelFacts(x, y, ch);
      SliceTaken(x.e.receivers[ch], y.out[q].slice, y.log[ch]);
    }
  }

  /**
   * In every run, a packet of the other end for a reliable channel leaves the connection up when there
   * is room for what it brings; a slice, exactly then.
   */
  lemma DeliveryLasts(states: seq<System>, steps: seq<Step>, i: nat, d: Direction, q: nat, pending: seq<Range>,
                      acks: seq<nat>)
    requires Run(states, steps) && i < |steps| && Sends(steps[i], d) && steps[i].action == Deliver(q, pending, acks)
    requires q in Receiving(states[i], d).p.out
    requires var p := Receiving(states[i], d).p.out[q]; p.SmallReliable? || p.ReliableSlice?
    ensures var x, p, x' := Sending(states[i], d).p, Receiving(states[i], d).p.out[q], Sending(states[i + 1], d).p;
            && (RoomFor(x.e.receivers, p) ==> x'.e.connected)
            && (p.ReliableSlice? && !RoomFor(x.e.receivers, p) ==> !x'.e.connected)
  {
    hide Init;
    hide Act;
    hide L.Joined;
    hide L.Delivers;
    hide Loosely;
    hide RoomFor;
    EitherWay(states, steps, i, d);
    assert Next(states[i], steps[i], states[i + 1]);
    StepIs(states[i], steps[i], states[i + 1], d);
    var x, y, x' := Sending(states[i], d), Receiving(states[i], d), Sending(states[i + 1], d);
    DeliversOf(x, y, steps[i].action, x');
    if y.p.out[q].ReliableSlice? {
      SliceLasts(x.p, y.p, q, pending, acks, x'.p);
    } else if RoomFor(x.p.e.receivers, y.p.out[q]) {
      MessagesLast(x.p, y.p, q, pending, acks, x'.p);
    }
  }

  // ----- Handing over

  lemma ReceiveAct(x: L.Peer, ch: nat, x': L.Peer)
    requires L.Receives(x, ch, x') && R.Inv(x.e.receivers[ch])
    ensures ch in x'.delivered
    ensures var r, more := x.e.receivers[ch], x'.delivered[ch];
            if (if r.order.Ordered? then r.oldest in r.messages else r.messages != map[]) then
              exists id :: id in r.messages && more == x.delivered[ch] + [(id, r.messages[id])]
            else more == x.delivered[ch]
  {
    R.HandedOverExactly(x.e.receivers[ch]);
    hide R.Inv;
    hide R.ReceiveMessage;
    hide Endpoints.Inv;
  }

  /**
   * Once a sender has drained, receiving brings the rest: every call hands over one more message
   * until all that were accepted have been handed over.
   */
  lemma RestHandedOver(states: seq<System>, steps: seq<Step>, i: nat, d: Direction, ch: nat)
    requires Run(states, steps) && i < |steps| && !Sends(steps[i], d) && steps[i].action == Receive(ch)
    requires ch in Sending(states[i], d).p.log && ch in Sending(states[i], d).p.e.senders
    requires Sending(states[i], d).p.e.senders[ch].unacked == map[]
    ensures var y, y', log := Receiving(states[i], d).p, Receiving(states[i + 1], d).p, Sending(states[i], d).p.log[ch];
            && ch in y.delivered && ch in y'.delivered
            && |y'.delivered[ch]| == |y.delivered[ch]| + if |y.delivered[ch]| < |log| then 1 else 0
  {
    hide Run;
    hide L.Joined;
    hide Loosely;
    hide R.Inv;
    hide R.Mirrors;
    hide R.Exact;
    hide Safe;
    hide L.Faithful;
    RunLength(states, steps);
    EitherWay(states, steps, i, d);
    var x, y := Sending(states[i], d), Receiving(states[i], d);
    L.PairFacts(x.p, y.p, ch);
    ReceiveOf(states, steps, i, d, ch);
    ReceiveAct(y.p, ch, Receiving(states[i + 1], d).p);
    var r, delivered, log := y.p.e.receivers[ch], y.p.delivered[ch], x.p.log[ch];
    DrainedIsThere(states, steps, i, d, ch);
    forall id | 0 <= id < |log|
      ensures id in r.messages || L.HandedOver(delivered, id, log[id])
    {
    }
    if r.order.Ordered? {
      OrderedLeft(r, delivered, log);
    } else {
      UnorderedLeft(r, delivered, log);
    }
  }

  lemma ReceiveOf(states: seq<System>, steps: seq<Step>, i: nat, d: Direction, ch: nat)
    requires Run(states, steps) && i < |steps| && !Sends(steps[i], d) && steps[i].action == Receive(ch)
    requires ch in Receiving(states[i], d).p.e.receivers
    ensures L.Receives(Receiving(states[i], d).p, ch, Receiving(states[i + 1], d).p)
  {
    hide Init;
    hide L.Receives;
    assert Next(states[i], steps[i], states[i + 1]);
  }

  lemma OrderedLeft(r: R.Receiver, delivered: seq<(nat, Bytes)>, log: seq<Bytes>)
    requires R.Inv(r) && R.Mirrors(r, log) && R.Exact(r, delivered) && r.order.Ordered?
    requires forall id :: 0 <= id < |log| ==> id in r.messages || L.HandedOver(delivered, id, log[id])
    ensures r.oldest in r.messages <==> |delivered| < |log|
  {
    hide R.Held;
    if |delivered| < |log| {
      assert r.oldest == |delivered|;
      assert r.oldest in r.messages || L.HandedOver(delivered, r.oldest, log[r.oldest]);
    }
  }

  /** Ids handed over are distinct, and those not held are handed over: with nothing held they are all there. */
  lemma UnorderedLeft(r: R.Receiver, delivered: seq<(nat, Bytes)>, log: seq<Bytes>)
    requires R.Inv(r) && R.Mirrors(r, log) && R.Exact(r, delivered) && L.Faithful(delivered, log) && r.order.Unordered?
    requires forall id :: 0 <= id < |log| ==> id in r.messages || L.HandedOver(delivered, id, log[id])
    ensures r.messages != map[] <==> |delivered| < |log|
  {
    hide R.Held;
    var ids := IdsOf(delivered);
    IdsCount(delivered);
    var all := Below(|log|);
    assert ids <= all;
    if r.messages == map[] {
      forall id | id in all
        ensures id in ids
      {
        assert L.HandedOver(delivered, id, log[id]);
        var k :| 0 <= k < |delivered| && delivered[k] == (id, log[id]);
        assert delivered[k].0 == id;
      }
      assert ids == all;
    } else {
      var id :| id in r.messages;
      assert id in all && id !in ids;
      assert ids <= all - {id};
      SubsetSize(ids, all - {id});
    }
  }

  function IdsOf(delivered: seq<(nat, Bytes)>): set<nat> {
    set k | 0 <= k < |delivered| :: delivered[k].0
  }

  lemma {:induction false} IdsCount(delivered: seq<(nat, Bytes)>)
    requires forall i, j :: 0 <= i < j < |delivered| ==> delivered[i].0 != delivered[j].0
    ensures |IdsOf(delivered)| == |delivered|
  {
    if delivered != [] {
      var front, last := delivered[..|delivered| - 1], delivered[|delivered| - 1];
      IdsCount(front);
      assert IdsOf(delivered) == IdsOf(front) + {last.0};
      assert last.0 !in IdsOf(front);
    }
  }

  /** The ids below `n`. */
  function Below(n: nat): (ids: set<nat>)
    ensures |ids| == n && forall id: nat :: id in ids <==> id < n
  {
    if n == 0 then {} else Below(n - 1) + {n - 1}
  }
}
