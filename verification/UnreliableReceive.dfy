/** Receiving side of an unreliable channel (renet2/src/channel/unreliable.rs). */
module UnreliableReceiving {
  import opened Base
  import opened Sums
  import opened Slicing
  import opened SliceConstruction
  import opened UnreliableSending
  import R = ReliableReceiving

  datatype Receiver = Receiver(
    slices: map<nat, Assembly>,
    lastReceived: map<nat, nat>,
    messages: seq<Bytes>,
    memory: nat,
    maxMemory: nat)

  ghost function Held(r: Receiver): nat {
    BytesOf(r.messages) + SLICE_SIZE * Total(R.Sizes(r.slices))
  }

  ghost predicate Inv(r: Receiver) {
    && r.memory == Held(r) <= r.maxMemory
    && r.lastReceived.Keys <= r.slices.Keys
    && forall id :: id in r.slices ==> Open(r.slices[id])
  }

  function Empty(maxMemory: nat): Receiver {
    Receiver(map[], map[], [], 0, maxMemory)
  }

  /** A message that does not fit the memory is dropped. */
  function ProcessMessage(r: Receiver, m: Bytes): Receiver {
    if r.memory + |m| > r.maxMemory then r else r.(memory := r.memory + |m|, messages := r.messages + [m])
  }

  lemma ProcessMessageInv(r: Receiver, m: Bytes)
    requires Inv(r)
    ensures Inv(ProcessMessage(r, m))
  {
    BytesSnoc(r.messages, m);
  }

  predicate Consistent(r: Receiver, s: Slice) {
    && s.sliceIndex < s.numSlices
    && (s.messageId in r.slices ==> r.slices[s.messageId].numSlices == s.numSlices)
  }

  function WithConstructor(r: Receiver, s: Slice): Receiver {
    if s.messageId in r.slices then r
    else r.(slices := r.slices[s.messageId := Fresh(s.numSlices)], memory := r.memory + s.numSlices * SLICE_SIZE)
  }

  lemma WithConstructorInv(r: Receiver, s: Slice)
    requires Inv(r) && Consistent(r, s)
    requires s.messageId in r.slices || r.memory + s.numSlices * SLICE_SIZE <= r.maxMemory
    ensures var r1 := WithConstructor(r, s);
            && Inv(r1) && s.messageId in r1.slices && r1.slices[s.messageId].numSlices == s.numSlices
            && s.numSlices * SLICE_SIZE <= r1.memory
  {
    hide BytesOf;
    hide Count;
    var r1 := WithConstructor(r, s);
    if s.messageId !in r.slices {
      FreshIsOpen(s.numSlices);
      assert R.Sizes(r1.slices) == R.Sizes(r.slices)[s.messageId := s.numSlices];
      TotalInsert(R.Sizes(r.slices), s.messageId, s.numSlices);
    }
    TotalRemove(R.Sizes(r1.slices), s.messageId);
  }

  /** The slice goes to its constructor, whose memory is traded for the message once it is whole. */
  ghost function Feed(r: Receiver, s: Slice, now: nat): (Receiver, Result<(), ChannelError>)
    requires s.messageId in r.slices && Open(r.slices[s.messageId])
    requires s.sliceIndex < s.numSlices == r.slices[s.messageId].numSlices && s.numSlices * SLICE_SIZE <= r.memory
  {
    var id := s.messageId;
    var (a, res) := Accept(r.slices[id], s.sliceIndex, s.payload);
    match res
    case Err(e) => (r.(slices := r.slices[id := a]), Err(e))
    case Ok(None) => (r.(slices := r.slices[id := a], lastReceived := r.lastReceived[id := now]), Ok(()))
    case Ok(Some(m)) =>
      (r.(slices := r.slices - {id}, lastReceived := r.lastReceived - {id},
          memory := r.memory - s.numSlices * SLICE_SIZE + |m|, messages := r.messages + [m]), Ok(()))
  }

  lemma FeedInv(r: Receiver, s: Slice, now: nat)
    requires Inv(r) && s.messageId in r.slices && s.sliceIndex < s.numSlices == r.slices[s.messageId].numSlices
    requires s.numSlices * SLICE_SIZE <= r.memory
    ensures Inv(Feed(r, s, now).0)
  {
    hide BytesOf;
    hide Accept;
    hide Count;
    var id := s.messageId;
    AcceptOpen(r.slices[id], s.sliceIndex, s.payload);
    var (a, res) := Accept(r.slices[id], s.sliceIndex, s.payload);
    match res
    case Err(_) =>
      assert r.slices[id := a] == r.slices;
    case Ok(None) =>
      assert R.Sizes(r.slices[id := a]) == R.Sizes(r.slices);
    case Ok(Some(m)) =>
      TotalRemove(R.Sizes(r.slices), id);
      assert R.Sizes(r.slices - {id}) == R.Sizes(r.slices) - {id};
      BytesSnoc(r.messages, m);
  }

  ghost function ProcessSlice(r: Receiver, s: Slice, now: nat): (Receiver, Result<(), ChannelError>)
    requires Inv(r) && Consistent(r, s)
  {
    if s.messageId !in r.slices && r.memory + s.numSlices * SLICE_SIZE > r.maxMemory then (r, Ok(()))
    else
      WithConstructorInv(r, s);
      Feed(WithConstructor(r, s), s, now)
  }

  lemma ProcessSliceInv(r: Receiver, s: Slice, now: nat)
    requires Inv(r) && Consistent(r, s)
    ensures Inv(ProcessSlice(r, s, now).0)
  {
    hide Inv;
    if s.messageId in r.slices || r.memory + s.numSlices * SLICE_SIZE <= r.maxMemory {
      WithConstructorInv(r, s);
      FeedInv(WithConstructor(r, s), s, now);
    }
  }

  lemma ReceiveInv(r: Receiver)
    requires Inv(r) && r.messages != []
    ensures |r.messages[0]| <= r.memory
    ensures Inv(r.(messages := r.messages[1..], memory := r.memory - |r.messages[0]|))
  {
    BytesFront(r.messages);
    hide BytesOf;
  }

  /** The oldest message is handed over. */
  function Receive(r: Receiver): (Receiver, Option<Bytes>)
    requires Inv(r)
  {
    if r.messages == [] then (r, None)
    else
      ReceiveInv(r);
      (r.(messages := r.messages[1..], memory := r.memory - |r.messages[0]|), Some(r.messages[0]))
  }

  // ----- Giving up incomplete messages

  predicate Stale(r: Receiver, id: nat, now: nat) {
    id in r.lastReceived && now - r.lastReceived[id] >= DISCARD_AFTER
  }

  /**
   * What a pass gives up: in order of id, the stale ones before the first that is fresh. Times
   * need not follow ids, so a stale message above a fresh one stays.
   */
  ghost predicate GivenUp(r: Receiver, id: nat, now: nat) {
    id in r.lastReceived && forall k :: k in r.lastReceived && k <= id ==> Stale(r, k, now)
  }

  /** The channel once everything given up is gone, with the memory it had reserved. */
  ghost function Discarded(r: Receiver, now: nat): Receiver {
    var slices := map id | id in r.slices && !GivenUp(r, id, now) :: r.slices[id];
    r.(slices := slices,
       lastReceived := map id | id in r.lastReceived && !GivenUp(r, id, now) :: r.lastReceived[id],
       memory := BytesOf(r.messages) + SLICE_SIZE * Total(R.Sizes(slices)))
  }

  lemma DiscardedInv(r: Receiver, now: nat)
    requires Inv(r)
    ensures Inv(Discarded(r, now))
  {
    hide GivenUp;
    hide BytesOf;
    hide Open;
    TotalPart(R.Sizes(Discarded(r, now).slices), R.Sizes(r.slices));
  }

  lemma RemoveInv(r: Receiver, id: nat)
    requires Inv(r) && id in r.slices
    ensures r.slices[id].numSlices * SLICE_SIZE <= r.memory
    ensures Inv(r.(slices := r.slices - {id}, lastReceived := r.lastReceived - {id},
                   memory := r.memory - r.slices[id].numSlices * SLICE_SIZE))
  {
    hide BytesOf;
    hide Count;
    TotalRemove(R.Sizes(r.slices), id);
    assert R.Sizes(r.slices - {id}) == R.Sizes(r.slices) - {id};
  }

  /**
   * A pass leaves nothing stale behind exactly when, before it, no stale message stood above a
   * fresh one. It never touches a fresh message.
   */
  lemma AllStaleGivenUp(r: Receiver, now: nat)
    ensures var r' := Discarded(r, now);
            && ((forall id :: !Stale(r', id, now)) <==>
                  (forall k, id :: k in r.lastReceived && Stale(r, id, now) && k < id ==> Stale(r, k, now)))
            && (forall id :: id in r.slices && !Stale(r, id, now) ==> id in r'.slices && r'.slices[id] == r.slices[id])
            && r'.messages == r.messages
  {
    hide BytesOf;
    var r' := Discarded(r, now);
    if forall id :: !Stale(r', id, now) {
      forall k, id | k in r.lastReceived && Stale(r, id, now) && k < id
        ensures Stale(r, k, now)
      {
        assert !Stale(r', id, now);
      }
    } else {
      var id: nat :| Stale(r', id, now);
      assert Stale(r, id, now) && !GivenUp(r, id, now);
      var k: nat :| k in r.lastReceived && k <= id && !Stale(r, k, now);
      assert k < id;
    }
  }

  /** The first slice of a long message, as it arrives. */
  ghost predicate Arrives(r: Receiver, m: Bytes, id: nat, now: nat, r': Receiver) {
    && 0 < NumSlices(|m|) && Inv(r) && Consistent(r, SliceOf(m, id, 0))
    && r' == ProcessSlice(r, SliceOf(m, id, 0), now).0
  }

  lemma FirstSlice(r: Receiver, m: Bytes, id: nat, now: nat) returns (r': Receiver)
    requires Inv(r) && |m| > SLICE_SIZE && (id in r.slices ==> PartOf(r.slices[id], m) && !r.slices[id].received[1])
    requires id in r.slices || r.memory + NumSlices(|m|) * SLICE_SIZE <= r.maxMemory
    ensures Arrives(r, m, id, now, r') && Inv(r')
    ensures id in r'.slices && PartOf(r'.slices[id], m) && !r'.slices[id].received[1]
    ensures r' ==
              r.(slices := r.slices[id := r'.slices[id]], lastReceived := r.lastReceived[id := now],
                 memory := r'.memory)
    ensures r'.memory == if id in r.slices then r.memory else r.memory + NumSlices(|m|) * SLICE_SIZE
  {
    hide Inv;
    hide Accept;
    SliceBounds(m, 0);
    FreshIsPart(m);
    var s := SliceOf(m, id, 0);
    ProcessSliceInv(r, s, now);
    WithConstructorInv(r, s);
    AcceptHonest(WithConstructor(r, s).slices[id], m, 0);
    r' := ProcessSlice(r, s, now).0;
  }

  /**
   * Slices of two messages arrive at the start, one of message 0 again after 2 s; after 3 s the pass
   * keeps message 1, of which nothing has arrived for 3 s.
   */
  lemma StaleStays(m0: Bytes, m1: Bytes, maxMemory: nat) returns (r: Receiver)
    requires |m0| > SLICE_SIZE && |m1| > SLICE_SIZE
    requires (NumSlices(|m0|) + NumSlices(|m1|)) * SLICE_SIZE <= maxMemory
    ensures exists r1, r2 ::
              && Arrives(Empty(maxMemory), m0, 0, 0, r1) && Arrives(r1, m1, 1, 0, r2)
              && Arrives(r2, m0, 0, 2_000_000_000, r)
    ensures Stale(Discarded(r, 3_000_000_000), 1, 3_000_000_000) && 1 in Discarded(r, 3_000_000_000).slices
  {
    hide Arrives;
    hide Inv;
    hide PartOf;
    hide BytesOf;
    assert Inv(Empty(maxMemory)) by {
      EmptyInv(maxMemory);
    }
    var r1 := FirstSlice(Empty(maxMemory), m0, 0, 0);
    var r2 := FirstSlice(r1, m1, 1, 0);
    r := FirstSlice(r2, m0, 0, 2_000_000_000);
    assert !Stale(r, 0, 3_000_000_000);
    assert !GivenUp(r, 1, 3_000_000_000);
  }

  lemma EmptyInv(maxMemory: nat)
    ensures Inv(Empty(maxMemory))
  {
  }
}

/** The unreliable receiving channel object. */
module UnreliableReceiveChannel {
  import opened Base
  import opened Sums
  import opened SliceConstruction
  import opened UnreliableSending
  import R = ReliableReceiving
  import U = UnreliableReceiving

  class ReceiveChannelUnreliable {
    const maxMemory: nat
    var slices: map<nat, Assembly>
    var slicesLastReceived: map<nat, nat>
    var messages: seq<Bytes>
    var memory: nat

    ghost function View(): U.Receiver
      reads this
    {
      U.Receiver(slices, slicesLastReceived, messages, memory, maxMemory)
    }

    ghost predicate Valid()
      reads this
    {
      U.Inv(View())
    }

    constructor (maxMemory: nat)
      ensures Valid() && View() == U.Empty(maxMemory)
    {
      this.maxMemory := maxMemory;
      slices, slicesLastReceived, messages, memory := map[], map[], [], 0;
    }

    method ProcessMessage(message: Bytes)
      requires Valid()
      modifies this
      ensures Valid() && View() == U.ProcessMessage(old(View()), message)
    {
      hide U.Inv;
      U.ProcessMessageInv(View(), message);
      if memory + |message| > maxMemory {
        return;
      }
      memory := memory + |message|;
      messages := messages + [message];
    }

    method ProcessSlice(slice: Slice, currentTime: nat) returns (r: Result<(), ChannelError>)
      requires Valid() && U.Consistent(View(), slice)
      modifies this
      ensures Valid() && (View(), r) == U.ProcessSlice(old(View()), slice, currentTime)
    {
      hide U.Inv;
      hide Accept;
      hide Fresh;
      U.ProcessSliceInv(View(), slice, currentTime);
      var id := slice.messageId;
      if id !in slices {
        var messageLen := slice.numSlices * SLICE_SIZE;
        if memory + messageLen > maxMemory {
          return Ok(());
        }
        memory := memory + messageLen;
        slices := slices[id := Fresh(slice.numSlices)];
      }
      U.WithConstructorInv(old(View()), slice);
      OpenAt(old(View()), slice);
      ghost var fed := View();
      assert fed == U.WithConstructor(old(View()), slice);
      var (constructed, res) := Accept(slices[id], slice.sliceIndex, slice.payload);
      slices := slices[id := constructed];
      if res.Err? {
        return Err(res.error);
      }
      if res.value.Some? {
        var message := res.value.value;
        slices := slices - {id};
        assert slices == fed.slices - {id};
        slicesLastReceived := slicesLastReceived - {id};
        memory := memory - slice.numSlices * SLICE_SIZE;
        memory := memory + |message|;
        messages := messages + [message];
      } else {
        slicesLastReceived := slicesLastReceived[id := currentTime];
      }
      return Ok(());
    }

    method ReceiveMessage() returns (message: Option<Bytes>)
      requires Valid()
      modifies this
      ensures Valid() && (View(), message) == U.Receive(old(View()))
      ensures message == if old(messages) == [] then None else Some(old(messages)[0])
    {
      if messages == [] {
        return None;
      }
      U.ReceiveInv(View());
      message := Some(messages[0]);
      memory := memory - |messages[0]|;
      messages := messages[1..];
    }

    /** The ids to give up, read off in order up to the first that is fresh. */
    method LostMessages(currentTime: nat) returns (lost: seq<nat>)
      ensures forall id :: id in lost <==> U.GivenUp(View(), id, currentTime)
      ensures forall id :: id in lost ==> id in slicesLastReceived
      ensures forall i, j :: 0 <= i < j < |lost| ==> lost[i] != lost[j]
    {
      lost := [];
      var rest := slicesLastReceived.Keys;
      while rest != {}
        invariant rest <= slicesLastReceived.Keys
        invariant forall id :: id in lost <==> id in slicesLastReceived && id !in rest
        invariant forall id, k :: id in lost && k in rest ==> id < k
        invariant forall id :: id in lost ==> U.Stale(View(), id, currentTime)
        invariant forall i, j :: 0 <= i < j < |lost| ==> lost[i] != lost[j]
        decreases rest
      {
        R.MinExists(rest);
        var id :| id in rest && R.IsMin(id, rest);
        if currentTime - slicesLastReceived[id] >= DISCARD_AFTER {
          lost := lost + [id];
          rest := rest - {id};
        } else {
          assert !U.Stale(View(), id, currentTime);
          return;
        }
      }
    }

    /** Every message given up has a constructor, so taking it out never fails. */
    method DiscardIncompleteOldSlices(currentTime: nat)
      requires Valid()
      modifies this
      ensures Valid() && View() == U.Discarded(old(View()), currentTime)
    {
      hide U.Inv;
      hide U.GivenUp;
      var lost := LostMessages(currentTime);
      ghost var before := View();
      LastHaveSlices(before);
      for i := 0 to |lost|
        invariant Valid() && messages == before.messages
        invariant forall id :: id in slicesLastReceived <==> id in before.lastReceived && id !in lost[..i]
        invariant forall id :: id in slices <==> id in before.slices && id !in lost[..i]
        invariant forall id :: id in slices ==> slices[id] == before.slices[id]
        invariant forall id :: id in slicesLastReceived ==> slicesLastReceived[id] == before.lastReceived[id]
      {
        var id := lost[i];
        assert id in lost && id !in lost[..i];
        assert lost[..i + 1] == lost[..i] + [id];
        U.RemoveInv(View(), id);
        slicesLastReceived := slicesLastReceived - {id};
        memory := memory - slices[id].numSlices * SLICE_SIZE;
        slices := slices - {id};
      }
      assert lost[..|lost|] == lost;
      IsDiscarded(before, View(), currentTime);
    }
  }

  lemma IsDiscarded(r: U.Receiver, r': U.Receiver, now: nat)
    requires U.Inv(r') && r'.messages == r.messages && r'.maxMemory == r.maxMemory
    requires forall id :: id in r'.slices <==> id in r.slices && !U.GivenUp(r, id, now)
    requires forall id :: id in r'.slices ==> r'.slices[id] == r.slices[id]
    requires forall id :: id in r'.lastReceived <==> id in r.lastReceived && !U.GivenUp(r, id, now)
    requires forall id :: id in r'.lastReceived ==> r'.lastReceived[id] == r.lastReceived[id]
    ensures r' == U.Discarded(r, now)
  {
    hide U.GivenUp;
    hide Open;
    assert r'.slices == U.Discarded(r, now).slices;
    assert r'.lastReceived == U.Discarded(r, now).lastReceived;
  }

  lemma OpenAt(r: U.Receiver, s: Slice)
    requires U.Inv(r) && U.Consistent(r, s)
    ensures var r1 := U.WithConstructor(r, s);
            s.messageId in r1.slices && Open(r1.slices[s.messageId]) && r1.slices[s.messageId].numSlices == s.numSlices
  {
    FreshIsOpen(s.numSlices);
  }

  lemma LastHaveSlices(r: U.Receiver)
    requires U.Inv(r)
    ensures r.lastReceived.Keys <= r.slices.Keys
  {
  }
}
