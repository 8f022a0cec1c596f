/** Receiving side of a reliable channel (renet2/src/channel/reliable.rs). */
module ReliableReceiving {
  import opened Base
  import opened Sums
  import opened Slicing
  import opened SliceConstruction

  datatype ReliableOrder = Ordered | Unordered(mostRecent: nat, received: set<nat>)

  datatype Receiver = Receiver(
    slices: map<nat, Assembly>,
    messages: map<nat, Bytes>,
    oldest: nat,
    order: ReliableOrder,
    memory: nat,
    maxMemory: nat)

  function Lengths(messages: map<nat, Bytes>): map<nat, nat> {
    map id | id in messages :: |messages[id]|
  }

  function Sizes(slices: map<nat, Assembly>): map<nat, nat> {
    map id | id in slices :: slices[id].numSlices
  }

  /** Bytes the channel answers for: held messages, and whole slices for each open constructor. */
  ghost function Held(r: Receiver): nat {
    Total(Lengths(r.messages)) + SLICE_SIZE * Total(Sizes(r.slices))
  }

  /** Message `id` has been taken in: it is held for the application or was handed over. */
  predicate Got(r: Receiver, id: nat) {
    || id < r.oldest
    || (r.order.Ordered? && id in r.messages)
    || (r.order.Unordered? && id in r.order.received)
  }

  ghost predicate OrderInv(r: Receiver) {
    match r.order
    case Ordered => forall id :: id in r.messages ==> r.oldest <= id
    case Unordered(_, received) =>
      && (forall id :: id in received ==> r.oldest <= id)
      && (forall id :: id in r.messages ==> Got(r, id))
      && (r.oldest in received ==> r.oldest in r.messages)
  }

  ghost predicate Inv(r: Receiver) {
    && r.memory == Held(r) <= r.maxMemory
    && (forall id :: id in r.slices ==> Open(r.slices[id]))
    && OrderInv(r)
  }

  function Empty(maxMemory: nat, ordered: bool): Receiver {
    Receiver(map[], map[], 0, if ordered then Ordered else Unordered(0, {}), 0, maxMemory)
  }

  /** Outcome of `process_message`. */
  function ProcessMessage(r: Receiver, m: Bytes, id: nat): (Receiver, Result<(), ChannelError>) {
    if id < r.oldest then (r, Ok(()))
    else
      var r1 := match r.order
        case Ordered => r
        case Unordered(recent, received) => r.(order := Unordered(if recent < id then id else recent, received));
      if Got(r, id) then (r1, Ok(()))
      else if r.memory + |m| > r.maxMemory then (r1, Err(ReliableChannelMaxMemoryReached))
      else
        (r1.(memory := r.memory + |m|,
             messages := r.messages[id := m],
             order := if r1.order.Ordered? then Ordered else Unordered(r1.order.mostRecent, r1.order.received + {id})),
         Ok(()))
  }

  /**
   * What the channel demands of its peer: slice indices are in range and every slice of a
   * message names the same number of slices.
   */
  predicate Consistent(r: Receiver, s: Slice) {
    && s.sliceIndex < s.numSlices
    && (s.messageId in r.slices ==> r.slices[s.messageId].numSlices == s.numSlices)
  }

  /** The channel with a constructor for the slice's message. */
  function WithConstructor(r: Receiver, s: Slice): Receiver {
    if s.messageId in r.slices then r
    else r.(slices := r.slices[s.messageId := Fresh(s.numSlices)], memory := r.memory + s.numSlices * SLICE_SIZE)
  }

  lemma WithConstructorInv(r: Receiver, s: Slice)
    requires Inv(r) && Consistent(r, s)
    requires s.messageId in r.slices || r.memory + s.numSlices * SLICE_SIZE <= r.maxMemory
    ensures Inv(WithConstructor(r, s)) && Reserved(WithConstructor(r, s), s)
  {
    hide Open;
    hide Total;
    hide Lengths;
    var r1 := WithConstructor(r, s);
    if s.messageId !in r.slices {
      FreshIsOpen(s.numSlices);
      assert Sizes(r1.slices) == Sizes(r.slices)[s.messageId := s.numSlices];
      TotalInsert(Sizes(r.slices), s.messageId, s.numSlices);
    }
    TotalRemove(Sizes(r1.slices), s.messageId);
  }

  /** A finished message leaves its constructor and is taken in with its exact size. */
  ghost function Finish(r: Receiver, s: Slice, m: Bytes): (Receiver, Result<(), ChannelError>)
    requires s.numSlices * SLICE_SIZE <= r.memory
  {
    var (r1, res) := ProcessMessage(r.(memory := r.memory - s.numSlices * SLICE_SIZE), m, s.messageId);
    if res.Err? then (r1, res) else (r1.(slices := r1.slices - {s.messageId}), res)
  }

  /** The slice's message has a constructor of the right size, with its memory reserved. */
  ghost predicate Reserved(r: Receiver, s: Slice) {
    && s.messageId in r.slices
    && s.sliceIndex < s.numSlices == r.slices[s.messageId].numSlices
    && Open(r.slices[s.messageId])
    && s.numSlices * SLICE_SIZE <= r.memory
  }

  /** The slice goes to its constructor. */
  ghost function Feed(r: Receiver, s: Slice): (Receiver, Result<(), ChannelError>)
    requires Reserved(r, s)
  {
    var (a, res) := Accept(r.slices[s.messageId], s.sliceIndex, s.payload);
    var r1 := r.(slices := r.slices[s.messageId := a]);
    match res
    case Err(e) => (r1, Err(e))
    case Ok(None) => (r1, Ok(()))
    case Ok(Some(m)) => Finish(r1, s, m)
  }

  /** Outcome of `process_slice`. */
  ghost function ProcessSlice(r: Receiver, s: Slice): (Receiver, Result<(), ChannelError>)
    requires Inv(r) && Consistent(r, s)
  {
    if s.messageId in r.messages || s.messageId < r.oldest then (r, Ok(()))
    else if s.messageId !in r.slices && r.memory + s.numSlices * SLICE_SIZE > r.maxMemory then
      (r, Err(ReliableChannelMaxMemoryReached))
    else
      WithConstructorInv(r, s);
      Feed(WithConstructor(r, s), s)
  }

  /** The pointer skips every id that has been received, forgetting it on the way. */
  ghost function Advance(oldest: nat, received: set<nat>): (nat, set<nat>)
    decreases received
  {
    if oldest in received then Advance(oldest + 1, received - {oldest}) else (oldest, received)
  }

  predicate IsMin(id: nat, ids: set<nat>) {
    id in ids && forall k :: k in ids ==> id <= k
  }

  lemma {:induction false} MinExists(ids: set<nat>)
    requires ids != {}
    ensures exists id :: IsMin(id, ids)
    decreases |ids|
  {
    var k :| k in ids;
    if ids == {k} {
      assert IsMin(k, ids);
    } else {
      assert ids - {k} != {};
      MinExists(ids - {k});
      var m :| IsMin(m, ids - {k});
      assert forall x :: x in ids ==> x == k || x in ids - {k};
      assert IsMin(if k < m then k else m, ids);
    }
  }

  ghost function Min(ids: set<nat>): (id: nat)
    requires ids != {}
    ensures IsMin(id, ids)
  {
    MinExists(ids);
    var id :| IsMin(id, ids);
    id
  }

  ghost function Take(r: Receiver, id: nat): Receiver
    requires id in r.messages && |r.messages[id]| <= r.memory
  {
    r.(messages := r.messages - {id}, memory := r.memory - |r.messages[id]|)
  }

  lemma TakeFits(r: Receiver, id: nat)
    requires Inv(r) && id in r.messages
    ensures |r.messages[id]| <= r.memory
    ensures Take(r, id).memory == Held(Take(r, id))
  {
    TotalRemove(Lengths(r.messages), id);
    assert Lengths(r.messages - {id}) == Lengths(r.messages) - {id};
  }

  /** Outcome of `receive_message`, with the id of the message handed over. */
  ghost function ReceiveMessage(r: Receiver): (Receiver, Option<(nat, Bytes)>)
    requires Inv(r)
  {
    match r.order
    case Ordered =>
      if r.oldest !in r.messages then (r, None)
      else
        TakeFits(r, r.oldest);
        (Take(r, r.oldest).(oldest := r.oldest + 1), Some((r.oldest, r.messages[r.oldest])))
    case Unordered(recent, received) =>
      if r.messages == map[] then (r, None)
      else
        assert r.messages.Keys != {};
        var id := Min(r.messages.Keys);
        TakeFits(r, id);
        var (oldest, rest) := if r.oldest == id then Advance(r.oldest, received) else (r.oldest, received);
        (Take(r, id).(oldest := oldest, order := Unordered(recent, rest)), Some((id, r.messages[id])))
  }

  // ----- What each operation keeps

  /** Slice `i` of message `id` has been taken in. */
  predicate GotSlice(r: Receiver, id: nat, i: nat) {
    Got(r, id) || (id in r.slices && i < |r.slices[id].received| && r.slices[id].received[i])
  }

  /** Nothing that was taken in is ever forgotten. */
  ghost predicate Grows(r: Receiver, r': Receiver) {
    && (forall id :: Got(r, id) ==> Got(r', id))
    && (forall id, i :: GotSlice(r, id, i) ==> GotSlice(r', id, i))
  }

  /** `delivered` lists what was handed over: each message taken in and no longer held, once. */
  ghost predicate Exact(r: Receiver, delivered: seq<(nat, Bytes)>) {
    && (forall i, j :: 0 <= i < j < |delivered| ==> delivered[i].0 != delivered[j].0)
    && (forall i :: 0 <= i < |delivered| ==> Got(r, delivered[i].0) && delivered[i].0 !in r.messages)
    && (forall id :: Got(r, id) && id !in r.messages ==> exists i :: 0 <= i < |delivered| && delivered[i].0 == id)
    && (r.order.Ordered? ==> |delivered| == r.oldest && forall i :: 0 <= i < |delivered| ==> delivered[i].0 == i)
  }

  lemma ProcessMessageInv(r: Receiver, m: Bytes, id: nat)
    requires Inv(r)
    ensures Inv(ProcessMessage(r, m, id).0)
  {
    if !Got(r, id) && r.memory + |m| <= r.maxMemory {
      assert id !in r.messages;
      assert Lengths(r.messages[id := m]) == Lengths(r.messages)[id := |m|];
      TotalInsert(Lengths(r.messages), id, |m|);
    }
  }

  lemma ProcessMessageGrows(r: Receiver, m: Bytes, id: nat)
    ensures var (r', res) := ProcessMessage(r, m, id);
            Grows(r, r') && (res.Ok? ==> Got(r', id))
  {
  }

  lemma ProcessMessageExact(r: Receiver, m: Bytes, id: nat, delivered: seq<(nat, Bytes)>)
    requires Inv(r) && Exact(r, delivered)
    ensures Exact(ProcessMessage(r, m, id).0, delivered)
  {
    var r' := ProcessMessage(r, m, id).0;
    assert forall k :: Got(r', k) && k !in r'.messages ==> Got(r, k) && k !in r.messages;
    assert forall k :: Got(r, k) && k !in r.messages ==> Got(r', k) && k !in r'.messages;
  }

  /** The channel once the constructor of `id` has given back what it reserved. */
  ghost function Released(r: Receiver, id: nat): Receiver
    requires id in r.slices && r.slices[id].numSlices * SLICE_SIZE <= r.memory
  {
    r.(slices := r.slices - {id}, memory := r.memory - r.slices[id].numSlices * SLICE_SIZE)
  }

  lemma ReleasedInv(r: Receiver, id: nat)
    requires Inv(r) && id in r.slices && r.slices[id].numSlices * SLICE_SIZE <= r.memory
    ensures Inv(Released(r, id))
  {
    TotalRemove(Sizes(r.slices), id);
    assert Sizes(r.slices - {id}) == Sizes(r.slices) - {id};
  }

  lemma FinishIsProcessMessage(r: Receiver, s: Slice, a: Assembly, m: Bytes)
    requires s.messageId in r.slices && r.slices[s.messageId].numSlices == s.numSlices
    requires |m| <= s.numSlices * SLICE_SIZE <= r.memory <= r.maxMemory
    ensures var (r', res) := ProcessMessage(Released(r, s.messageId), m, s.messageId);
            res.Ok? && Finish(r.(slices := r.slices[s.messageId := a]), s, m) == (r', Ok(()))
  {
    var id := s.messageId;
    assert r.slices[id := a] - {id} == r.slices - {id};
  }

  /**
   * Trading the reserved slices for the finished message never exceeds the limit, so the
   * error path after reassembly is dead.
   */
  lemma FinishKeeps(r: Receiver, s: Slice, a: Assembly, m: Bytes)
    requires Inv(r) && s.messageId in r.slices && r.slices[s.messageId].numSlices == s.numSlices
    requires |m| <= s.numSlices * SLICE_SIZE <= r.memory
    ensures var (r', res) := Finish(r.(slices := r.slices[s.messageId := a]), s, m);
            res.Ok? && Inv(r') && Got(r', s.messageId) && Grows(r, r')
  {
    ReleasedInv(r, s.messageId);
    FinishIsProcessMessage(r, s, a, m);
    var base := Released(r, s.messageId);
    var r' := ProcessMessage(base, m, s.messageId).0;
    ProcessMessageInv(base, m, s.messageId);
    ProcessMessageGrows(base, m, s.messageId);
    assert forall id :: Got(r, id) ==> Got(base, id);
    assert forall id, i :: GotSlice(r, id, i) ==> id == s.messageId || GotSlice(base, id, i);
  }

  lemma StoreInv(r: Receiver, s: Slice, a: Assembly)
    requires Inv(r) && Reserved(r, s) && Open(a) && a.numSlices == s.numSlices
    ensures Inv(r.(slices := r.slices[s.messageId := a]))
  {
    assert Sizes(r.slices[s.messageId := a]) == Sizes(r.slices);
  }

  lemma StoreGrows(r: Receiver, id: nat, i: nat, a: Assembly)
    requires id in r.slices && i < |a.received| == |r.slices[id].received|
    requires a.received == r.slices[id].received[i := true]
    ensures var r' := r.(slices := r.slices[id := a]);
            Grows(r, r') && GotSlice(r', id, i)
  {
    var r' := r.(slices := r.slices[id := a]);
    forall k, j | GotSlice(r, k, j)
      ensures GotSlice(r', k, j)
    {
    }
  }

  lemma FeedKeeps(r: Receiver, s: Slice)
    requires Inv(r) && Reserved(r, s)
    ensures var (r', res) := Feed(r, s);
            && Inv(r') && Grows(r, r')
            && (res.Ok? ==> GotSlice(r', s.messageId, s.sliceIndex))
            && res != Err(ReliableChannelMaxMemoryReached)
  {
    var id := s.messageId;
    AcceptOpen(r.slices[id], s.sliceIndex, s.payload);
    var (a, res) := Accept(r.slices[id], s.sliceIndex, s.payload);
    match res
    case Err(_) =>
      assert r.slices[id := a] == r.slices;
    case Ok(None) =>
      StoreInv(r, s, a);
      StoreGrows(r, id, s.sliceIndex, a);
    case Ok(Some(m)) =>
      FinishKeeps(r, s, a, m);
  }

  lemma ProcessSliceKeeps(r: Receiver, s: Slice)
    requires Inv(r) && Consistent(r, s)
    ensures var (r', res) := ProcessSlice(r, s);
            && Inv(r') && Grows(r, r')
            && (res.Ok? ==> GotSlice(r', s.messageId, s.sliceIndex))
            && (res == Err(ReliableChannelMaxMemoryReached) ==>
                  r' == r && s.messageId !in r.slices && r.memory + s.numSlices * SLICE_SIZE > r.maxMemory)
  {
    hide Inv;
    hide Feed;
    hide WithConstructor;
    hide Reserved;
    hide Grows;
    hide Got;
    var id := s.messageId;
    GrowsSelf(r);
    if id in r.messages || id < r.oldest {
      HeldIsGot(r, id);
    } else if id in r.slices || r.memory + s.numSlices * SLICE_SIZE <= r.maxMemory {
      WithConstructorInv(r, s);
      WithConstructorGrows(r, s);
      FeedKeeps(WithConstructor(r, s), s);
      GrowsTwice(r, WithConstructor(r, s), Feed(WithConstructor(r, s), s).0);
    }
  }

  lemma GrowsSelf(r: Receiver)
    ensures Grows(r, r)
  {
  }

  lemma GrowsTwice(r: Receiver, r1: Receiver, r2: Receiver)
    requires Grows(r, r1) && Grows(r1, r2)
    ensures Grows(r, r2)
  {
  }

  lemma WithConstructorGrows(r: Receiver, s: Slice)
    ensures Grows(r, WithConstructor(r, s))
  {
  }

  lemma HeldIsGot(r: Receiver, id: nat)
    requires Inv(r) && (id in r.messages || id < r.oldest)
    ensures Got(r, id)
  {
  }

  lemma FeedExact(r: Receiver, s: Slice, delivered: seq<(nat, Bytes)>)
    requires Inv(r) && Reserved(r, s) && Exact(r, delivered)
    ensures Exact(Feed(r, s).0, delivered)
  {
    var id := s.messageId;
    AcceptOpen(r.slices[id], s.sliceIndex, s.payload);
    var (a, res) := Accept(r.slices[id], s.sliceIndex, s.payload);
    if res.Ok? && res.value.Some? {
      FinishIsProcessMessage(r, s, a, res.value.value);
      ReleasedInv(r, id);
      assert Exact(Released(r, id), delivered) by {
        assert forall k :: Got(Released(r, id), k) == Got(r, k);
      }
      ProcessMessageExact(Released(r, id), res.value.value, id, delivered);
    } else {
      assert forall k :: Got(Feed(r, s).0, k) == Got(r, k);
    }
  }

  lemma ProcessSliceExact(r: Receiver, s: Slice, delivered: seq<(nat, Bytes)>)
    requires Inv(r) && Consistent(r, s) && Exact(r, delivered)
    ensures Exact(ProcessSlice(r, s).0, delivered)
  {
    var id := s.messageId;
    if !(id in r.messages || id < r.oldest)
      && (id in r.slices || r.memory + s.numSlices * SLICE_SIZE <= r.maxMemory)
    {
      WithConstructorInv(r, s);
      assert forall k :: Got(WithConstructor(r, s), k) == Got(r, k);
      assert Exact(WithConstructor(r, s), delivered);
      FeedExact(WithConstructor(r, s), s, delivered);
    }
  }

  lemma {:induction false} AdvanceFacts(oldest: nat, received: set<nat>)
    requires forall k :: k in received ==> oldest <= k
    ensures var (o, rest) := Advance(oldest, received);
            && oldest <= o && o !in rest && (oldest in received ==> oldest < o)
            && (forall k :: k in rest ==> o <= k)
            && (forall k: nat :: k < o || k in rest <==> k < oldest || k in received)
    decreases received
  {
    if oldest in received {
      AdvanceFacts(oldest + 1, received - {oldest});
    }
  }

  /** Handing a message over changes what is held, never what has been taken in. */
  lemma ReceiveMessageGot(r: Receiver)
    requires Inv(r)
    ensures var (r', res) := ReceiveMessage(r);
            && (forall id :: Got(r', id) <==> Got(r, id))
            && r'.slices == r.slices
            && (res.None? ==> r' == r)
            && (res.Some? ==> res.value.0 in r.messages && res.value.1 == r.messages[res.value.0]
                              && r'.messages == r.messages - {res.value.0})
  {
    if r.order.Unordered? {
      AdvanceFacts(r.oldest, r.order.received);
    }
  }

  lemma ReceiveMessageInv(r: Receiver)
    requires Inv(r)
    ensures Inv(ReceiveMessage(r).0)
  {
    var (r', res) := ReceiveMessage(r);
    if res.Some? {
      TakeFits(r, res.value.0);
      ReceiveMessageGot(r);
      if r.order.Unordered? {
        AdvanceFacts(r.oldest, r.order.received);
      }
    }
  }

  lemma ReceiveMessageExact(r: Receiver, delivered: seq<(nat, Bytes)>)
    requires Inv(r) && Exact(r, delivered)
    ensures var (r', res) := ReceiveMessage(r);
            Exact(r', delivered + if res.Some? then [res.value] else [])
  {
    var (r', res) := ReceiveMessage(r);
    ReceiveMessageGot(r);
    if res.Some? {
      var delivered' := delivered + [res.value];
      assert delivered'[|delivered|].0 == res.value.0;
      assert forall i :: 0 <= i < |delivered| ==> delivered'[i] == delivered[i];
    } else {
      assert delivered + [] == delivered;
    }
  }

  /**
   * An unordered channel never gets stuck: when the message the pointer waits for is handed
   * over, the pointer moves, and to an id that has not been taken in.
   */
  lemma PointerMoves(r: Receiver)
    requires Inv(r) && r.order.Unordered? && r.messages != map[]
    ensures var (r', res) := ReceiveMessage(r);
            && res.Some?
            && (res.value.0 == r.oldest ==> r.oldest < r'.oldest && !Got(r', r'.oldest))
            && (res.value.0 != r.oldest ==> r'.oldest == r.oldest)
  {
    AdvanceFacts(r.oldest, r.order.received);
  }

  /** A message is taken in exactly when it was before or fits besides what is held and reserved. */
  lemma TakenInExactly(r: Receiver, m: Bytes, id: nat)
    requires Inv(r)
    ensures var (r', res) := ProcessMessage(r, m, id);
            && (res.Ok? <==> Got(r, id) || Held(r) + |m| <= r.maxMemory)
            && r'.slices == r.slices && r'.oldest == r.oldest
            && r'.messages == (if res.Ok? && !Got(r, id) then r.messages[id := m] else r.messages)
            && (forall k :: Got(r', k) <==> Got(r, k) || (k == id && res.Ok?))
  {
  }

  /** A message is handed over exactly when there is one: the next in order, or the one with the least id. */
  lemma HandedOverExactly(r: Receiver)
    requires Inv(r)
    ensures var (r', res) := ReceiveMessage(r);
            && (r.order.Ordered? ==> (res.Some? <==> r.oldest in r.messages))
            && (r.order.Unordered? ==> (res.Some? <==> r.messages != map[]))
            && (res.Some? ==>
                  && res.value.0 in r.messages && res.value.1 == r.messages[res.value.0]
                  && (r.order.Ordered? ==> res.value.0 == r.oldest)
                  && forall k :: k in r.messages ==> res.value.0 <= k)
  {
    hide Held;
    if r.order.Unordered? && r.messages != map[] {
      assert r.messages.Keys != {};
      assert IsMin(Min(r.messages.Keys), r.messages.Keys);
    }
  }

  // ----- What the channel holds, against the messages that were sent

  /**
   * Everything the channel holds comes from `log`, the messages the peer sent in order of id:
   * held messages are byte for byte those sent, and constructors hold parts of long ones. An
   * ordered channel keeps no constructor for a message it has taken in.
   */
  ghost predicate Mirrors(r: Receiver, log: seq<Bytes>) {
    && r.oldest <= |log|
    && (r.order.Unordered? ==> forall id :: id in r.order.received ==> id < |log|)
    && (forall id :: id in r.messages ==> id < |log| && r.messages[id] == log[id])
    && (forall id :: id in r.slices ==> id < |log| && |log[id]| > SLICE_SIZE && PartOf(r.slices[id], log[id]))
    && (r.order.Ordered? ==> forall id :: id in r.slices ==> !Got(r, id))
  }

  lemma ProcessMessageMirrors(r: Receiver, log: seq<Bytes>, id: nat)
    requires Mirrors(r, log) && id < |log| && id !in r.slices
    ensures Mirrors(ProcessMessage(r, log[id], id).0, log)
  {
  }

  lemma WithConstructorMirrors(r: Receiver, log: seq<Bytes>, id: nat, i: nat)
    requires Mirrors(r, log) && id < |log| && |log[id]| > SLICE_SIZE && i < NumSlices(|log[id]|)
    requires id !in r.messages && r.oldest <= id
    ensures Mirrors(WithConstructor(r, SliceOf(log[id], id, i)), log)
  {
    FreshIsPart(log[id]);
  }

  lemma ReleasedMirrors(r: Receiver, log: seq<Bytes>, id: nat)
    requires Mirrors(r, log) && id in r.slices && r.slices[id].numSlices * SLICE_SIZE <= r.memory
    ensures Mirrors(Released(r, id), log)
  {
  }

  lemma StoreMirrors(r: Receiver, log: seq<Bytes>, id: nat, a: Assembly)
    requires Mirrors(r, log) && id in r.slices && PartOf(a, log[id])
    ensures Mirrors(r.(slices := r.slices[id := a]), log)
  {
  }

  lemma FeedMirrors(r: Receiver, log: seq<Bytes>, id: nat, i: nat)
    requires Inv(r) && Mirrors(r, log) && id < |log| && |log[id]| > SLICE_SIZE && i < NumSlices(|log[id]|)
    requires Reserved(r, SliceOf(log[id], id, i))
    ensures var (r', res) := Feed(r, SliceOf(log[id], id, i));
            Mirrors(r', log) && res.Ok?
  {
    var s := SliceOf(log[id], id, i);
    AcceptHonest(r.slices[id], log[id], i);
    AcceptOpen(r.slices[id], i, s.payload);
    var (a, res) := Accept(r.slices[id], i, s.payload);
    if Complete(a) {
      FinishIsProcessMessage(r, s, a, log[id]);
      ReleasedMirrors(r, log, id);
      ProcessMessageMirrors(Released(r, id), log, id);
    } else {
      StoreMirrors(r, log, id, a);
    }
  }

  /** A slice of a sent message is consistent, and is refused only for want of memory. */
  lemma ProcessSliceMirrors(r: Receiver, log: seq<Bytes>, id: nat, i: nat)
    requires Inv(r) && Mirrors(r, log) && id < |log| && |log[id]| > SLICE_SIZE && i < NumSlices(|log[id]|)
    ensures Consistent(r, SliceOf(log[id], id, i))
    ensures var (r', res) := ProcessSlice(r, SliceOf(log[id], id, i));
            Mirrors(r', log) && res != Err(InvalidSliceMessage)
  {
    hide Inv;
    hide Feed;
    hide WithConstructor;
    hide Reserved;
    hide Open;
    var s := SliceOf(log[id], id, i);
    if !(id in r.messages || id < r.oldest)
      && (id in r.slices || r.memory + s.numSlices * SLICE_SIZE <= r.maxMemory)
    {
      WithConstructorInv(r, s);
      WithConstructorMirrors(r, log, id, i);
      FeedMirrors(WithConstructor(r, s), log, id, i);
    }
  }

  lemma ReceiveMessageMirrors(r: Receiver, log: seq<Bytes>)
    requires Inv(r) && Mirrors(r, log)
    ensures var (r', res) := ReceiveMessage(r);
            && Mirrors(r', log)
            && (res.Some? ==> res.value.0 < |log| && res.value.1 == log[res.value.0])
  {
    var r' := ReceiveMessage(r).0;
    ReceiveMessageGot(r);
    assert r'.oldest > 0 ==> Got(r', r'.oldest - 1);
    assert r'.order.Unordered? ==> forall id :: id in r'.order.received ==> Got(r', id);
    assert forall id: nat :: Got(r, id) ==> id < |log|;
  }

  // ----- Constructors of messages already taken in

  /**
   * A late slice of a message already taken in opens a constructor again exactly when the message
   * was handed over ahead of the pointer, which only an unordered channel does, and there is room.
   */
  lemma LateSlice(r: Receiver, m: Bytes, id: nat, i: nat)
    requires Inv(r) && Got(r, id) && id !in r.slices && |m| > SLICE_SIZE && i < NumSlices(|m|)
    ensures Consistent(r, SliceOf(m, id, i))
    ensures id in ProcessSlice(r, SliceOf(m, id, i)).0.slices <==>
              && r.order.Unordered? && r.oldest <= id && id !in r.messages
              && r.memory + NumSlices(|m|) * SLICE_SIZE <= r.maxMemory
    ensures var late := ProcessSlice(r, SliceOf(m, id, i)).0;
            late.messages == r.messages && late.oldest == r.oldest && late.order == r.order
  {
    hide Inv;
    hide Open;
    hide Accept;
    FreshIsPart(m);
    AcceptHonest(Fresh(NumSlices(|m|)), m, i);
    SliceBounds(m, i);
    assert Fresh(NumSlices(|m|)).received[if i == 0 then 1 else 0] == false;
  }

  /** The pointer then moves past it: "no constructor below the pointer" is not an invariant. */
  lemma StrayConstructor(r: Receiver, m: Bytes, i: nat)
    requires Inv(r) && r.order.Unordered? && |m| > SLICE_SIZE && i < NumSlices(|m|)
    requires r.oldest in r.messages && forall id :: id in r.messages ==> r.oldest <= id
    requires r.oldest + 1 in r.order.received && r.oldest + 1 !in r.messages && r.oldest + 1 !in r.slices
    requires r.oldest in r.order.received && r.memory + NumSlices(|m|) * SLICE_SIZE <= r.maxMemory
    ensures var id := r.oldest + 1;
            && Consistent(r, SliceOf(m, id, i))
            && var late := ProcessSlice(r, SliceOf(m, id, i)).0;
               Inv(late) && id < ReceiveMessage(late).0.oldest && id in ReceiveMessage(late).0.slices
  {
    hide Inv;
    hide Take;
    hide ProcessSlice;
    hide Consistent;
    hide SliceOf;
    var id := r.oldest + 1;
    LateSlice(r, m, id, i);
    ProcessSliceKeeps(r, SliceOf(m, id, i));
    PopsPointer(ProcessSlice(r, SliceOf(m, id, i)).0);
  }

  /** Both slices of a message that has two. */
  lemma TwoSlices(r: Receiver, m: Bytes, id: nat) returns (r1: Receiver, r2: Receiver)
    requires Inv(r) && SLICE_SIZE < |m| <= 2 * SLICE_SIZE && r.order.Unordered?
    requires r.oldest <= id && !Got(r, id) && id !in r.messages && id !in r.slices
    requires r.memory + 2 * SLICE_SIZE <= r.maxMemory
    ensures NumSlices(|m|) == 2 && Consistent(r, SliceOf(m, id, 0)) && r1 == ProcessSlice(r, SliceOf(m, id, 0)).0
    ensures Inv(r1) && Consistent(r1, SliceOf(m, id, 1)) && r2 == ProcessSlice(r1, SliceOf(m, id, 1)).0
    ensures Inv(r2) && r2.messages == r.messages[id := m] && r2.slices == r.slices && r2.oldest == r.oldest
    ensures r2.order.Unordered? && r2.order.received == r.order.received + {id}
    ensures r2.memory == r.memory + |m| && r2.maxMemory == r.maxMemory
  {
    hide Inv;
    hide Accept;
    hide Open;
    FreshIsPart(m);
    SliceBounds(m, 0);
    SliceBounds(m, 1);
    var s0, s1 := SliceOf(m, id, 0), SliceOf(m, id, 1);
    AcceptHonest(Fresh(2), m, 0);
    ProcessSliceKeeps(r, s0);
    r1 := ProcessSlice(r, s0).0;
    AcceptHonest(r1.slices[id], m, 1);
    ProcessSliceKeeps(r1, s1);
    r2 := ProcessSlice(r1, s1).0;
    assert r2.slices == r.slices;
  }

  lemma EmptyInv(maxMemory: nat, ordered: bool)
    ensures Inv(Empty(maxMemory, ordered))
  {
  }

  /** The one message there is goes out, ahead of those the pointer waits for. */
  lemma OnlyMessage(r: Receiver, id: nat)
    requires Inv(r) && r.order.Unordered? && r.messages.Keys == {id} && r.oldest < id
    ensures var (r', res) := ReceiveMessage(r);
            && Inv(r') && res == Some((id, r.messages[id])) && |r.messages[id]| <= r.memory
            && r' == r.(messages := map[], memory := r.memory - |r.messages[id]|)
  {
    ReceiveMessageInv(r);
    hide Inv;
    assert Min(r.messages.Keys) in r.messages.Keys;
    TakeFits(r, id);
    assert r.messages - {id} == map[];
  }

  /**
   * A run that leaves such a constructor: message 1 comes in two slices and is handed over, message
   * 0 comes, then a late slice of message 1, and message 0 is handed over.
   */
  lemma StrayRun(m0: Bytes, m1: Bytes, maxMemory: nat)
    returns (r1: Receiver, r2: Receiver, r3: Receiver, r4: Receiver, r5: Receiver)
    requires SLICE_SIZE < |m1| <= 2 * SLICE_SIZE && |m0| + 2 * SLICE_SIZE <= maxMemory
    ensures NumSlices(|m1|) == 2 && Inv(Empty(maxMemory, false)) && Inv(r1) && Inv(r2) && Inv(r4) && Inv(r5)
    ensures Consistent(Empty(maxMemory, false), SliceOf(m1, 1, 0)) && Consistent(r1, SliceOf(m1, 1, 1))
    ensures r1 == ProcessSlice(Empty(maxMemory, false), SliceOf(m1, 1, 0)).0
    ensures r2 == ProcessSlice(r1, SliceOf(m1, 1, 1)).0
    ensures (r3, Some((1, m1))) == ReceiveMessage(r2)
    ensures (r4, Ok(())) == ProcessMessage(r3, m0, 0)
    ensures Consistent(r4, SliceOf(m1, 1, 0)) && r5 == ProcessSlice(r4, SliceOf(m1, 1, 0)).0
    ensures var last := ReceiveMessage(r5).0;
            1 < last.oldest && 1 in last.slices
  {
    hide Inv;
    hide ProcessSlice;
    hide Consistent;
    hide SliceOf;
    EmptyInv(maxMemory, false);
    r1, r2 := TwoSlices(Empty(maxMemory, false), m1, 1);
    OnlyMessage(r2, 1);
    r3 := ReceiveMessage(r2).0;
    ProcessMessageInv(r3, m0, 0);
    r4 := ProcessMessage(r3, m0, 0).0;
    StrayConstructor(r4, m1, 0);
    r5 := ProcessSlice(r4, SliceOf(m1, 1, 0)).0;
  }

  lemma PopsPointer(r: Receiver)
    requires Inv(r) && r.order.Unordered? && r.oldest in r.messages && forall id :: id in r.messages ==> r.oldest <= id
    requires r.oldest in r.order.received && r.oldest + 1 in r.order.received
    ensures r.oldest + 1 < ReceiveMessage(r).0.oldest && ReceiveMessage(r).0.slices == r.slices
  {
    hide Held;
    hide Open;
    hide Advance;
    AdvanceFacts(r.oldest, r.order.received);
  }
}

/** The receiving channel object, operation by operation against `ReliableReceiving`. */
module ReliableReceiveChannel {
  import opened Base
  import opened Slicing
  import opened SliceConstruction
  import R = ReliableReceiving

  class ReceiveChannelReliable {
    var slices: map<nat, Assembly>
    var messages: map<nat, Bytes>
    var oldest: nat
    var order: R.ReliableOrder
    var memory: nat
    const maxMemory: nat

    ghost function View(): R.Receiver
      reads this
    {
      R.Receiver(slices, messages, oldest, order, memory, maxMemory)
    }

    ghost predicate Valid()
      reads this
    {
      R.Inv(View())
    }

    constructor (maxMemory: nat, ordered: bool)
      ensures Valid() && View() == R.Empty(maxMemory, ordered)
    {
      this.maxMemory := maxMemory;
      slices, messages, oldest, memory := map[], map[], 0, 0;
      order := if ordered then R.Ordered else R.Unordered(0, {});
    }

    method ProcessMessage(message: Bytes, messageId: nat) returns (r: Result<(), ChannelError>)
      modifies this
      ensures (View(), r) == R.ProcessMessage(old(View()), message, messageId)
    {
      if messageId < oldest {
        return Ok(());
      }
      match order {
        case Ordered =>
          if messageId !in messages {
            if memory + |message| > maxMemory {
              return Err(ReliableChannelMaxMemoryReached);
            }
            memory := memory + |message|;
            messages := messages[messageId := message];
          }
        case Unordered(mostRecent, received) =>
          if mostRecent < messageId {
            order := R.Unordered(messageId, received);
          }
          if messageId !in received {
            if memory + |message| > maxMemory {
              return Err(ReliableChannelMaxMemoryReached);
            }
            memory := memory + |message|;
            order := R.Unordered(order.mostRecent, received + {messageId});
            messages := messages[messageId := message];
          }
      }
      return Ok(());
    }

    method ProcessSlice(slice: Slice) returns (r: Result<(), ChannelError>)
      requires Valid() && R.Consistent(View(), slice)
      modifies this
      ensures Valid()
      ensures (View(), r) == R.ProcessSlice(old(View()), slice)
    {
      hide R.Inv;
      hide Accept;
      R.ProcessSliceKeeps(View(), slice);
      var id := slice.messageId;
      if id in messages || id < oldest {
        return Ok(());
      }
      if id !in slices {
        var messageLen := slice.numSlices * SLICE_SIZE;
        if memory + messageLen > maxMemory {
          return Err(ReliableChannelMaxMemoryReached);
        }
        memory := memory + messageLen;
        slices := slices[id := Fresh(slice.numSlices)];
      }
      R.WithConstructorInv(old(View()), slice);
      var (constructed, res) := Accept(slices[id], slice.sliceIndex, slice.payload);
      slices := slices[id := constructed];
      if res.Err? {
        return Err(res.error);
      }
      if res.value.Some? {
        memory := memory - slice.numSlices * SLICE_SIZE;
        var done := ProcessMessage(res.value.value, id);
        if done.Err? {
          return done;
        }
        slices := slices - {id};
      }
      return Ok(());
    }

    method ReceiveMessage() returns (message: Option<Bytes>)
      requires Valid()
      modifies this
      ensures Valid()
      ensures View() == R.ReceiveMessage(old(View())).0
      ensures match R.ReceiveMessage(old(View())).1
              case None => message == None
              case Some((_, m)) => message == Some(m)
    {
      hide R.Inv;
      R.ReceiveMessageInv(View());
      match order
      case Ordered =>
        if oldest !in messages {
          return None;
        }
        R.TakeFits(View(), oldest);
        var m := messages[oldest];
        messages := messages - {oldest};
        oldest := oldest + 1;
        memory := memory - |m|;
        return Some(m);
      case Unordered(mostRecent, received) =>
        if messages == map[] {
          return None;
        }
        assert messages.Keys != {};
        R.MinExists(messages.Keys);
        var id :| id in messages.Keys && R.IsMin(id, messages.Keys);
        R.TakeFits(View(), id);
        var m := messages[id];
        messages := messages - {id};
        if oldest == id {
          var rest := received;
          while oldest in rest
            modifies `oldest
            invariant R.Advance(oldest, rest) == R.Advance(old(oldest), received)
            decreases rest
          {
            rest := rest - {oldest};
            oldest := oldest + 1;
          }
          order := R.Unordered(mostRecent, rest);
        }
        memory := memory - |m|;
        return Some(m);
    }
  }
}
