/** Sending side of a reliable channel (renet2/src/channel/reliable.rs). */
module ReliableSending {
  import opened Base
  import opened Sums
  import opened Slicing

  datatype UnackedMessage =
    | Small(message: Bytes, lastSent: Option<nat>)
    | Sliced(message: Bytes, numSlices: nat, numAcked: nat, nextSlice: nat, acked: seq<bool>,
             sliceLastSent: seq<Option<nat>>)

  datatype Sender = Sender(
    channelId: nat,
    unacked: map<nat, UnackedMessage>,
    nextId: nat,
    resendTime: nat,
    memory: nat,
    maxMemory: nat)

  function NewUnacked(m: Bytes): UnackedMessage {
    if |m| > SLICE_SIZE then
      var n := NumSlices(|m|);
      Sliced(m, n, 0, 0, seq(n, _ => false), seq(n, _ => None))
    else Small(m, None)
  }

  function Lengths(unacked: map<nat, UnackedMessage>): map<nat, nat> {
    map id | id in unacked :: |unacked[id].message|
  }

  /** A stored message is kept in the form its length calls for, and is not yet wholly acked. */
  ghost predicate WellKept(u: UnackedMessage) {
    match u
    case Small(m, _) => |m| <= SLICE_SIZE
    case Sliced(m, n, numAcked, next, acked, sent) =>
      && |m| > SLICE_SIZE
      && n == NumSlices(|m|) == |acked| == |sent|
      && numAcked == Count(acked) < n
      && next <= n
  }

  ghost predicate Inv(s: Sender) {
    && s.memory == Total(Lengths(s.unacked)) <= s.maxMemory
    && (forall id :: id in s.unacked ==> id < s.nextId && WellKept(s.unacked[id]))
  }

  /** No timer lies in the future. */
  ghost predicate SentBefore(s: Sender, now: nat) {
    forall id :: id in s.unacked ==>
      match s.unacked[id]
      case Small(_, last) => last.Some? ==> last.value <= now
      case Sliced(_, _, _, _, _, last) =>
        forall i :: 0 <= i < |last| ==> (last[i].Some? ==> last[i].value <= now)
  }

  function Empty(channelId: nat, resendTime: nat, maxMemory: nat): Sender {
    Sender(channelId, map[], 0, resendTime, 0, maxMemory)
  }

  // ----- Sending a message

  function SendMessage(s: Sender, m: Bytes): (Sender, Result<(), ChannelError>) {
    if s.memory + |m| > s.maxMemory then (s, Err(ReliableChannelMaxMemoryReached))
    else
      (s.(memory := s.memory + |m|, unacked := s.unacked[s.nextId := NewUnacked(m)], nextId := s.nextId + 1), Ok(()))
  }

  lemma NewUnackedKept(m: Bytes)
    ensures WellKept(NewUnacked(m)) && NewUnacked(m).message == m
  {
    if |m| > SLICE_SIZE {
      CountNone(NewUnacked(m).acked);
    }
  }

  lemma SendMessageInv(s: Sender, m: Bytes)
    requires Inv(s)
    ensures Inv(SendMessage(s, m).0)
  {
    if s.memory + |m| <= s.maxMemory {
      NewUnackedKept(m);
      assert Lengths(SendMessage(s, m).0.unacked) == Lengths(s.unacked)[s.nextId := |m|];
      TotalInsert(Lengths(s.unacked), s.nextId, |m|);
    }
  }

  /**
   * A message is accepted exactly when it fits besides what is stored, and is then stored under the
   * next id besides all the others; a message that does not fit changes nothing.
   */
  lemma AcceptedExactly(s: Sender, m: Bytes)
    requires Inv(s)
    ensures var (s', r) := SendMessage(s, m);
            && (r.Ok? <==> Total(Lengths(s.unacked)) + |m| <= s.maxMemory)
            && (r.Ok? ==> && s.nextId !in s.unacked && s'.nextId == s.nextId + 1
                          && s'.unacked.Keys == s.unacked.Keys + {s.nextId}
                          && s'.unacked[s.nextId].message == m
                          && forall id :: id in s.unacked ==> s'.unacked[id] == s.unacked[id])
            && (r.Err? ==> s' == s)
  {
    NewUnackedKept(m);
  }

  // ----- Acks

  lemma FreedFits(s: Sender, id: nat)
    requires Inv(s) && id in s.unacked
    ensures |s.unacked[id].message| <= s.memory
    ensures Inv(s.(unacked := s.unacked - {id}, memory := s.memory - |s.unacked[id].message|))
  {
    TotalRemove(Lengths(s.unacked), id);
    assert Lengths(s.unacked - {id}) == Lengths(s.unacked) - {id};
  }

  ghost function Freed(s: Sender, id: nat): (s': Sender)
    requires Inv(s) && id in s.unacked
    ensures Inv(s') && s' == s.(unacked := s.unacked - {id}, memory := s'.memory)
  {
    FreedFits(s, id);
    s.(unacked := s.unacked - {id}, memory := s.memory - |s.unacked[id].message|)
  }

  /** An ack of a message must not name a sliced one; the code panics otherwise. */
  ghost predicate MessageAckOk(s: Sender, id: nat) {
    id in s.unacked ==> s.unacked[id].Small?
  }

  /** An ack of a slice must not name a small message or a slice that does not exist. */
  ghost predicate SliceAckOk(s: Sender, id: nat, i: nat) {
    id in s.unacked ==> s.unacked[id].Sliced? && i < |s.unacked[id].acked|
  }

  ghost function AckMessage(s: Sender, id: nat): (s': Sender)
    requires Inv(s) && MessageAckOk(s, id)
    ensures Inv(s') && s' == s.(unacked := s.unacked - {id}, memory := s'.memory)
  {
    assert id !in s.unacked ==> s.unacked - {id} == s.unacked;
    if id in s.unacked then Freed(s, id) else s
  }

  function WithAcked(u: UnackedMessage, i: nat): UnackedMessage
    requires u.Sliced? && i < |u.acked|
  {
    u.(acked := u.acked[i := true], numAcked := u.numAcked + 1)
  }

  ghost function AckSlice(s: Sender, id: nat, i: nat): (s': Sender)
    requires Inv(s) && SliceAckOk(s, id, i)
    ensures Inv(s')
  {
    if id !in s.unacked || s.unacked[id].acked[i] then s
    else if s.unacked[id].numAcked + 1 == s.unacked[id].numSlices then Freed(s, id)
    else
      AckSliceInv(s, id, i);
      s.(unacked := s.unacked[id := WithAcked(s.unacked[id], i)])
  }

  lemma AckSliceInv(s: Sender, id: nat, i: nat)
    requires Inv(s) && id in s.unacked && SliceAckOk(s, id, i) && !s.unacked[id].acked[i]
    requires s.unacked[id].numAcked + 1 < s.unacked[id].numSlices
    ensures Inv(s.(unacked := s.unacked[id := WithAcked(s.unacked[id], i)]))
  {
    CountSet(s.unacked[id].acked, i);
    assert Lengths(s.unacked[id := WithAcked(s.unacked[id], i)]) == Lengths(s.unacked);
  }

  /**
   * An ack only removes what it names. A sliced message is dropped exactly when the ack is for
   * its last unacked slice.
   */
  lemma AckSliceEffect(s: Sender, id: nat, i: nat)
    requires Inv(s) && SliceAckOk(s, id, i)
    ensures var s' := AckSlice(s, id, i);
            && s'.nextId == s.nextId
            && (forall k :: k in s'.unacked ==> k in s.unacked)
            && (forall k :: k != id && k in s.unacked ==> k in s'.unacked && s'.unacked[k] == s.unacked[k])
            && (id in s.unacked ==>
                  (id !in s'.unacked <==>
                     forall j :: 0 <= j < |s.unacked[id].acked| && j != i ==> s.unacked[id].acked[j]))
            && (id in s'.unacked ==> s'.unacked[id].acked == s.unacked[id].acked[i := true])
  {
    if id in s.unacked {
      var acked := s.unacked[id].acked;
      CountFull(acked);
      CountFull(acked[i := true]);
      assert forall j :: 0 <= j < |acked| && j != i ==> acked[i := true][j] == acked[j];
      if acked[i] {
        assert acked[i := true] == acked;
      } else {
        CountSet(acked, i);
      }
    }
  }

  lemma AckMessageOk(s: Sender, id: nat, ids: seq<nat>)
    requires Inv(s) && MessageAckOk(s, id) && forall k :: k in ids ==> MessageAckOk(s, k)
    ensures forall k :: k in ids ==> MessageAckOk(AckMessage(s, id), k)
  {
    hide Inv;
  }

  ghost function AckMessages(s: Sender, ids: seq<nat>): (s': Sender)
    requires Inv(s) && forall id :: id in ids ==> MessageAckOk(s, id)
    ensures Inv(s')
    ensures s' == s.(unacked := s'.unacked, memory := s'.memory)
    ensures s'.unacked == s.unacked - set id | id in ids
    decreases |ids|
  {
    if ids == [] then
      assert s.unacked == s.unacked - set id | id in ids;
      s
    else
      assert forall id :: id in ids[1..] ==> id in ids;
      assert s.unacked - (set id | id in ids) == s.unacked - {ids[0]} - (set id | id in ids[1..]);
      AckMessageOk(s, ids[0], ids[1..]);
      AckMessages(AckMessage(s, ids[0]), ids[1..])
  }

  /**
   * `s'` can follow `s`: ids only grow, an id that is gone does not come back, and a stored
   * message stays in the form it was stored in.
   */
  ghost predicate Later(s: Sender, s': Sender) {
    && s'.channelId == s.channelId && s.nextId <= s'.nextId
    && forall id :: id < s.nextId && id in s'.unacked ==>
         && id in s.unacked
         && s'.unacked[id].message == s.unacked[id].message
         && (s'.unacked[id].Small? <==> s.unacked[id].Small?)
         && (s.unacked[id].Sliced? ==> |s'.unacked[id].acked| == |s.unacked[id].acked|)
  }

  lemma SendMessageLater(s: Sender, m: Bytes)
    ensures Later(s, SendMessage(s, m).0)
  {
  }

  lemma AckMessagesLater(s: Sender, ids: seq<nat>)
    requires Inv(s) && forall id :: id in ids ==> MessageAckOk(s, id)
    ensures Later(s, AckMessages(s, ids))
  {
  }

  lemma AckSliceLater(s: Sender, id: nat, i: nat)
    requires Inv(s) && SliceAckOk(s, id, i)
    ensures Later(s, AckSlice(s, id, i))
  {
  }
}
