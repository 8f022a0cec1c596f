/** How a long message is cut into slices (renet2/src/channel/reliable.rs). */
module Slicing {
  import opened Base

  function NumSlices(len: nat): nat {
    (len + SLICE_SIZE - 1) / SLICE_SIZE
  }

  function SliceEnd(m: Bytes, i: nat): nat {
    if i + 1 == NumSlices(|m|) then |m| else (i + 1) * SLICE_SIZE
  }

  /** The bytes of `m` that slice `i` carries. */
  function SlicePayload(m: Bytes, i: nat): (p: Bytes)
    requires i < NumSlices(|m|)
    ensures 0 < |p| <= SLICE_SIZE
    ensures i + 1 < NumSlices(|m|) ==> |p| == SLICE_SIZE
  {
    SliceBounds(m, i);
    m[i * SLICE_SIZE..SliceEnd(m, i)]
  }

  function SliceOf(m: Bytes, id: nat, i: nat): Slice
    requires i < NumSlices(|m|)
  {
    Slice(id, i, NumSlices(|m|), SlicePayload(m, i))
  }

  lemma SliceBounds(m: Bytes, i: nat)
    requires i < NumSlices(|m|)
    ensures i * SLICE_SIZE < SliceEnd(m, i) <= |m|
    ensures SliceEnd(m, i) <= (i + 1) * SLICE_SIZE
    ensures (NumSlices(|m|) - 1) * SLICE_SIZE < |m| <= NumSlices(|m|) * SLICE_SIZE
  {
  }

  /** Every byte lies in exactly the slice its position divides into. */
  lemma SliceOfPosition(m: Bytes, k: nat)
    requires k < |m|
    ensures k / SLICE_SIZE < NumSlices(|m|)
    ensures k / SLICE_SIZE * SLICE_SIZE <= k < SliceEnd(m, k / SLICE_SIZE)
  {
  }
}

/** Reassembly of slices (renet2/src/channel/slice_constructor.rs). */
module SliceConstruction {
  import opened Base
  import opened Sums
  import opened Slicing

  /** What a constructor holds: which slices arrived and the bytes gathered so far. */
  datatype Assembly = Assembly(numSlices: nat, received: seq<bool>, data: Bytes)

  predicate Complete(a: Assembly) {
    Count(a.received) == a.numSlices
  }

  /** The buffer has room for every slice that is still missing. */
  predicate WellFormed(a: Assembly) {
    && 0 < a.numSlices == |a.received|
    && (!Complete(a) ==>
          if a.received[a.numSlices - 1]
          then (a.numSlices - 1) * SLICE_SIZE <= |a.data| <= a.numSlices * SLICE_SIZE
          else |a.data| == a.numSlices * SLICE_SIZE)
  }

  predicate Open(a: Assembly) {
    WellFormed(a) && !Complete(a)
  }

  function Fresh(numSlices: nat): Assembly {
    Assembly(numSlices, seq(numSlices, _ => false), seq(numSlices * SLICE_SIZE, _ => 0))
  }

  /** `Vec::resize` with zero fill. */
  function Resize(data: Bytes, len: nat): (r: Bytes)
    ensures |r| == len
  {
    if len <= |data| then data[..len] else data + seq(len - |data|, _ => 0)
  }

  function Overwrite(data: Bytes, start: nat, bytes: Bytes): (r: Bytes)
    requires start + |bytes| <= |data|
    ensures |r| == |data|
  {
    data[..start] + bytes + data[start + |bytes|..]
  }

  function Put(a: Assembly, i: nat, bytes: Bytes): (b: Assembly)
    requires Open(a) && i < a.numSlices && !a.received[i]
    requires |bytes| <= SLICE_SIZE && (i + 1 < a.numSlices ==> |bytes| == SLICE_SIZE)
    ensures b.numSlices == a.numSlices && WellFormed(b)
    ensures Count(b.received) == Count(a.received) + 1
    ensures |b.data| <= b.numSlices * SLICE_SIZE
  {
    CountSet(a.received, i);
    var data := if i + 1 == a.numSlices then Resize(a.data, i * SLICE_SIZE + |bytes|) else a.data;
    Assembly(a.numSlices, a.received[i := true], Overwrite(data, i * SLICE_SIZE, bytes))
  }

  /** Outcome of handing one slice to a constructor. */
  function Accept(a: Assembly, i: nat, bytes: Bytes): (Assembly, Result<Option<Bytes>, ChannelError>)
    requires WellFormed(a) && i < a.numSlices
  {
    if (if i + 1 == a.numSlices then |bytes| > SLICE_SIZE else |bytes| != SLICE_SIZE) then
      (a, Err(InvalidSliceMessage))
    else
      CountFull(a.received);
      var b := if a.received[i] then a else Put(a, i, bytes);
      if Complete(b) then (b.(data := []), Ok(Some(b.data))) else (b, Ok(None))
  }

  /** An open constructor refuses a slice untouched, stays open, or yields a message that fits its slices. */
  lemma AcceptOpen(a: Assembly, i: nat, bytes: Bytes)
    requires Open(a) && i < a.numSlices
    ensures var (b, r) := Accept(a, i, bytes);
            match r
            case Err(_) => b == a
            case Ok(None) => Open(b) && b.numSlices == a.numSlices && b.received == a.received[i := true]
            case Ok(Some(m)) => |m| <= a.numSlices * SLICE_SIZE
  {
    if a.received[i] {
      assert a.received[i := true] == a.received;
    }
  }

  /** The bytes are slice `i` of the message, which has `n` slices. */
  predicate Cut(m: Bytes, n: nat, i: nat, bytes: Bytes) {
    NumSlices(|m|) == n && i < n && SlicePayload(m, i) == bytes
  }

  /** A slice is accepted exactly when some message has it there, or it is an empty last one. */
  lemma AcceptExactly(a: Assembly, i: nat, bytes: Bytes)
    requires WellFormed(a) && i < a.numSlices
    ensures Accept(a, i, bytes).1.Ok? <==>
              (exists m :: Cut(m, a.numSlices, i, bytes)) || (bytes == [] && i + 1 == a.numSlices)
  {
    var n := a.numSlices;
    if (if i + 1 == n then 0 < |bytes| <= SLICE_SIZE else |bytes| == SLICE_SIZE) {
      var m: Bytes := seq(i * SLICE_SIZE, _ => 0) + bytes + seq((n - 1 - i) * SLICE_SIZE, _ => 0);
      SizeOf(i, n, |bytes|);
      assert m[i * SLICE_SIZE..SliceEnd(m, i)] == bytes;
      assert Cut(m, n, i, bytes);
    }
  }

  lemma SizeOf(i: nat, n: nat, len: nat)
    requires i < n && if i + 1 == n then 0 < len <= SLICE_SIZE else len == SLICE_SIZE
    ensures NumSlices(i * SLICE_SIZE + len + (n - 1 - i) * SLICE_SIZE) == n
  {
  }

  class SliceConstructor {
    const messageId: nat
    const numSlices: nat
    var numReceived: nat
    var received: seq<bool>
    var slicedData: Bytes

    ghost function View(): Assembly
      reads this
    {
      Assembly(numSlices, received, slicedData)
    }

    ghost predicate Valid()
      reads this
    {
      WellFormed(View()) && numReceived == Count(received)
    }

    constructor (messageId: nat, numSlices: nat)
      requires 0 < numSlices
      ensures Valid() && View() == Fresh(numSlices) && Open(View())
    {
      this.messageId := messageId;
      this.numSlices := numSlices;
      numReceived := 0;
      received := seq(numSlices, _ => false);
      slicedData := seq(numSlices * SLICE_SIZE, _ => 0);
      FreshIsOpen(numSlices);
    }

    method ProcessSlice(sliceIndex: nat, bytes: Bytes) returns (r: Result<Option<Bytes>, ChannelError>)
      requires Valid() && sliceIndex < numSlices
      modifies this
      ensures Valid()
      ensures (View(), r) == Accept(old(View()), sliceIndex, bytes)
    {
      hide Count;
      CountFull(received);
      var isLastSlice := sliceIndex == numSlices - 1;
      if isLastSlice {
        if |bytes| > SLICE_SIZE {
          return Err(InvalidSliceMessage);
        }
      } else if |bytes| != SLICE_SIZE {
        return Err(InvalidSliceMessage);
      }

      if !received[sliceIndex] {
        CountSet(received, sliceIndex);
        received := received[sliceIndex := true];
        numReceived := numReceived + 1;
        if isLastSlice {
          slicedData := Resize(slicedData, (numSlices - 1) * SLICE_SIZE + |bytes|);
        }
        slicedData := Overwrite(slicedData, sliceIndex * SLICE_SIZE, bytes);
      }

      if numReceived == numSlices {
        var payload := slicedData;
        slicedData := [];
        return Ok(Some(payload));
      }
      return Ok(None);
    }
  }

  lemma FreshIsOpen(n: nat)
    requires 0 < n
    ensures Open(Fresh(n)) && Count(Fresh(n).received) == 0
  {
    CountNone(Fresh(n).received);
  }

  /** Slice `i` of `m` lies at its place in `data`. */
  ghost predicate Holds(data: Bytes, m: Bytes, i: nat)
    requires i < NumSlices(|m|)
  {
    SliceEnd(m, i) <= |data| && data[i * SLICE_SIZE..SliceEnd(m, i)] == SlicePayload(m, i)
  }

  /** `a` has gathered some, but not all, slices of `m`, each at its place. */
  ghost predicate PartOf(a: Assembly, m: Bytes) {
    && a.numSlices == NumSlices(|m|)
    && Open(a)
    && (a.received[a.numSlices - 1] ==> |a.data| == |m|)
    && forall i :: 0 <= i < a.numSlices && a.received[i] ==> Holds(a.data, m, i)
  }

  lemma AllSlices(data: Bytes, m: Bytes)
    requires |data| == |m|
    requires forall i :: 0 <= i < NumSlices(|m|) ==> Holds(data, m, i)
    ensures data == m
  {
    forall k | 0 <= k < |m|
      ensures data[k] == m[k]
    {
      var i := k / SLICE_SIZE;
      SliceOfPosition(m, k);
      assert Holds(data, m, i);
      assert data[i * SLICE_SIZE..SliceEnd(m, i)][k - i * SLICE_SIZE] == data[k];
    }
  }

  lemma OverwriteHere(data: Bytes, m: Bytes, i: nat)
    requires i < NumSlices(|m|) && SliceEnd(m, i) <= |data|
    ensures Holds(Overwrite(data, i * SLICE_SIZE, SlicePayload(m, i)), m, i)
  {
  }

  lemma OverwriteElsewhere(data: Bytes, m: Bytes, i: nat, j: nat)
    requires i < NumSlices(|m|) && j < NumSlices(|m|) && i != j
    requires SliceEnd(m, i) <= |data| && Holds(data, m, j)
    ensures Holds(Overwrite(data, i * SLICE_SIZE, SlicePayload(m, i)), m, j)
  {
    var r := Overwrite(data, i * SLICE_SIZE, SlicePayload(m, i));
    SliceBounds(m, i);
    SliceBounds(m, j);
    if j < i {
      assert SliceEnd(m, j) <= i * SLICE_SIZE;
    } else {
      assert SliceEnd(m, i) <= j * SLICE_SIZE;
    }
    assert r[j * SLICE_SIZE..SliceEnd(m, j)] == data[j * SLICE_SIZE..SliceEnd(m, j)];
  }

  lemma FreshIsPart(m: Bytes)
    requires 0 < |m|
    ensures PartOf(Fresh(NumSlices(|m|)), m)
  {
    FreshIsOpen(NumSlices(|m|));
  }

  lemma ResizeKeeps(data: Bytes, m: Bytes, j: nat, len: nat)
    requires j < NumSlices(|m|) && SliceEnd(m, j) <= len && Holds(data, m, j)
    ensures Holds(Resize(data, len), m, j)
  {
    var r := Resize(data, len);
    assert r[j * SLICE_SIZE..SliceEnd(m, j)] == data[j * SLICE_SIZE..SliceEnd(m, j)] by {
      SliceBounds(m, j);
    }
  }

  lemma PutHolds(a: Assembly, m: Bytes, i: nat, j: nat)
    requires PartOf(a, m) && i < a.numSlices && !a.received[i]
    requires j < a.numSlices && (j == i || a.received[j])
    ensures Holds(Put(a, i, SlicePayload(m, i)).data, m, j)
  {
    hide Count;
    SliceBounds(m, i);
    SliceBounds(m, j);
    var data := if i + 1 == a.numSlices then Resize(a.data, |m|) else a.data;
    if j == i {
      OverwriteHere(data, m, i);
    } else {
      ResizeKeeps(a.data, m, j, |m|);
      OverwriteElsewhere(data, m, i, j);
    }
  }

  lemma PutIsPart(a: Assembly, m: Bytes, i: nat)
    requires PartOf(a, m) && i < a.numSlices && !a.received[i]
    ensures var b := Put(a, i, SlicePayload(m, i));
            && (Complete(b) ==> b.data == m)
            && (!Complete(b) ==> PartOf(b, m))
  {
    var b := Put(a, i, SlicePayload(m, i));
    assert b.received == a.received[i := true];
    assert b.received[b.numSlices - 1] ==> |b.data| == |m| by {
      SliceBounds(m, i);
    }
    forall j | 0 <= j < a.numSlices && b.received[j]
      ensures Holds(b.data, m, j)
    {
      PutHolds(a, m, i, j);
    }
    if Complete(b) {
      CountFull(b.received);
      AllSlices(b.data, m);
    }
  }

  /**
   * A slice of `m` is never refused. It completes the message exactly when it is the only one
   * still missing, and what comes out then is `m`.
   */
  lemma AcceptHonest(a: Assembly, m: Bytes, i: nat)
    requires PartOf(a, m) && i < a.numSlices
    ensures var (b, r) := Accept(a, i, SlicePayload(m, i));
            && b.numSlices == a.numSlices && b.received == a.received[i := true]
            && r == Ok(if Complete(b) then Some(m) else None)
            && (!Complete(b) ==> PartOf(b, m))
            && (Complete(b) <==> forall j :: 0 <= j < a.numSlices && j != i ==> a.received[j])
  {
    var all := a.received[i := true];
    CountFull(all);
    assert forall j :: 0 <= j < a.numSlices && j != i ==> all[j] == a.received[j];
    if a.received[i] {
      assert all == a.received;
    } else {
      PutIsPart(a, m, i);
    }
  }

  predicate Covers(order: seq<nat>, n: nat) {
    forall i :: 0 <= i < n ==> i in order
  }

  /** The constructor after slice `i` of `m`, when another slice is still missing. */
  ghost function Next(a: Assembly, m: Bytes, i: nat): (b: Assembly)
    requires PartOf(a, m) && i < a.numSlices
    requires exists j :: 0 <= j < a.numSlices && j != i && !a.received[j]
    ensures PartOf(b, m) && b.numSlices == a.numSlices && b.received == a.received[i := true]
  {
    AcceptHonest(a, m, i);
    Accept(a, i, SlicePayload(m, i)).0
  }

  /** The constructor after the slices named by `order` have arrived in that order. */
  ghost function Arrive(m: Bytes, order: seq<nat>): (a: Assembly)
    requires 0 < |m| && forall i :: i in order ==> i < NumSlices(|m|)
    requires !Covers(order, NumSlices(|m|))
    ensures PartOf(a, m)
    ensures forall i :: 0 <= i < a.numSlices ==> (a.received[i] <==> i in order)
  {
    if order == [] then
      FreshIsPart(m);
      Fresh(NumSlices(|m|))
    else
      var front, i := order[..|order| - 1], order[|order| - 1];
      assert order == front + [i] && i in order;
      assert forall j :: j in order <==> j in front || j == i;
      var missing :| 0 <= missing < NumSlices(|m|) && missing !in order;
      assert missing !in front;
      Next(Arrive(m, front), m, i)
  }

  lemma CoversNext(a: Assembly, order: seq<nat>, i: nat)
    requires |a.received| == a.numSlices
    requires forall j :: 0 <= j < a.numSlices ==> (a.received[j] <==> j in order)
    ensures Covers(order + [i], a.numSlices)
       <==> forall j :: 0 <= j < a.numSlices && j != i ==> a.received[j]
  {
    assert forall j :: j in order + [i] <==> j in order || j == i;
  }

  /**
   * Whatever the order of arrival and however many duplicates, the next slice yields a result
   * exactly when it is the last missing one, and the result is the original message.
   */
  lemma Reassembly(m: Bytes, order: seq<nat>, i: nat)
    requires 0 < |m| && i < NumSlices(|m|)
    requires forall j :: j in order ==> j < NumSlices(|m|)
    requires !Covers(order, NumSlices(|m|))
    ensures Accept(Arrive(m, order), i, SlicePayload(m, i)).1
         == Ok(if Covers(order + [i], NumSlices(|m|)) then Some(m) else None)
  {
    var a := Arrive(m, order);
    AcceptHonest(a, m, i);
    CoversNext(a, order, i);
  }
}
