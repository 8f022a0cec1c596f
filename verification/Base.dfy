/** Types and constants shared by every module of the model. */
module Base {

  type Byte = b: int | 0 <= b < 256

  type Bytes = seq<Byte>

  datatype Option<+T> = None | Some(value: T)

  /** Rust's `Result`; the members make `:-` stand for the `?` operator. */
  datatype Result<+T, +E> = Ok(value: T) | Err(error: E) {
    predicate IsFailure() {
      Err?
    }

    function PropagateFailure<U>(): Result<U, E>
      requires Err?
    {
      Err(error)
    }

    function Extract(): T
      requires Ok?
    {
      value
    }
  }

  /** Messages longer than this are cut into slices of this many bytes. */
  const SLICE_SIZE: nat := 1200

  /** Packets in flight and incomplete slices are given up after 3 s; times are in nanoseconds. */
  const DISCARD_AFTER: nat := 3_000_000_000

  /** One more than the largest 64-bit number. */
  const U64: nat := 0x1_0000_0000_0000_0000

  /** A half-open interval of packet sequences. */
  datatype Range = Range(start: nat, end: nat)

  datatype Slice = Slice(messageId: nat, sliceIndex: nat, numSlices: nat, payload: Bytes)

  datatype Packet =
    | SmallReliable(sequence: nat, channelId: nat, messages: seq<(nat, Bytes)>)
    | SmallUnreliable(sequence: nat, channelId: nat, payloads: seq<Bytes>)
    | UnreliableSlice(sequence: nat, channelId: nat, slice: Slice)
    | ReliableSlice(sequence: nat, channelId: nat, slice: Slice)
    | Ack(sequence: nat, ackRanges: seq<Range>)

  datatype ChannelError = ReliableChannelMaxMemoryReached | InvalidSliceMessage
}

/** Sums over finite maps and counts over sequences, used by the memory accounting. */
module Sums {
  import opened Base

  ghost function Total(m: map<nat, nat>): nat
    decreases |m|
  {
    if m == map[] then 0
    else
      var k :| k in m;
      m[k] + Total(m - {k})
  }

  /** The sum does not depend on the order in which the keys are removed. */
  lemma {:induction false} TotalRemove(m: map<nat, nat>, k: nat)
    requires k in m
    ensures Total(m) == m[k] + Total(m - {k})
    decreases |m|
  {
    var first :| first in m && Total(m) == m[first] + Total(m - {first});
    if first != k {
      TotalRemove(m - {first}, k);
      TotalRemove(m - {k}, first);
      assert m - {first} - {k} == m - {k} - {first};
    }
  }

  lemma TotalInsert(m: map<nat, nat>, k: nat, v: nat)
    requires k !in m
    ensures Total(m[k := v]) == Total(m) + v
  {
    TotalRemove(m[k := v], k);
    assert m[k := v] - {k} == m;
  }

  lemma {:induction false} TotalPart(part: map<nat, nat>, m: map<nat, nat>)
    requires forall k :: k in part ==> k in m && part[k] == m[k]
    ensures Total(part) <= Total(m)
    decreases |part|
  {
    if part != map[] {
      var k :| k in part;
      TotalRemove(part, k);
      TotalRemove(m, k);
      TotalPart(part - {k}, m - {k});
    }
  }

  function Count(flags: seq<bool>): (n: nat)
    ensures n <= |flags|
  {
    if flags == [] then 0 else Count(flags[..|flags| - 1]) + if flags[|flags| - 1] then 1 else 0
  }

  lemma {:induction false} CountSet(flags: seq<bool>, i: nat)
    requires i < |flags| && !flags[i]
    ensures Count(flags[i := true]) == Count(flags) + 1
  {
    var n := |flags| - 1;
    if i == n {
      assert flags[i := true][..n] == flags[..n];
    } else {
      CountSet(flags[..n], i);
      assert flags[i := true][..n] == flags[..n][i := true];
    }
  }

  lemma {:induction false} CountFull(flags: seq<bool>)
    ensures Count(flags) == |flags| <==> forall i :: 0 <= i < |flags| ==> flags[i]
  {
    if flags != [] {
      var n := |flags| - 1;
      CountFull(flags[..n]);
      assert forall i :: 0 <= i < n ==> flags[i] == flags[..n][i];
    }
  }

  lemma {:induction false} CountNone(flags: seq<bool>)
    requires forall i :: 0 <= i < |flags| ==> !flags[i]
    ensures Count(flags) == 0
  {
    if flags != [] {
      CountNone(flags[..|flags| - 1]);
    }
  }

  /** Bytes of a list of messages. */
  function BytesOf(queue: seq<Bytes>): nat {
    if queue == [] then 0 else BytesOf(queue[..|queue| - 1]) + |queue[|queue| - 1]|
  }

  lemma {:induction false} BytesConcat(a: seq<Bytes>, b: seq<Bytes>)
    ensures BytesOf(a + b) == BytesOf(a) + BytesOf(b)
  {
    if b == [] {
      assert a + b == a;
    } else {
      BytesConcat(a, b[..|b| - 1]);
      assert (a + b)[..|a + b| - 1] == a + b[..|b| - 1];
    }
  }

  lemma BytesSnoc(messages: seq<Bytes>, m: Bytes)
    ensures BytesOf(messages + [m]) == BytesOf(messages) + |m|
  {
    assert (messages + [m])[..|messages|] == messages;
  }

  lemma {:induction false} BytesFront(queue: seq<Bytes>)
    requires queue != []
    ensures BytesOf(queue) == |queue[0]| + BytesOf(queue[1..])
  {
    BytesConcat([queue[0]], queue[1..]);
    assert queue == [queue[0]] + queue[1..];
    assert BytesOf([queue[0]]) == BytesOf([]) + |queue[0]|;
  }

  /** The bytes do not depend on the order of the messages. */
  lemma {:induction false} BytesReordered(a: seq<Bytes>, b: seq<Bytes>)
    requires multiset(a) == multiset(b)
    ensures BytesOf(a) == BytesOf(b)
    decreases |a|
  {
    if a == [] {
      assert |multiset(b)| == 0;
    } else {
      var n := |a| - 1;
      assert a[n] in multiset(b);
      var k :| 0 <= k < |b| && b[k] == a[n];
      var rest := b[..k] + b[k + 1..];
      assert a == a[..n] + [a[n]];
      assert b == b[..k] + ([b[k]] + b[k + 1..]);
      assert multiset(rest) == multiset(b) - multiset{a[n]};
      assert multiset(a[..n]) == multiset(a) - multiset{a[n]};
      BytesReordered(a[..n], rest);
      BytesConcat(b[..k], [b[k]] + b[k + 1..]);
      BytesConcat([b[k]], b[k + 1..]);
      BytesConcat(b[..k], b[k + 1..]);
      BytesSnoc([], b[k]);
      assert [] + [b[k]] == [b[k]];
    }
  }

  lemma {:induction false} SubsetSize<T>(a: set<T>, b: set<T>)
    requires a <= b
    ensures |a| <= |b|
    decreases a
  {
    if a != {} {
      var x :| x in a;
      SubsetSize(a - {x}, b - {x});
    }
  }
}
