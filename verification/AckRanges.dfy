/**
 * The list of packet ranges still to be acked (renet2/src/remote_connection.rs, `add_pending_ack`
 * and `acked_largest`), as the set of sequences it stands for.
 */
module AckRanges {
  import opened Base

  const MAX_PENDING_RANGES: nat := 64

  predicate InRange(r: Range, q: nat) {
    r.start <= q < r.end
  }

  /** Ranges are non-empty, sorted, and leave a gap between any two. */
  predicate Normal(rs: seq<Range>) {
    && (forall i :: 0 <= i < |rs| ==> rs[i].start < rs[i].end)
    && (forall i, j :: 0 <= i < j < |rs| ==> rs[i].end < rs[j].start)
  }

  predicate Has(rs: seq<Range>, q: nat) {
    exists i :: 0 <= i < |rs| && InRange(rs[i], q)
  }

  /** A new range is pushed at the end of a list that is full: the lowest range makes room. */
  predicate Evicts(rs: seq<Range>, sequence: nat) {
    |rs| >= MAX_PENDING_RANGES && rs[|rs| - 1].end < sequence
  }

  /** No range holds or touches the sequence, and a range lies above it. */
  predicate InsertedLeft(rs: seq<Range>, sequence: nat) {
    && rs != [] && sequence < rs[|rs| - 1].start
    && forall i :: 0 <= i < |rs| ==> sequence + 1 < rs[i].start || rs[i].end < sequence
  }

  /** `rs'` is `rs` with `sequence` put in, as sets. */
  ghost predicate Added(rs: seq<Range>, sequence: nat, rs': seq<Range>) {
    && Normal(rs')
    && forall q: nat :: Has(rs', q) <==>
         q == sequence || (Has(rs, q) && !(Evicts(rs, sequence) && InRange(rs[0], q)))
  }

  /** `rs'` keeps the elements of `rs` above `largest`. */
  ghost predicate Trimmed(rs: seq<Range>, largest: nat, rs': seq<Range>) {
    Normal(rs') && forall q: nat :: Has(rs', q) <==> Has(rs, q) && q > largest
  }

  function Spliced(rs: seq<Range>, i: nat, j: nat, r: Range): seq<Range>
    requires i <= j <= |rs|
  {
    rs[..i] + [r] + rs[j..]
  }

  lemma HasSpliced(rs: seq<Range>, i: nat, j: nat, r: Range, q: nat)
    requires i <= j <= |rs|
    ensures Has(Spliced(rs, i, j, r), q) <==>
              InRange(r, q) || exists k :: 0 <= k < |rs| && !(i <= k < j) && InRange(rs[k], q)
  {
    var rs' := Spliced(rs, i, j, r);
    assert rs'[i] == r;
    if k :| 0 <= k < |rs| && !(i <= k < j) && InRange(rs[k], q) {
      assert rs'[if k < i then k else k - j + i + 1] == rs[k];
    }
    if k :| 0 <= k < |rs'| && k != i && InRange(rs'[k], q) {
      assert rs'[k] == rs[if k < i then k else k + j - i - 1];
    }
  }

  lemma SplicedNormal(rs: seq<Range>, i: nat, j: nat, r: Range)
    requires Normal(rs) && i <= j <= |rs| && r.start < r.end
    requires i > 0 ==> rs[i - 1].end < r.start
    requires j < |rs| ==> r.end < rs[j].start
    ensures Normal(Spliced(rs, i, j, r))
  {
  }

  lemma SpliceAdds(rs: seq<Range>, i: nat, j: nat, r: Range, sequence: nat)
    requires Normal(rs) && i <= j <= |rs| && !Evicts(rs, sequence) && r.start < r.end
    requires forall q: nat :: InRange(r, q) ==> q == sequence || Has(rs, q)
    requires InRange(r, sequence) && forall k, q: nat :: i <= k < j && InRange(rs[k], q) ==> InRange(r, q)
    requires i > 0 ==> rs[i - 1].end < r.start
    requires j < |rs| ==> r.end < rs[j].start
    ensures Added(rs, sequence, Spliced(rs, i, j, r))
  {
    SplicedNormal(rs, i, j, r);
    hide Normal;
    forall q: nat
      ensures Has(Spliced(rs, i, j, r), q) <==> q == sequence || Has(rs, q)
    {
      HasSpliced(rs, i, j, r, q);
    }
  }

  lemma InsertAdds(rs: seq<Range>, i: nat, sequence: nat)
    requires Normal(rs) && i <= |rs| && !Evicts(rs, sequence)
    requires i > 0 ==> rs[i - 1].end < sequence
    requires i < |rs| ==> sequence + 1 < rs[i].start
    ensures Added(rs, sequence, rs[..i] + [Range(sequence, sequence + 1)] + rs[i..])
  {
    SpliceAdds(rs, i, i, Range(sequence, sequence + 1), sequence);
  }

  lemma WidenAdds(rs: seq<Range>, i: nat, r: Range, sequence: nat)
    requires Normal(rs) && i < |rs| && sequence <= rs[i].end
    requires || (r == Range(sequence, rs[i].end) && rs[i].start == sequence + 1)
             || (r == Range(rs[i].start, sequence + 1) && rs[i].end == sequence)
    requires i > 0 ==> rs[i - 1].end < sequence
    requires i + 1 < |rs| ==> r.end < rs[i + 1].start
    ensures Added(rs, sequence, rs[i := r])
  {
    assert rs[i := r] == Spliced(rs, i, i + 1, r);
    forall q: nat | InRange(r, q)
      ensures q == sequence || Has(rs, q)
    {
      assert q != sequence ==> InRange(rs[i], q);
    }
    hide Has;
    hide Added;
    SpliceAdds(rs, i, i + 1, r, sequence);
  }

  lemma MergeAdds(rs: seq<Range>, i: nat, sequence: nat)
    requires Normal(rs) && i + 1 < |rs| && rs[i].end == sequence && rs[i + 1].start == sequence + 1
    ensures Added(rs, sequence, rs[..i] + [Range(rs[i].start, rs[i + 1].end)] + rs[i + 2..])
  {
    var r := Range(rs[i].start, rs[i + 1].end);
    forall q: nat | InRange(r, q)
      ensures q == sequence || Has(rs, q)
    {
      assert q < sequence ==> InRange(rs[i], q);
      assert q > sequence ==> InRange(rs[i + 1], q);
    }
    SpliceAdds(rs, i, i + 2, r, sequence);
  }

  lemma EvictAdds(rs: seq<Range>, sequence: nat)
    requires Normal(rs) && Evicts(rs, sequence)
    ensures Added(rs, sequence, (rs + [Range(sequence, sequence + 1)])[1..])
  {
    var rs' := (rs + [Range(sequence, sequence + 1)])[1..];
    assert forall k :: 0 <= k < |rs| - 1 ==> rs'[k] == rs[k + 1];
    assert rs'[|rs| - 1] == Range(sequence, sequence + 1);
    forall q: nat
      ensures Has(rs', q) <==> q == sequence || (Has(rs, q) && !InRange(rs[0], q))
    {
      if k :| 0 < k < |rs| && InRange(rs[k], q) {
        assert InRange(rs'[k - 1], q);
      }
      assert InRange(rs'[|rs| - 1], q) <==> q == sequence;
    }
  }

  /**
   * Insertion into the set. Only a push at the end is held to the limit; a range inserted
   * further left is not.
   */
  method AddPendingAck(rs: seq<Range>, sequence: nat) returns (rs': seq<Range>)
    requires Normal(rs)
    ensures Added(rs, sequence, rs')
    ensures |rs'| <= |rs| + 1
    ensures |rs| <= MAX_PENDING_RANGES ==>
              (|rs'| > MAX_PENDING_RANGES <==> |rs| == MAX_PENDING_RANGES && InsertedLeft(rs, sequence))
  {
    hide Added;
    if rs == [] {
      InsertAdds(rs, 0, sequence);
      rs' := [Range(sequence, sequence + 1)];
      assert rs' == rs[..0] + [Range(sequence, sequence + 1)] + rs[0..];
      return;
    }
    for index := 0 to |rs|
      invariant forall i :: 0 <= i < index ==> rs[i].end < sequence
    {
      var range := rs[index];
      if InRange(range, sequence) {
        ContainedAdds(rs, index, sequence);
        return rs;
      }
      if range.start == sequence + 1 {
        WidenAdds(rs, index, Range(sequence, range.end), sequence);
        return rs[index := Range(sequence, range.end)];
      } else if range.end == sequence {
        rs' := rs[index := Range(range.start, sequence + 1)];
        var next := index + 1;
        if next < |rs| && rs'[index].end == rs[next].start {
          MergeAdds(rs, index, sequence);
          rs' := rs[..index] + [Range(range.start, rs[next].end)] + rs[next + 1..];
          assert rs' == rs[..index] + [Range(rs[index].start, rs[index + 1].end)] + rs[index + 2..];
        } else {
          WidenAdds(rs, index, Range(range.start, sequence + 1), sequence);
        }
        return;
      } else if range.start > sequence + 1 {
        InsertAdds(rs, index, sequence);
        return rs[..index] + [Range(sequence, sequence + 1)] + rs[index..];
      }
    }
    rs' := rs + [Range(sequence, sequence + 1)];
    if |rs'| > MAX_PENDING_RANGES {
      EvictAdds(rs, sequence);
      rs' := rs'[1..];
    } else {
      InsertAdds(rs, |rs|, sequence);
      assert rs' == rs[..|rs|] + [Range(sequence, sequence + 1)] + rs[|rs|..];
    }
  }

  lemma ContainedAdds(rs: seq<Range>, i: nat, sequence: nat)
    requires Normal(rs) && i < |rs| && InRange(rs[i], sequence)
    ensures Added(rs, sequence, rs)
  {
  }

  function Trim(rs: seq<Range>, largest: nat): seq<Range> {
    if rs == [] || largest < rs[0].start then rs
    else if rs[0].end <= largest + 1 then Trim(rs[1..], largest)
    else [Range(largest + 1, rs[0].end)] + rs[1..]
  }

  lemma {:induction false} TrimTrims(rs: seq<Range>, largest: nat)
    requires Normal(rs)
    ensures Trimmed(rs, largest, Trim(rs, largest))
    ensures |Trim(rs, largest)| <= |rs|
  {
    if rs == [] || largest < rs[0].start {
      assert forall k :: 0 <= k < |rs| ==> rs[0].start <= rs[k].start;
    } else {
      forall q: nat
        ensures Has(rs[1..], q) <==> Has(rs, q) && q >= rs[0].end
      {
        HasTail(rs, q);
      }
      if rs[0].end <= largest + 1 {
        TrimTrims(rs[1..], largest);
      } else {
        CutTrims(rs, largest);
      }
    }
  }

  /** Cutting into the range that holds `largest`. */
  lemma CutTrims(rs: seq<Range>, largest: nat)
    requires Normal(rs) && rs != [] && InRange(rs[0], largest) && largest + 1 < rs[0].end
    ensures Trimmed(rs, largest, [Range(largest + 1, rs[0].end)] + rs[1..])
  {
    var cut := [Range(largest + 1, rs[0].end)] + rs[1..];
    assert forall k :: 0 < k < |rs| ==> cut[k] == rs[k];
    forall q: nat
      ensures Has(cut, q) <==> Has(rs, q) && q > largest
    {
      assert forall k :: 0 <= k < |rs| && q > largest ==> (InRange(cut[k], q) <==> InRange(rs[k], q));
      if k :| 0 <= k < |rs| && InRange(rs[k], q) && q > largest {
        assert InRange(cut[k], q);
      }
    }
  }

  method AckedLargest(rs: seq<Range>, largest: nat) returns (rs': seq<Range>)
    requires Normal(rs)
    ensures rs' == Trim(rs, largest) && Trimmed(rs, largest, rs')
  {
    TrimTrims(rs, largest);
    hide Trimmed;
    rs' := rs;
    while rs' != []
      invariant Normal(rs') && Trim(rs', largest) == Trim(rs, largest)
      decreases |rs'|
    {
      var range := rs'[0];
      if largest < range.start {
        return;
      }
      if range.end <= largest {
        rs' := rs'[1..];
        continue;
      }
      rs' := rs'[0 := Range(largest + 1, range.end)];
      if rs'[0].start >= rs'[0].end {
        rs' := rs'[1..];
      }
      return;
    }
  }

  lemma FirstRange(a: seq<Range>, b: seq<Range>)
    requires Normal(a) && Normal(b) && a != []
    requires forall q: nat :: Has(a, q) ==> Has(b, q)
    ensures b != [] && b[0].start <= a[0].start
    ensures b[0].start == a[0].start ==> a[0].end <= b[0].end
  {
    assert InRange(a[0], a[0].start) && Has(a, a[0].start);
    assert InRange(a[0], b[0].end) ==> Has(a, b[0].end);
  }

  /** A set has one list of ranges: equal sets are equal lists. */
  lemma {:induction false} Canonical(a: seq<Range>, b: seq<Range>)
    requires Normal(a) && Normal(b)
    requires forall q: nat :: Has(a, q) <==> Has(b, q)
    ensures a == b
  {
    if a == [] {
      if b != [] {
        FirstRange(b, a);
      }
    } else {
      FirstRange(a, b);
      FirstRange(b, a);
      forall q: nat
        ensures Has(a[1..], q) <==> Has(b[1..], q)
      {
        assert Has(a[1..], q) <==> Has(a, q) && q >= a[0].end by { HasTail(a, q); }
        assert Has(b[1..], q) <==> Has(b, q) && q >= b[0].end by { HasTail(b, q); }
      }
      Canonical(a[1..], b[1..]);
      assert a == [a[0]] + a[1..];
    }
  }

  lemma HasTail(a: seq<Range>, q: nat)
    requires Normal(a) && a != []
    ensures Has(a[1..], q) <==> Has(a, q) && q >= a[0].end
  {
    assert forall k :: 0 <= k < |a| - 1 ==> a[1..][k] == a[k + 1];
    if k :| 0 < k < |a| && InRange(a[k], q) {
      assert a[1..][k - 1] == a[k];
    }
  }

  /** Every second sequence from `2 * j` up to `2 * n`, each a range of its own. */
  function Singles(j: nat, n: nat): (rs: seq<Range>)
    requires j <= n
    ensures |rs| == n - j && Normal(rs)
  {
    seq(n - j, k requires 0 <= k < n - j => Range(2 * (j + k), 2 * (j + k) + 1))
  }

  /**
   * Arrivals in falling order are all put in at the left: from the empty list to one as long as one
   * likes, whatever list stands for the set.
   */
  lemma FallingArrivals(j: nat, n: nat, rs': seq<Range>)
    requires j < n
    ensures Added(Singles(j + 1, n), 2 * j, Singles(j, n)) && Singles(n, n) == []
    ensures Added(Singles(j + 1, n), 2 * j, rs') ==> rs' == Singles(j, n)
  {
    var rs := Singles(j + 1, n);
    InsertAdds(rs, 0, 2 * j);
    assert rs[..0] + [Range(2 * j, 2 * j + 1)] + rs[0..] == Singles(j, n);
    if Added(rs, 2 * j, rs') {
      assert forall q: nat :: Has(rs', q) <==> Has(Singles(j, n), q);
      Canonical(rs', Singles(j, n));
    }
  }

  /** The limit of 64 is not kept: one more arrival makes 65 ranges. */
  lemma LimitPassed(rs': seq<Range>)
    requires Added(Singles(1, MAX_PENDING_RANGES + 1), 0, rs')
    ensures |Singles(1, MAX_PENDING_RANGES + 1)| == MAX_PENDING_RANGES && |rs'| == MAX_PENDING_RANGES + 1
  {
    FallingArrivals(0, MAX_PENDING_RANGES + 1, rs');
  }
}
