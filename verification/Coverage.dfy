/**
 * Which bytes of a file revision have been read
 * (crates/libs/tascarrel-agent/src/file_workspace.rs, `FileObservation`).
 */
module Coverage {
  import opened Foundation
  import opened Sorting

  datatype Range = Range(start: nat, end: nat) {
    predicate IsEmpty() {
      start >= end
    }

    predicate Has(i: nat) {
      start <= i < end
    }
  }

  type Ranges = seq<Range>

  /** Byte `i` lies in one of the ranges. */
  predicate CoveredBy(ranges: Ranges, i: nat) {
    exists r | r in ranges :: r.Has(i)
  }

  /** Sorted, with no empty range and a gap between neighbours. */
  predicate Canonical(ranges: Ranges) {
    && (forall k | 0 <= k < |ranges| :: !ranges[k].IsEmpty())
    && (forall j, k | 0 <= j < k < |ranges| :: ranges[j].end < ranges[k].start)
  }

  /** Some single range spans `range`. */
  predicate Contains(ranges: Ranges, range: Range) {
    exists r | r in ranges :: r.start <= range.start && r.end >= range.end
  }

  /** One range spans `range` exactly when every byte of it was observed. */
  lemma ContainsIffCovered(ranges: Ranges, range: Range)
    requires Canonical(ranges) && !range.IsEmpty()
    ensures Contains(ranges, range) <==> forall i | range.Has(i) :: CoveredBy(ranges, i)
  {
    if Contains(ranges, range) {
      var r :| r in ranges && r.start <= range.start && r.end >= range.end;
      assert forall i | range.Has(i) :: r.Has(i);
    }
    if forall i | range.Has(i) :: CoveredBy(ranges, i) {
      assert range.Has(range.start);
      var r :| r in ranges && r.Has(range.start);
      GapAfterRange(ranges, r);
      assert !range.Has(r.end);
    }
  }

  lemma GapAfterRange(ranges: Ranges, r: Range)
    requires Canonical(ranges) && r in ranges
    ensures !CoveredBy(ranges, r.end)
  {
    var j :| 0 <= j < |ranges| && ranges[j] == r;
    forall k | 0 <= k < |ranges|
      ensures !ranges[k].Has(r.end)
    {
    }
  }

  /** What is known about a file: its revision, and how much of it was read. */
  datatype Observation = Observation(revision: Bytes, coverage: Ranges, observedEmptyFile: bool) {
    predicate IsComplete(length: nat) {
      if length == 0 then observedEmptyFile else Contains(coverage, Range(0, length))
    }
  }

  ghost predicate SameBytes(a: Ranges, b: Ranges) {
    forall i: nat :: CoveredBy(a, i) <==> CoveredBy(b, i)
  }

  /** Joins ranges that touch or overlap, in one pass over the sorted list. */
  method Merge(sorted: Ranges) returns (merged: Ranges)
    requires SortedBy(sorted, (r: Range) => r.start)
    requires forall k | 0 <= k < |sorted| :: !sorted[k].IsEmpty()
    ensures Canonical(merged) && SameBytes(merged, sorted)
  {
    merged := [];
    for k := 0 to |sorted|
      invariant Canonical(merged) && SameBytes(merged, sorted[..k])
      invariant merged != [] && k < |sorted| ==> merged[|merged| - 1].start <= sorted[k].start
    {
      var range := sorted[k];
      assert k + 1 < |sorted| ==> range.start <= sorted[k + 1].start by {
        assert k + 1 < |sorted| ==> ((r: Range) => r.start)(sorted[k]) <= ((r: Range) => r.start)(sorted[k + 1]);
      }
      assert sorted[..k + 1] == sorted[..k] + [range];
      if merged != [] && range.start <= merged[|merged| - 1].end {
        var n := |merged| - 1;
        var joined := Range(merged[n].start, if merged[n].end >= range.end then merged[n].end else range.end);
        Join(merged, range, joined, sorted[..k]);
        merged := merged[..n] + [joined];
      } else {
        Add(merged, range, sorted[..k]);
        merged := merged + [range];
      }
    }
    assert sorted[..|sorted|] == sorted;
  }

  /** The range touches or overlaps the last one, which grows to hold it. */
  lemma Join(merged: Ranges, range: Range, joined: Range, seen: Ranges)
    requires Canonical(merged) && merged != [] && SameBytes(merged, seen) && !range.IsEmpty()
    requires var last := merged[|merged| - 1];
             && last.start <= range.start <= last.end
             && joined == Range(last.start, if last.end >= range.end then last.end else range.end)
    ensures Canonical(merged[..|merged| - 1] + [joined])
    ensures SameBytes(merged[..|merged| - 1] + [joined], seen + [range])
  {
    var n := |merged| - 1;
    assert merged == merged[..n] + [merged[n]];
    CoveredSnoc(merged[..n], merged[n]);
    CoveredSnoc(merged[..n], joined);
    CoveredSnoc(seen, range);
  }

  /** The range lies beyond a gap. */
  lemma Add(merged: Ranges, range: Range, seen: Ranges)
    requires Canonical(merged) && SameBytes(merged, seen) && !range.IsEmpty()
    requires merged != [] ==> merged[|merged| - 1].end < range.start
    ensures Canonical(merged + [range]) && SameBytes(merged + [range], seen + [range])
  {
    CoveredSnoc(merged, range);
    CoveredSnoc(seen, range);
  }

  lemma CoveredSnoc(ranges: Ranges, r: Range)
    ensures forall i: nat :: CoveredBy(ranges + [r], i) <==> CoveredBy(ranges, i) || r.Has(i)
  {
    assert r in ranges + [r];
    assert forall q :: q in ranges + [r] <==> q in ranges || q == r;
  }

  class FileObservation {
    const revision: Bytes
    var coverage: Ranges
    var observedEmptyFile: bool

    constructor (from: Observation)
      ensures Snapshot() == from
    {
      revision, coverage, observedEmptyFile := from.revision, from.coverage, from.observedEmptyFile;
    }

    function Snapshot(): Observation
      reads this
    {
      Observation(revision, coverage, observedEmptyFile)
    }

    /** Records that a range was read: the merged list covers exactly that much more. */
    method Observe(range: Range, fileLength: nat)
      requires Canonical(coverage)
      modifies this
      ensures Canonical(coverage)
      ensures fileLength == 0 ==> observedEmptyFile && coverage == old(coverage)
      ensures fileLength > 0 ==> observedEmptyFile == old(observedEmptyFile)
      ensures fileLength > 0 ==>
                forall i: nat :: CoveredBy(coverage, i) <==> CoveredBy(old(coverage), i) || range.Has(i)
    {
      if fileLength == 0 {
        observedEmptyFile := true;
        return;
      }
      if range.IsEmpty() {
        return;
      }
      var pushed := coverage + [range];
      CoveredSnoc(coverage, range);
      var sorted := Sort(pushed, (r: Range) => r.start);
      SortSorts(pushed, (r: Range) => r.start);
      assert forall r :: r in sorted <==> r in pushed by {
        forall r: Range
          ensures r in sorted <==> r in pushed
        {
          SortKeepsMembers(pushed, (q: Range) => q.start, r);
        }
      }
      assert forall i: nat :: CoveredBy(sorted, i) <==> CoveredBy(pushed, i);
      assert forall k | 0 <= k < |sorted| :: !sorted[k].IsEmpty() by {
        forall k | 0 <= k < |sorted|
          ensures !sorted[k].IsEmpty()
        {
          assert sorted[k] in pushed;
        }
      }
      coverage := Merge(sorted);
    }

    method ContainsRange(range: Range) returns (yes: bool)
      ensures yes == Contains(coverage, range)
    {
      for k := 0 to |coverage|
        invariant forall j | 0 <= j < k :: !(coverage[j].start <= range.start && coverage[j].end >= range.end)
      {
        if coverage[k].start <= range.start && coverage[k].end >= range.end {
          return true;
        }
      }
      return false;
    }
  }

  /** Bytes of a file observed by any of the reads. */
  predicate ReadBy(reads': Ranges, i: nat) {
    exists k | 0 <= k < |reads'| :: reads'[k].Has(i)
  }

  /** After any sequence of reads, completeness means every byte was read, or that an empty file was read at all. */
  method ObserveAll(revision: Bytes, reads': Ranges) returns (o: Observation)
    ensures o.revision == revision && Canonical(o.coverage)
    ensures revision != [] ==> forall i: nat :: CoveredBy(o.coverage, i) <==> ReadBy(reads', i)
    ensures revision != [] ==>
              (o.IsComplete(|revision|) <==> forall i | 0 <= i < |revision| :: ReadBy(reads', i))
    ensures revision == [] ==> (o.IsComplete(0) <==> reads' != [])
  {
    var observation := new FileObservation(Observation(revision, [], false));
    for k := 0 to |reads'|
      invariant fresh(observation) && Canonical(observation.coverage)
      invariant revision != [] ==> forall i: nat :: CoveredBy(observation.coverage, i) <==> ReadBy(reads'[..k], i)
      invariant revision == [] ==> (observation.observedEmptyFile <==> k > 0)
    {
      observation.Observe(reads'[k], |revision|);
      assert forall i: nat :: ReadBy(reads'[..k + 1], i) <==> ReadBy(reads'[..k], i) || reads'[k].Has(i) by {
        assert forall j | 0 <= j < k :: reads'[..k + 1][j] == reads'[..k][j];
        assert reads'[..k + 1][k] == reads'[k];
      }
    }
    assert reads'[..|reads'|] == reads';
    o := observation.Snapshot();
    if revision != [] {
      var whole := Range(0, |revision|);
      ContainsIffCovered(o.coverage, whole);
      assert forall i | 0 <= i < |revision| :: whole.Has(i);
    }
  }
}
