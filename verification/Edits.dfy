/**
 * Replacing several unique pieces of one snapshot
 * (crates/libs/tascarrel-agent/src/file_workspace.rs, `apply_edits`).
 */
module Edits {
  import opened Foundation
  import opened Coverage
  import opened Sorting

  datatype TextEdit = TextEdit(oldText: Bytes, newText: Bytes)

  datatype EditError = NoEdits | EmptyOldText | NotUnique | Unobserved | Overlapping

  /** A located replacement of `[start, end)`. */
  datatype Match = Match(start: nat, end: nat, newText: Bytes)

  function MatchStart(m: Match): nat {
    m.start
  }

  // ---- Finding the text to replace --------------------------------------

  predicate OccursAt(content: Bytes, pattern: Bytes, i: nat) {
    i + |pattern| <= |content| && content[i..i + |pattern|] == pattern
  }

  /** Left to right, each search starting after the previous match (`match_indices`). */
  function MatchIndices(content: Bytes, pattern: Bytes, from: nat): seq<nat>
    requires pattern != []
    decreases |content| - from
  {
    if from + |pattern| > |content| then []
    else if OccursAt(content, pattern, from) then [from] + MatchIndices(content, pattern, from + |pattern|)
    else MatchIndices(content, pattern, from + 1)
  }

  lemma {:induction false} NoMatchesIff(content: Bytes, pattern: Bytes, from: nat)
    requires pattern != []
    ensures MatchIndices(content, pattern, from) == [] <==> forall i | from <= i :: !OccursAt(content, pattern, i)
    decreases |content| - from
  {
    if from + |pattern| <= |content| {
      if OccursAt(content, pattern, from) {
        assert MatchIndices(content, pattern, from) != [];
      } else {
        NoMatchesIff(content, pattern, from + 1);
      }
    }
  }

  /** A single match: the first occurrence, and none that starts after it ends. */
  predicate UniqueAt(content: Bytes, pattern: Bytes, from: nat, p: nat) {
    && from <= p && OccursAt(content, pattern, p)
    && (forall i | from <= i < p :: !OccursAt(content, pattern, i))
    && (forall i | p + |pattern| <= i <= |content| :: !OccursAt(content, pattern, i))
  }

  lemma UniqueHereIff(content: Bytes, pattern: Bytes, from: nat, p: nat)
    requires pattern != [] && OccursAt(content, pattern, from)
    ensures UniqueAt(content, pattern, from, p) <==>
              p == from && forall i | from + |pattern| <= i :: !OccursAt(content, pattern, i)
  {
  }

  lemma UniqueLaterIff(content: Bytes, pattern: Bytes, from: nat, p: nat)
    requires !OccursAt(content, pattern, from)
    ensures UniqueAt(content, pattern, from, p) <==> UniqueAt(content, pattern, from + 1, p)
  {
  }

  lemma OnlyIff(first: nat, rest: seq<nat>, p: nat)
    ensures [first] + rest == [p] <==> first == p && rest == []
  {
    assert ([first] + rest)[0] == first && |[first] + rest| == 1 + |rest|;
  }

  lemma {:induction false} OneMatchIff(content: Bytes, pattern: Bytes, from: nat, p: nat)
    requires pattern != []
    ensures MatchIndices(content, pattern, from) == [p] <==> UniqueAt(content, pattern, from, p)
    decreases |content| - from
  {
    if from + |pattern| <= |content| {
      if OccursAt(content, pattern, from) {
        NoMatchesIff(content, pattern, from + |pattern|);
        UniqueHereIff(content, pattern, from, p);
        OnlyIff(from, MatchIndices(content, pattern, from + |pattern|), p);
      } else {
        OneMatchIff(content, pattern, from + 1, p);
        UniqueLaterIff(content, pattern, from, p);
      }
    }
  }

  /** Occurrences that overlap the match do not count against uniqueness. */
  lemma OverlapIsNotCounted()
    ensures MatchIndices([97, 97, 97], [97, 97], 0) == [0]
    ensures OccursAt([97, 97, 97], [97, 97], 0) && OccursAt([97, 97, 97], [97, 97], 1)
  {
    OneMatchIff([97, 97, 97], [97, 97], 0, 0);
  }

  function Locate(content: Bytes, edit: TextEdit, coverage: Ranges): Result<Match, EditError> {
    if edit.oldText == [] then Err(EmptyOldText)
    else
      var found := MatchIndices(content, edit.oldText, 0);
      if |found| != 1 then Err(NotUnique)
      else
        var range := Range(found[0], found[0] + |edit.oldText|);
        if Contains(coverage, range) then Ok(Match(range.start, range.end, edit.newText)) else Err(Unobserved)
  }

  /** Where one edit applies: to its only match, which was read in full. */
  lemma LocateMeans(content: Bytes, edit: TextEdit, coverage: Ranges)
    ensures Locate(content, edit, coverage).Ok? <==>
              edit.oldText != [] && exists p: nat ::
                UniqueAt(content, edit.oldText, 0, p) && Contains(coverage, Range(p, p + |edit.oldText|))
    ensures Locate(content, edit, coverage).Ok? ==>
              var m := Locate(content, edit, coverage).value;
              && m.start < m.end <= |content| && content[m.start..m.end] == edit.oldText && m.newText == edit.newText
              && Contains(coverage, Range(m.start, m.end))
  {
    if edit.oldText != [] {
      var found := MatchIndices(content, edit.oldText, 0);
      if |found| == 1 {
        assert found == [found[0]];
        OneMatchIff(content, edit.oldText, 0, found[0]);
      }
      forall p: nat | UniqueAt(content, edit.oldText, 0, p)
        ensures found == [p]
      {
        OneMatchIff(content, edit.oldText, 0, p);
      }
    }
  }

  // ---- The result -------------------------------------------------------

  /** Every edit applies somewhere. */
  predicate AllLocated(content: Bytes, edits: seq<TextEdit>, coverage: Ranges) {
    forall i | 0 <= i < |edits| :: Locate(content, edits[i], coverage).Ok?
  }

  function Located(content: Bytes, edits: seq<TextEdit>, coverage: Ranges): (ms: seq<Match>)
    requires AllLocated(content, edits, coverage)
    ensures |ms| == |edits|
    ensures forall i | 0 <= i < |edits| :: ms[i] == Locate(content, edits[i], coverage).value
  {
    seq(|edits|, i requires 0 <= i < |edits| => Locate(content, edits[i], coverage).value)
  }

  /** In order, and each match ends before the next starts. */
  predicate Disjoint(ms: seq<Match>) {
    forall i | 0 <= i < |ms| - 1 :: ms[i].end <= ms[i + 1].start
  }

  /** Copies what lies between the matches and replaces the matches, in one pass from `cursor`. */
  function Splice(content: Bytes, ms: seq<Match>, cursor: nat): Bytes
    requires Within(content, ms, cursor)
    decreases |ms|
  {
    if ms == [] then content[cursor..]
    else content[cursor..ms[0].start] + ms[0].newText + Splice(content, ms[1..], ms[0].end)
  }

  /** The matches lie in order between `cursor` and the end. */
  predicate Within(content: Bytes, ms: seq<Match>, cursor: nat)
    decreases |ms|
  {
    if ms == [] then cursor <= |content|
    else cursor <= ms[0].start < ms[0].end <= |content| && Within(content, ms[1..], ms[0].end)
  }

  /** What applying the edits yields. */
  ghost predicate Applies(content: Bytes, edits: seq<TextEdit>, coverage: Ranges, result: Bytes) {
    && edits != [] && AllLocated(content, edits, coverage)
    && var ms := Sort(Located(content, edits, coverage), MatchStart);
       Disjoint(ms) && Within(content, ms, 0) && result == Splice(content, ms, 0)
  }

  ghost predicate Applicable(content: Bytes, edits: seq<TextEdit>, coverage: Ranges) {
    && edits != [] && AllLocated(content, edits, coverage)
    && Disjoint(Sort(Located(content, edits, coverage), MatchStart))
  }

  lemma LocatedAreRanges(content: Bytes, edits: seq<TextEdit>, coverage: Ranges)
    requires AllLocated(content, edits, coverage)
    ensures forall m | m in Located(content, edits, coverage) :: m.start < m.end <= |content|
    ensures forall m | m in Sort(Located(content, edits, coverage), MatchStart) ::
              m.start < m.end <= |content| && Contains(coverage, Range(m.start, m.end))
  {
    var ms := Located(content, edits, coverage);
    forall m | m in ms
      ensures m.start < m.end <= |content| && Contains(coverage, Range(m.start, m.end))
    {
      var i :| 0 <= i < |ms| && ms[i] == m;
      LocateMeans(content, edits[i], coverage);
    }
    forall m | m in Sort(ms, MatchStart)
      ensures m in ms
    {
      SortKeepsMembers(ms, MatchStart, m);
    }
  }

  lemma {:induction false} DisjointIsWithin(content: Bytes, ms: seq<Match>, cursor: nat)
    requires Disjoint(ms) && (forall m | m in ms :: m.start < m.end <= |content|)
    requires cursor <= |content| && (ms != [] ==> cursor <= ms[0].start)
    ensures Within(content, ms, cursor)
    decreases |ms|
  {
    if ms != [] {
      assert forall m | m in ms[1..] :: m in ms;
      DisjointIsWithin(content, ms[1..], ms[0].end);
    }
  }

  method ApplyEdits(content: Bytes, edits: seq<TextEdit>, coverage: Ranges) returns (r: Result<Bytes, EditError>)
    ensures r.Ok? <==> Applicable(content, edits, coverage)
    ensures r.Ok? ==> Applies(content, edits, coverage, r.value)
    ensures r == Err(NoEdits) <==> edits == []
  {
    if edits == [] { return Err(NoEdits); }
    var ms: seq<Match> := [];
    var i := 0;
    while i < |edits|
      invariant 0 <= i <= |edits| && |ms| == i
      invariant forall k | 0 <= k < i :: Locate(content, edits[k], coverage) == Ok(ms[k])
    {
      var located := LocateEdit(content, edits[i], coverage);
      if located.Err? { return Err(located.error); }
      ms := ms + [located.value];
      i := i + 1;
    }
    assert ms == Located(content, edits, coverage);
    var sorted := Sort(ms, MatchStart);
    i := 0;
    while i + 1 < |sorted|
      invariant 0 <= i && (sorted != [] ==> i < |sorted|)
      invariant forall k | 0 <= k < i :: sorted[k].end <= sorted[k + 1].start
    {
      if sorted[i].end > sorted[i + 1].start { return Err(Overlapping); }
      i := i + 1;
    }
    LocatedAreRanges(content, edits, coverage);
    DisjointIsWithin(content, sorted, 0);
    var result := SpliceAll(content, sorted);
    return Ok(result);
  }

  method LocateEdit(content: Bytes, edit: TextEdit, coverage: Ranges) returns (r: Result<Match, EditError>)
    ensures r == Locate(content, edit, coverage)
    ensures r.Err? ==> r.error != NoEdits
  {
    if edit.oldText == [] { return Err(EmptyOldText); }
    var found := FindMatches(content, edit.oldText);
    if |found| != 1 { return Err(NotUnique); }
    var range := Range(found[0], found[0] + |edit.oldText|);
    for k := 0 to |coverage|
      invariant forall j | 0 <= j < k :: !(coverage[j].start <= range.start && coverage[j].end >= range.end)
    {
      if coverage[k].start <= range.start && coverage[k].end >= range.end {
        return Ok(Match(range.start, range.end, edit.newText));
      }
    }
    return Err(Unobserved);
  }

  method FindMatches(content: Bytes, pattern: Bytes) returns (found: seq<nat>)
    requires pattern != []
    ensures found == MatchIndices(content, pattern, 0)
  {
    found := [];
    var from := 0;
    while from + |pattern| <= |content|
      invariant found + MatchIndices(content, pattern, from) == MatchIndices(content, pattern, 0)
      decreases |content| - from
    {
      if OccursAt(content, pattern, from) {
        assert found + ([from] + MatchIndices(content, pattern, from + |pattern|))
            == (found + [from]) + MatchIndices(content, pattern, from + |pattern|);
        found := found + [from];
        from := from + |pattern|;
      } else {
        from := from + 1;
      }
    }
  }

  method SpliceAll(content: Bytes, ms: seq<Match>) returns (result: Bytes)
    requires Within(content, ms, 0)
    ensures result == Splice(content, ms, 0)
  {
    result := [];
    var cursor: nat, i: nat := 0, 0;
    assert ms[0..] == ms;
    while i < |ms|
      invariant 0 <= i <= |ms|
      invariant Within(content, ms[i..], cursor)
      invariant Splice(content, ms, 0) == result + Splice(content, ms[i..], cursor)
    {
      assert ms[i..][1..] == ms[i + 1..];
      var m := ms[i];
      ghost var rest := Splice(content, ms[i + 1..], m.end);
      assert result + (content[cursor..m.start] + m.newText + rest)
          == (result + content[cursor..m.start] + m.newText) + rest;
      result := result + content[cursor..m.start] + m.newText;
      cursor := m.end;
      i := i + 1;
    }
    result := result + content[cursor..];
  }

  // ---- The order of edits does not matter -------------------------------

  lemma LocatedPermutes(content: Bytes, a: seq<TextEdit>, b: seq<TextEdit>, coverage: Ranges)
    requires multiset(a) == multiset(b) && AllLocated(content, a, coverage) && AllLocated(content, b, coverage)
    ensures multiset(Located(content, a, coverage)) == multiset(Located(content, b, coverage))
  {
    var f := (e: TextEdit) =>
        var m := Locate(content, e, coverage);
        if m.Ok? then m.value else Match(0, 0, []);
    assert Located(content, a, coverage) == Map(a, f);
    assert Located(content, b, coverage) == Map(b, f);
    MapPermutes(a, b, f);
  }

  lemma PermutedLocated(content: Bytes, a: seq<TextEdit>, b: seq<TextEdit>, coverage: Ranges)
    requires multiset(a) == multiset(b) && AllLocated(content, a, coverage)
    ensures AllLocated(content, b, coverage)
  {
    forall i | 0 <= i < |b|
      ensures Locate(content, b[i], coverage).Ok?
    {
      assert b[i] in multiset(b) && b[i] in a;
    }
  }

  ghost predicate StrictlyAscending(ms: seq<Match>) {
    forall i, j | 0 <= i < j < |ms| :: ms[i].start < ms[j].start
  }

  lemma SameHead(a: seq<Match>, b: seq<Match>)
    requires multiset(a) == multiset(b) && SortedBy(b, MatchStart) && StrictlyAscending(a)
    requires a != [] && b != []
    ensures a[0] == b[0]
  {
    assert b[0] in multiset(a) && a[0] in multiset(b);
    var k :| 0 <= k < |a| && a[k] == b[0];
    var j :| 0 <= j < |b| && b[j] == a[0];
    assert j > 0 ==> MatchStart(b[0]) <= MatchStart(b[j]);
  }

  lemma TailsStayOrdered(a: seq<Match>, b: seq<Match>)
    requires SortedBy(b, MatchStart) && StrictlyAscending(a) && a != [] && b != []
    ensures SortedBy(b[1..], MatchStart) && StrictlyAscending(a[1..])
  {
  }

  /** A list in strict order is the only sorted list of its elements. */
  lemma {:induction false} SortedUnique(a: seq<Match>, b: seq<Match>)
    requires multiset(a) == multiset(b) && SortedBy(b, MatchStart) && StrictlyAscending(a)
    ensures a == b
    decreases |a|
  {
    assert |a| == |multiset(a)| == |multiset(b)| == |b|;
    if a != [] {
      SameHead(a, b);
      var x, y := a[1..], b[1..];
      assert multiset(x) == multiset(y) by {
        TailMultiset(a);
        TailMultiset(b);
      }
      TailsStayOrdered(a, b);
      SortedUnique(x, y);
      assert a == [a[0]] + a[1..] && b == [b[0]] + b[1..];
    }
  }

  lemma {:induction false} DisjointAscends(ms: seq<Match>, i: nat, j: nat)
    requires Disjoint(ms) && (forall m | m in ms :: m.start < m.end) && i < j < |ms|
    ensures ms[i].end <= ms[j].start
    decreases j - i
  {
    if i + 1 < j {
      DisjointAscends(ms, i + 1, j);
      assert ms[i + 1] in ms;
    }
  }

  /** Whether edits apply, and to what result, depends only on which edits there are. */
  lemma EditOrderIrrelevant(content: Bytes, a: seq<TextEdit>, b: seq<TextEdit>, coverage: Ranges)
    requires multiset(a) == multiset(b) && Applicable(content, a, coverage)
    ensures Applicable(content, b, coverage)
    ensures forall result :: Applies(content, a, coverage, result) <==> Applies(content, b, coverage, result)
  {
    PermutedLocated(content, a, b, coverage);
    LocatedPermutes(content, a, b, coverage);
    var ma, mb := Located(content, a, coverage), Located(content, b, coverage);
    var sa, sb := Sort(ma, MatchStart), Sort(mb, MatchStart);
    SortSorts(ma, MatchStart);
    SortSorts(mb, MatchStart);
    LocatedAreRanges(content, a, coverage);
    forall i, j | 0 <= i < j < |sa|
      ensures sa[i].start < sa[j].start
    {
      DisjointAscends(sa, i, j);
      assert sa[i] in sa;
    }
    SortedUnique(sa, sb);
    assert |multiset(a)| == |multiset(b)|;
  }

  // ---- One pass agrees with replacing one by one ------------------------

  function Replace(content: Bytes, m: Match): Bytes
    requires m.start <= m.end <= |content|
  {
    content[..m.start] + m.newText + content[m.end..]
  }

  /** Replaces the last match first, so that earlier positions stay valid. */
  function FromTheRight(content: Bytes, ms: seq<Match>): Bytes
    requires Within(content, ms, 0)
    decreases |ms|
  {
    if ms == [] then content
    else
      LastMatch(content, ms, 0);
      FromTheRight(Replace(content, ms[|ms| - 1]), ms[..|ms| - 1])
  }

  lemma {:induction false} LastMatch(content: Bytes, ms: seq<Match>, cursor: nat)
    requires Within(content, ms, cursor) && ms != []
    ensures var last := ms[|ms| - 1];
            && cursor <= last.start < last.end <= |content|
            && Within(Replace(content, last), ms[..|ms| - 1], cursor)
    decreases |ms|
  {
    var last := ms[|ms| - 1];
    if |ms| == 1 {
      assert ms[..0] == [];
    } else {
      LastMatch(content, ms[1..], ms[0].end);
      assert ms[1..][..|ms| - 2] == ms[..|ms| - 1][1..];
    }
  }

  lemma {:induction false} SpliceLast(content: Bytes, ms: seq<Match>, cursor: nat)
    requires Within(content, ms, cursor) && ms != []
    ensures var last := ms[|ms| - 1];
            && last.start < last.end <= |content|
            && Within(Replace(content, last), ms[..|ms| - 1], cursor)
            && Splice(content, ms, cursor) == Splice(Replace(content, last), ms[..|ms| - 1], cursor)
    decreases |ms|
  {
    LastMatch(content, ms, cursor);
    var last := ms[|ms| - 1];
    var replaced := Replace(content, last);
    if |ms| == 1 {
      assert ms[..0] == [] && ms[1..] == [];
      assert replaced[cursor..] == content[cursor..last.start] + last.newText + content[last.end..];
    } else {
      var first, init := ms[0], ms[..|ms| - 1];
      SpliceLast(content, ms[1..], first.end);
      assert ms[1..][..|ms| - 2] == init[1..];
      LastMatch(content, ms[1..], first.end);
      calc {
        Splice(content, ms, cursor);
        content[cursor..first.start] + first.newText + Splice(replaced, init[1..], first.end);
        { assert content[cursor..first.start] == replaced[cursor..first.start]; }
        replaced[cursor..first.start] + first.newText + Splice(replaced, init[1..], first.end);
        Splice(replaced, init, cursor);
      }
    }
  }

  lemma {:induction false} OnePassEqualsFromTheRight(content: Bytes, ms: seq<Match>)
    requires Within(content, ms, 0)
    ensures Splice(content, ms, 0) == FromTheRight(content, ms)
    decreases |ms|
  {
    if ms == [] {
      assert content[0..] == content;
    } else {
      SpliceLast(content, ms, 0);
      OnePassEqualsFromTheRight(Replace(content, ms[|ms| - 1]), ms[..|ms| - 1]);
    }
  }

  /** By how much the replacements lengthen the text. */
  function Growth(ms: seq<Match>): int {
    if ms == [] then 0 else |ms[0].newText| - (ms[0].end - ms[0].start) + Growth(ms[1..])
  }

  lemma {:induction false} SpliceLength(content: Bytes, ms: seq<Match>, cursor: nat)
    requires Within(content, ms, cursor)
    ensures cursor <= |content|
    ensures |Splice(content, ms, cursor)| == |content| - cursor + Growth(ms)
    decreases |ms|
  {
    if ms != [] {
      SpliceLength(content, ms[1..], ms[0].end);
    }
  }

  lemma {:induction false} GrowthOfInsert(ms: seq<Match>, m: Match)
    ensures Growth(Insert(ms, m, MatchStart)) == Growth(ms) + |m.newText| - (m.end - m.start)
    decreases |ms|
  {
    if ms == [] {
      assert [m][1..] == [];
    } else if m.start < ms[0].start {
      assert ([m] + ms)[1..] == ms;
    } else {
      GrowthOfInsert(ms[1..], m);
      var r := [ms[0]] + Insert(ms[1..], m, MatchStart);
      assert r[1..] == Insert(ms[1..], m, MatchStart);
    }
  }

  /** The lengths of all new texts minus the lengths of all old texts. */
  function TextGrowth(edits: seq<TextEdit>): int {
    if edits == [] then 0
    else TextGrowth(edits[..|edits| - 1]) + |edits[|edits| - 1].newText| - |edits[|edits| - 1].oldText|
  }

  lemma {:induction false} GrowthOfSorted(content: Bytes, edits: seq<TextEdit>, coverage: Ranges)
    requires AllLocated(content, edits, coverage)
    ensures Growth(Sort(Located(content, edits, coverage), MatchStart)) == TextGrowth(edits)
    decreases |edits|
  {
    if edits != [] {
      var n := |edits| - 1;
      var ms := Located(content, edits, coverage);
      assert ms[..n] == Located(content, edits[..n], coverage);
      GrowthOfSorted(content, edits[..n], coverage);
      GrowthOfInsert(Sort(ms[..n], MatchStart), ms[n]);
      LocateMeans(content, edits[n], coverage);
    }
  }

  /**
   * What a successful application means: every replaced range had been read,
   * the result is that of replacing the ranges one by one from the right, and
   * the length changes by the sum over the edits.
   */
  lemma EditsMean(content: Bytes, edits: seq<TextEdit>, coverage: Ranges, result: Bytes)
    requires Applies(content, edits, coverage, result)
    ensures var ms := Sort(Located(content, edits, coverage), MatchStart);
            && (forall m | m in ms :: Contains(coverage, Range(m.start, m.end)))
            && result == FromTheRight(content, ms)
    ensures |result| == |content| + TextGrowth(edits)
  {
    var ms := Sort(Located(content, edits, coverage), MatchStart);
    LocatedAreRanges(content, edits, coverage);
    OnePassEqualsFromTheRight(content, ms);
    SpliceLength(content, ms, 0);
    GrowthOfSorted(content, edits, coverage);
  }
}
