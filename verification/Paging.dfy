/**
 * Bounded reads of UTF-8 text with continuation cursors
 * (crates/libs/tascarrel-agent/src/file_workspace.rs, `select_text`).
 */
module Paging {
  import opened Foundation
  import opened Coverage

  // ---- UTF-8 ------------------------------------------------------------

  /** The octet pattern `10xxxxxx` of section 3 of RFC 3629. */
  predicate Continuation(b: Byte) {
    0x80 <= b < 0xC0
  }

  /** Length of the character that a leading octet announces, or 0 for any other octet. */
  function LeadLength(b: Byte): nat {
    if b < 0x80 then 1 else if b < 0xC0 then 0 else if b < 0xE0 then 2 else if b < 0xF0 then 3
    else if b < 0xF8 then 4 else 0
  }

  /** A whole character stands at the front. */
  predicate CharFirst(b: Bytes) {
    && b != [] && 0 < LeadLength(b[0]) <= |b|
    && forall i | 1 <= i < LeadLength(b[0]) :: Continuation(b[i])
  }

  /** A sequence of whole characters. */
  predicate Utf8(b: Bytes) {
    b == [] || (CharFirst(b) && Utf8(b[LeadLength(b[0])..]))
  }

  /** `str::is_char_boundary`. */
  predicate Boundary(b: Bytes, i: nat) {
    i == 0 || i == |b| || (i < |b| && !Continuation(b[i]))
  }

  /** Text from a boundary on is text. */
  lemma {:induction false} Utf8FromBoundary(b: Bytes, i: nat)
    requires Utf8(b) && i <= |b| && Boundary(b, i)
    ensures Utf8(b[i..])
    decreases |b|
  {
    if i == 0 {
      assert b[0..] == b;
    } else if i < |b| {
      var n := LeadLength(b[0]);
      assert i >= n;
      assert b[n..][i - n..] == b[i..];
      Utf8FromBoundary(b[n..], i - n);
    } else {
      assert b[i..] == [];
    }
  }

  /** The character at a boundary ends at a boundary. */
  lemma NextBoundary(b: Bytes, i: nat)
    requires Utf8(b) && i < |b| && Boundary(b, i)
    ensures 0 < LeadLength(b[i]) <= |b| - i && Boundary(b, i + LeadLength(b[i]))
    ensures forall k | i < k < i + LeadLength(b[i]) :: !Boundary(b, k)
  {
    Utf8FromBoundary(b, i);
    var rest := b[i..];
    var n := LeadLength(rest[0]);
    forall k | i < k < i + n
      ensures !Boundary(b, k)
    {
      assert b[k] == rest[k - i];
    }
    if n < |rest| {
      assert CharFirst(rest[n..]) && rest[n..][0] == b[i + n];
    }
  }

  /** Text up to a boundary is text. */
  lemma {:induction false} Utf8ToBoundary(b: Bytes, j: nat)
    requires Utf8(b) && j <= |b| && Boundary(b, j)
    ensures Utf8(b[..j])
    decreases |b|
  {
    if j == |b| {
      assert b[..j] == b;
    } else if j > 0 {
      var n := LeadLength(b[0]);
      assert j >= n;
      assert j - n == 0 || b[n..][j - n] == b[j];
      Utf8ToBoundary(b[n..], j - n);
      assert b[..j][n..] == b[n..][..j - n];
      assert forall i | 1 <= i < n :: b[..j][i] == b[i];
    }
  }

  lemma Utf8Slice(b: Bytes, i: nat, j: nat)
    requires Utf8(b) && i <= j <= |b| && Boundary(b, i) && Boundary(b, j)
    ensures Utf8(b[i..j])
  {
    Utf8FromBoundary(b, i);
    assert j - i == |b[i..]| || j == i || b[i..][j - i] == b[j];
    Utf8ToBoundary(b[i..], j - i);
    assert b[i..][..j - i] == b[i..j];
  }

  lemma {:induction false} Utf8Concat(a: Bytes, b: Bytes)
    requires Utf8(a) && Utf8(b)
    ensures Utf8(a + b)
    decreases |a|
  {
    if a == [] {
      assert a + b == b;
    } else {
      var n, ab := LeadLength(a[0]), a + b;
      Utf8Concat(a[n..], b);
      assert ab[n..] == a[n..] + b;
      assert CharFirst(ab) by {
        assert forall i | 0 <= i < n :: ab[i] == a[i];
      }
    }
  }

  /** Text that stands inside text starts and ends at boundaries. */
  lemma TextMatchBoundaries(b: Bytes, pattern: Bytes, p: nat)
    requires Utf8(b) && Utf8(pattern) && pattern != []
    requires p + |pattern| <= |b| && b[p..p + |pattern|] == pattern
    ensures Boundary(b, p) && Boundary(b, p + |pattern|)
  {
    assert b[p] == pattern[0];
    Utf8FromBoundary(b, p);
    PrefixEndsAtBoundary(b[p..], pattern);
    assert p + |pattern| < |b| ==> b[p..][|pattern|] == b[p + |pattern|];
  }

  lemma {:induction false} PrefixEndsAtBoundary(b: Bytes, pattern: Bytes)
    requires Utf8(b) && Utf8(pattern) && pattern <= b
    ensures Boundary(b, |pattern|)
    decreases |pattern|
  {
    if pattern != [] {
      var n := LeadLength(pattern[0]);
      assert b[0] == pattern[0];
      assert pattern[n..] <= b[n..];
      PrefixEndsAtBoundary(b[n..], pattern[n..]);
      if n < |b| {
        NextBoundary(b, 0);
      }
      assert |pattern| < |b| ==> b[n..][|pattern| - n] == b[|pattern|];
    }
  }

  // ---- Lines ------------------------------------------------------------

  /** Byte ranges of the lines from `start` on, each with its newline. */
  predicate LineRanges(content: Bytes, start: nat, ranges: Ranges)
    decreases |ranges|
  {
    if start >= |content| then ranges == []
    else
      && ranges != [] && ranges[0].start == start < ranges[0].end <= |content|
      && (forall i | start <= i < ranges[0].end - 1 :: content[i] != NEWLINE)
      && (content[ranges[0].end - 1] == NEWLINE || ranges[0].end == |content|)
      && LineRanges(content, ranges[0].end, ranges[1..])
  }

  /** The lines tile the text, and each starts and ends at a character boundary. */
  ghost predicate Tiles(content: Bytes, start: nat, ranges: Ranges) {
    && (forall k | 0 <= k < |ranges| :: ranges[k].start < ranges[k].end <= |content|)
    && (forall j, k | 0 <= j && k == j + 1 < |ranges| :: ranges[k].start == ranges[j].end)
    && (ranges != [] ==> ranges[0].start == start && ranges[|ranges| - 1].end == |content|)
    && (ranges == [] ==> start >= |content|)
    && (forall k | 0 <= k < |ranges| :: Boundary(content, ranges[k].end))
  }

  lemma {:induction false} LinesTile(content: Bytes, start: nat, ranges: Ranges)
    requires Utf8(content) && start <= |content| && Boundary(content, start) && LineRanges(content, start, ranges)
    ensures Tiles(content, start, ranges)
    decreases |ranges|
  {
    if ranges != [] {
      var end := ranges[0].end;
      BoundaryAfterNewline(content, end);
      LinesTile(content, end, ranges[1..]);
      var rest := ranges[1..];
      assert forall k | 1 <= k < |ranges| :: ranges[k] == rest[k - 1];
    }
  }

  lemma BoundaryAfterNewline(content: Bytes, end: nat)
    requires Utf8(content) && 0 < end <= |content|
    requires end < |content| ==> content[end - 1] == NEWLINE
    ensures Boundary(content, end)
  {
    if end < |content| {
      NextBoundary(content, end - 1);
    }
  }

  method TextLineRanges(content: Bytes) returns (ranges: Ranges)
    ensures LineRanges(content, 0, ranges)
  {
    ranges := [];
    var start, index := 0, 0;
    assert forall rest: Ranges :: ranges + rest == rest;
    // Whatever the remaining lines are, the ones found so far come before them.
    while index < |content|
      invariant 0 <= start <= index <= |content|
      invariant forall i | start <= i < index :: content[i] != NEWLINE
      invariant forall rest: Ranges :: LineRanges(content, start, rest) ==> LineRanges(content, 0, ranges + rest)
    {
      if content[index] == NEWLINE {
        ExtendLines(content, start, index + 1, ranges);
        ranges := ranges + [Range(start, index + 1)];
        start := index + 1;
      }
      index := index + 1;
    }
    if start < |content| {
      ExtendLines(content, start, |content|, ranges);
      ranges := ranges + [Range(start, |content|)];
      start := |content|;
    }
    assert LineRanges(content, start, []);
    assert ranges + [] == ranges;
  }

  lemma ExtendLines(content: Bytes, start: nat, end: nat, ranges: Ranges)
    requires start < end <= |content|
    requires forall i | start <= i < end - 1 :: content[i] != NEWLINE
    requires content[end - 1] == NEWLINE || end == |content|
    requires forall rest: Ranges :: LineRanges(content, start, rest) ==> LineRanges(content, 0, ranges + rest)
    ensures forall rest: Ranges ::
              LineRanges(content, end, rest) ==> LineRanges(content, 0, ranges + [Range(start, end)] + rest)
  {
    forall rest: Ranges | LineRanges(content, end, rest)
      ensures LineRanges(content, 0, ranges + [Range(start, end)] + rest)
    {
      var more := [Range(start, end)] + rest;
      assert more[1..] == rest;
      assert LineRanges(content, start, more);
      assert ranges + [Range(start, end)] + rest == ranges + more;
    }
  }

  // ---- Cursors and pages ------------------------------------------------

  /** A line number from 1 on and a byte offset into that line. */
  datatype Cursor = Cursor(line: nat, byteOffset: nat)

  datatype TextRead = TextRead(
    content: Bytes,
    byteRange: Range,
    startLine: nat,
    endLine: nat,
    totalLines: nat,
    next: Option<Cursor>,
    byteLimited: bool)

  datatype ReadError = BadOffset | BadLimit | BadByteOffset

  /** The cursor names a byte of a line, or the start of an empty file. */
  predicate Normal(ranges: Ranges, c: Cursor) {
    if ranges == [] then c == Cursor(1, 0)
    else 1 <= c.line <= |ranges| && ranges[c.line - 1].start + c.byteOffset < ranges[c.line - 1].end
  }

  function Position(ranges: Ranges, c: Cursor): nat {
    if 1 <= c.line <= |ranges| then ranges[c.line - 1].start + c.byteOffset else 0
  }

  /** The cursor may be passed to a read: it may also point just past its line. */
  predicate Readable(content: Bytes, ranges: Ranges, c: Cursor) {
    if ranges == [] then c == Cursor(1, 0)
    else
      && 1 <= c.line <= |ranges| && Position(ranges, c) <= ranges[c.line - 1].end
      && Boundary(content, Position(ranges, c))
  }

  /** Where a read limited to `limit` lines ends at the latest. */
  function RequestedEnd(ranges: Ranges, c: Cursor, limit: nat): nat
    requires limit > 0 && c.line > 0
  {
    var last := Min(c.line - 1 + limit, |ranges|);
    if last > 0 then ranges[last - 1].end else 0
  }

  /** `line` is the last of the first `last` lines that ends by `end`, or `first` if none does. */
  ghost predicate LastShown(ranges: Ranges, last: nat, end: nat, first: nat, line: nat)
    requires last <= |ranges|
  {
    || (1 <= line <= last && ranges[line - 1].end <= end && forall k | line <= k < last :: ranges[k].end > end)
    || (line == first && forall k | 0 <= k < last :: ranges[k].end > end)
  }

  /** No later character boundary lies within both limits. */
  ghost predicate Longest(content: Bytes, start: nat, end: nat, requestedEnd: nat, maxBytes: nat) {
    forall k | end < k <= requestedEnd && k <= start + maxBytes :: !Boundary(content, k)
  }

  /** The arguments that a read accepts. */
  predicate Selectable(content: Bytes, ranges: Ranges, c: Cursor, limit: nat, maxBytes: nat) {
    limit > 0 && maxBytes > 0 && c.line > 0 && Readable(content, ranges, c)
  }

  /** What one page promises. */
  ghost predicate Page(content: Bytes, ranges: Ranges, c: Cursor, limit: nat, maxBytes: nat, r: TextRead)
    requires limit > 0 && c.line > 0
  {
    var start := Position(ranges, c);
    var end := r.byteRange.end;
    && r.byteRange.start == start <= end <= |content|
    && r.content == content[start..end]
    && end <= RequestedEnd(ranges, c, limit)
    && (end - start <= maxBytes || (start < |content| && end == start + LeadLength(content[start])))
    && r.startLine == c.line && r.totalLines == |ranges|
    && LastShown(ranges, Min(c.line - 1 + limit, |ranges|), end, c.line, r.endLine)
    && (r.byteLimited <==> end < RequestedEnd(ranges, c, limit))
    && (start < RequestedEnd(ranges, c, limit) ==> start < end)
    && Boundary(content, end) && Longest(content, start, end, RequestedEnd(ranges, c, limit), maxBytes)
    && (r.next.None? ==> end == |content|)
    && (r.next.Some? ==> end < |content| && Normal(ranges, r.next.value) && Position(ranges, r.next.value) == end)
  }

  method ReadCursorForByte(ranges: Ranges, content: Bytes, byte: nat) returns (c: Option<Cursor>)
    requires Tiles(content, 0, ranges) && byte < |content|
    ensures c.Some? && Normal(ranges, c.value) && Position(ranges, c.value) == byte
  {
    var index := 0;
    while index < |ranges|
      invariant 0 <= index <= |ranges|
      invariant index < |ranges| ==> ranges[index].start <= byte
      invariant index == |ranges| > 0 ==> ranges[index - 1].end <= byte
    {
      var range := ranges[index];
      if range.start <= byte < range.end {
        return Some(Cursor(index + 1, byte - range.start));
      }
      if byte == range.end && index + 1 < |ranges| {
        return Some(Cursor(index + 2, 0));
      }
      index := index + 1;
    }
    return None;
  }

  /** The last boundary at or below `end`; there is one at `start`. */
  method FloorBoundary(content: Bytes, start: nat, end: nat) returns (e: nat)
    requires start <= end <= |content| && Boundary(content, start)
    ensures start <= e <= end && Boundary(content, e)
    ensures forall k | e < k <= end :: !Boundary(content, k)
  {
    e := end;
    while !Boundary(content, e)
      invariant start <= e <= end
      invariant forall k | e < k <= end :: !Boundary(content, k)
      decreases e
    {
      e := e - 1;
    }
  }

  /** Number of the last line that ends within the page, or else of the first line. */
  method ShownEndLine(ranges: Ranges, limit: nat, end: nat, first: nat) returns (line: nat)
    requires limit <= |ranges|
    ensures LastShown(ranges, limit, end, first, line)
  {
    var i := limit;
    while i > 0
      invariant 0 <= i <= limit
      invariant forall k | i <= k < limit :: ranges[k].end > end
    {
      i := i - 1;
      if ranges[i].end <= end {
        return i + 1;
      }
    }
    return first;
  }

  /** The first byte to return, if the cursor is readable. */
  method StartOf(content: Bytes, ranges: Ranges, c: Cursor) returns (r: Result<nat, ReadError>)
    requires Tiles(content, 0, ranges) && c.line > 0
    ensures r.Ok? <==> Readable(content, ranges, c)
    ensures r.Ok? ==> r.value == Position(ranges, c) <= |content| && Boundary(content, r.value)
  {
    if ranges != [] && c.line > |ranges| { return Err(BadOffset); }
    if ranges == [] && c.line != 1 { return Err(BadOffset); }
    if ranges == [] && c.byteOffset != 0 { return Err(BadByteOffset); }
    if ranges == [] { return Ok(0); }
    var range := ranges[c.line - 1];
    var start := range.start + c.byteOffset;
    if start > range.end || !Boundary(content, start) {
      return Err(BadByteOffset);
    }
    return Ok(start);
  }

  /** The cursor of the following page, if there is more to read. */
  method NextCursor(content: Bytes, ranges: Ranges, endIndex: nat, requestedEnd: nat, end: nat)
    returns (next: Option<Cursor>)
    requires Tiles(content, 0, ranges) && endIndex <= |ranges| && end <= requestedEnd <= |content|
    requires endIndex > 0 ==> requestedEnd == ranges[endIndex - 1].end
    requires endIndex == 0 ==> ranges == [] && content == []
    ensures next.None? ==> end == |content|
    ensures next.Some? ==> end < |content| && Normal(ranges, next.value) && Position(ranges, next.value) == end
  {
    if end < requestedEnd {
      next := ReadCursorForByte(ranges, content, end);
    } else if endIndex < |ranges| {
      assert ranges[endIndex].start == end;
      next := Some(Cursor(endIndex + 1, 0));
    } else {
      next := None;
    }
  }

  method SelectText(content: Bytes, c: Cursor, limit: nat, maxBytes: nat, ghost lines: Ranges)
    returns (r: Result<TextRead, ReadError>)
    requires Utf8(content) && LineRanges(content, 0, lines)
    ensures r.Ok? <==> Selectable(content, lines, c, limit, maxBytes)
    ensures r.Ok? ==> Page(content, lines, c, limit, maxBytes, r.value)
  {
    if c.line == 0 { return Err(BadOffset); }
    if limit == 0 || maxBytes == 0 { return Err(BadLimit); }
    var ranges := TextLineRanges(content);
    LinesUnique(content, 0, ranges, lines);
    LinesTile(content, 0, ranges);
    r := SelectPage(content, ranges, c, limit, maxBytes);
  }

  method SelectPage(content: Bytes, ranges: Ranges, c: Cursor, limit: nat, maxBytes: nat)
    returns (r: Result<TextRead, ReadError>)
    requires Utf8(content) && Tiles(content, 0, ranges) && c.line > 0 && limit > 0 && maxBytes > 0
    ensures r.Ok? <==> Readable(content, ranges, c)
    ensures r.Ok? ==> Page(content, ranges, c, limit, maxBytes, r.value)
  {
    var begin := StartOf(content, ranges, c);
    if begin.Err? { return Err(begin.error); }
    var read := PageFrom(content, ranges, c, limit, maxBytes, begin.value);
    return Ok(read);
  }

  method PageFrom(content: Bytes, ranges: Ranges, c: Cursor, limit: nat, maxBytes: nat, start: nat)
    returns (read: TextRead)
    requires Utf8(content) && Tiles(content, 0, ranges) && Readable(content, ranges, c) && limit > 0 && maxBytes > 0
    requires start == Position(ranges, c) <= |content| && Boundary(content, start)
    ensures Page(content, ranges, c, limit, maxBytes, read)
  {
    var endIndex := Min(c.line - 1 + limit, |ranges|);
    var requestedEnd := if endIndex > 0 then ranges[endIndex - 1].end else start;
    RequestedEndFits(content, ranges, c, limit, start, requestedEnd);
    var end, next := CutPage(content, ranges, start, endIndex, requestedEnd, maxBytes);
    var shown := ShownEndLine(ranges, endIndex, end, c.line);
    read := TextRead(content[start..end], Range(start, end), c.line, shown, |ranges|, next, end < requestedEnd);
    IsPage(content, ranges, c, limit, maxBytes, read);
  }

  /** Where a page ends, and where the next one starts. */
  method CutPage(content: Bytes, ranges: Ranges, start: nat, endIndex: nat, requestedEnd: nat, maxBytes: nat)
    returns (end: nat, next: Option<Cursor>)
    requires Utf8(content) && Tiles(content, 0, ranges) && endIndex <= |ranges| && maxBytes > 0
    requires start <= requestedEnd <= |content| && Boundary(content, start) && Boundary(content, requestedEnd)
    requires endIndex > 0 ==> requestedEnd == ranges[endIndex - 1].end
    requires endIndex == 0 ==> ranges == [] && content == []
    ensures start <= end <= requestedEnd && Boundary(content, end)
    ensures start < requestedEnd ==> start < end
    ensures Longest(content, start, end, requestedEnd, maxBytes)
    ensures end - start <= maxBytes || (start < |content| && end == start + LeadLength(content[start]))
    ensures next.None? ==> end == |content|
    ensures next.Some? ==> end < |content| && Normal(ranges, next.value) && Position(ranges, next.value) == end
  {
    end := PageEnd(content, start, requestedEnd, maxBytes);
    next := NextCursor(content, ranges, endIndex, requestedEnd, end);
  }

  lemma IsPage(content: Bytes, ranges: Ranges, c: Cursor, limit: nat, maxBytes: nat, r: TextRead)
    requires limit > 0 && c.line > 0 && r.byteRange.start == Position(ranges, c) <= r.byteRange.end
    requires r.byteRange.end <= RequestedEnd(ranges, c, limit) <= |content|
    requires r.content == content[r.byteRange.start..r.byteRange.end]
    requires var start, end := r.byteRange.start, r.byteRange.end;
             && (end - start <= maxBytes || (start < |content| && end == start + LeadLength(content[start])))
             && (start < RequestedEnd(ranges, c, limit) ==> start < end)
             && Boundary(content, end) && Longest(content, start, end, RequestedEnd(ranges, c, limit), maxBytes)
             && (r.next.None? ==> end == |content|)
             && (r.next.Some? ==> end < |content| && Normal(ranges, r.next.value) && Position(ranges, r.next.value) == end)
    requires r.startLine == c.line && r.totalLines == |ranges|
    requires LastShown(ranges, Min(c.line - 1 + limit, |ranges|), r.byteRange.end, c.line, r.endLine)
    requires r.byteLimited <==> r.byteRange.end < RequestedEnd(ranges, c, limit)
    ensures Page(content, ranges, c, limit, maxBytes, r)
  {
  }

  lemma RequestedEndFits(content: Bytes, ranges: Ranges, c: Cursor, limit: nat, start: nat, end: nat)
    requires Tiles(content, 0, ranges) && Readable(content, ranges, c) && limit > 0 && start == Position(ranges, c)
    requires var last := Min(c.line - 1 + limit, |ranges|);
             end == if last > 0 then ranges[last - 1].end else start
    ensures end == RequestedEnd(ranges, c, limit) && start <= end <= |content| && Boundary(content, end)
    ensures ranges == [] ==> content == []
    ensures ranges != [] ==> Min(c.line - 1 + limit, |ranges|) > 0
  {
    if ranges != [] {
      TilesAscend(content, ranges, c.line - 1, Min(c.line - 1 + limit, |ranges|) - 1);
    }
  }

  /** Cuts at the byte limit, back to a boundary, but never before the first character. */
  method PageEnd(content: Bytes, start: nat, requestedEnd: nat, maxBytes: nat) returns (end: nat)
    requires Utf8(content) && start <= requestedEnd <= |content| && maxBytes > 0
    requires Boundary(content, start) && Boundary(content, requestedEnd)
    ensures start <= end <= requestedEnd && Boundary(content, end)
    ensures start < requestedEnd ==> start < end
    ensures Longest(content, start, end, requestedEnd, maxBytes)
    ensures end - start <= maxBytes || (start < |content| && end == start + LeadLength(content[start]))
  {
    end := FloorBoundary(content, start, Min(requestedEnd, start + maxBytes));
    if end == start && end < requestedEnd {
      NextBoundary(content, start);
      end := end + LeadLength(content[start]);
    }
  }

  lemma TilesAscend(content: Bytes, ranges: Ranges, i: nat, j: nat)
    requires Tiles(content, 0, ranges) && i <= j < |ranges|
    ensures ranges[i].end <= ranges[j].end
    decreases j - i
  {
    if i < j {
      TilesAscend(content, ranges, i + 1, j);
    }
  }

  lemma {:induction false} LinesUnique(content: Bytes, start: nat, a: Ranges, b: Ranges)
    requires LineRanges(content, start, a) && LineRanges(content, start, b)
    ensures a == b
    decreases |a|
  {
    if start < |content| {
      assert a[0].end == b[0].end;
      LinesUnique(content, a[0].end, a[1..], b[1..]);
      assert a == [a[0]] + a[1..] && b == [b[0]] + b[1..];
    }
  }

  // ---- Reading a whole file ---------------------------------------------

  function Concat(pieces: seq<Bytes>): Bytes {
    if pieces == [] then [] else Concat(pieces[..|pieces| - 1]) + pieces[|pieces| - 1]
  }

  ghost predicate Positive(pace: nat -> (nat, nat)) {
    forall n: nat :: pace(n).0 > 0 && pace(n).1 > 0
  }

  lemma JoinPiece(content: Bytes, pieces: seq<Bytes>, position: nat, end: nat)
    requires position <= end <= |content| && Concat(pieces) == content[..position]
    ensures Concat(pieces + [content[position..end]]) == content[..end]
  {
    var more := pieces + [content[position..end]];
    assert more[..|more| - 1] == pieces;
  }

  /** A cursor that names a byte always has something to read. */
  lemma PageAdvances(content: Bytes, ranges: Ranges, c: Cursor, limit: nat)
    requires Tiles(content, 0, ranges) && Normal(ranges, c) && limit > 0
    ensures content != [] ==> Position(ranges, c) < RequestedEnd(ranges, c, limit)
  {
    if ranges != [] {
      TilesAscend(content, ranges, c.line - 1, Min(c.line - 1 + limit, |ranges|) - 1);
    }
  }
}
