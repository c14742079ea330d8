/**
 * The durable journal of a session and its recovery after a crash
 * (crates/libs/tascarrel-agent/src/session_store.rs).
 */
module Journal {
  import opened Foundation
  import opened Model
  import opened Session

  const CURRENT_SESSION_FORMAT_VERSION: nat := 1
  const MAX_SESSION_ID_BYTES: nat := 128

  datatype Record =
    | Header(version: nat, sessionId: string, workingDirectory: string)
    | Entry(entry: SessionEntry)
    | Commit(entryCount: nat)

  /** The JSON codec of single records. */
  datatype Codec = Codec(encode: Record -> Bytes, decode: Bytes -> Option<Record>)

  /**
   * Records decode back to themselves, and no record contains a raw newline:
   * the serializer is compact and section 7 of RFC 8259 has control characters
   * inside strings escaped.
   */
  ghost predicate Lawful(codec: Codec) {
    forall r: Record :: codec.decode(codec.encode(r)) == Some(r) && NEWLINE !in codec.encode(r)
  }

  datatype StoreError =
    | InvalidSessionId
    | AlreadyExists
    | NotFound
    | InvalidHeader
    | UnsupportedVersion(found: nat)
    | SessionIdMismatch
    | WorkingDirectoryMismatch
    | InvalidJson
    | InvalidCommit
    | InvalidStoredSession
    | Diverged
    | Io

  /** The session and working directory a journal belongs to. */
  datatype Owner = Owner(sessionId: string, workingDirectory: string)

  // ---- Encoding ---------------------------------------------------------

  function Line(codec: Codec, r: Record): Bytes {
    codec.encode(r) + [NEWLINE]
  }

  function Lines(codec: Codec, records: seq<Record>): Bytes {
    if records == [] then [] else Line(codec, records[0]) + Lines(codec, records[1..])
  }

  function EntryRecords(entries: Log): (rs: seq<Record>)
    ensures |rs| == |entries|
    ensures forall i | 0 <= i < |entries| :: rs[i] == Entry(entries[i])
  {
    seq(|entries|, i requires 0 <= i < |entries| => Entry(entries[i]))
  }

  /** The records that make `after` durable when `before` already is. */
  function TransactionRecords(before: Log, after: Log): seq<Record>
    requires before <= after
  {
    EntryRecords(after[|before|..]) + [Commit(|after|)]
  }

  function Transaction(codec: Codec, before: Log, after: Log): Bytes
    requires before <= after
  {
    Lines(codec, TransactionRecords(before, after))
  }

  function HeaderLine(codec: Codec, owner: Owner): Bytes {
    Line(codec, Header(CURRENT_SESSION_FORMAT_VERSION, owner.sessionId, owner.workingDirectory))
  }

  // ---- Decoding, as a function ------------------------------------------

  /** The position just after the first newline at or after `from`. */
  function LineEnd(bytes: Bytes, from: nat): (r: Option<nat>)
    ensures r.Some? ==> from < r.value <= |bytes|
    decreases |bytes| - from
  {
    if from >= |bytes| then None
    else if bytes[from] == NEWLINE then Some(from + 1)
    else LineEnd(bytes, from + 1)
  }

  predicate NoNewline(bytes: Bytes, from: nat, to: nat) {
    forall i | from <= i < to && i < |bytes| :: bytes[i] != NEWLINE
  }

  lemma {:induction false} LineEndIff(bytes: Bytes, from: nat, end: nat)
    ensures LineEnd(bytes, from) == Some(end) <==>
              from < end <= |bytes| && bytes[end - 1] == NEWLINE && NoNewline(bytes, from, end - 1)
    ensures LineEnd(bytes, from) == None <==> NoNewline(bytes, from, |bytes|)
    decreases |bytes| - from
  {
    if from < |bytes| && bytes[from] != NEWLINE {
      LineEndIff(bytes, from + 1, end);
    }
  }

  datatype Decoded = Decoded(entries: Log, completeBytes: nat)

  /** Decodes the records from `at` on, given what was committed and what is still pending. */
  function DecodeRecords(codec: Codec, bytes: Bytes, at: nat, entries: Log, pending: Log, complete: nat)
    : Result<Decoded, StoreError>
    decreases |bytes| - at
  {
    match LineEnd(bytes, at)
    case None => Ok(Decoded(entries, complete))
    case Some(end) =>
      match codec.decode(bytes[at..end - 1])
      case None => Err(InvalidJson)
      case Some(Entry(e)) => DecodeRecords(codec, bytes, end, entries, pending + [e], complete)
      case Some(Commit(n)) =>
        if pending == [] || n != |entries| + |pending| then Err(InvalidCommit)
        else DecodeRecords(codec, bytes, end, entries + pending, [], end)
      case Some(Header(_, _, _)) => Err(InvalidHeader)
  }

  function CheckHeader(record: Option<Record>, owner: Owner): Result<(), StoreError> {
    match record
    case None => Err(InvalidJson)
    case Some(Header(version, sessionId, workingDirectory)) =>
      if version != CURRENT_SESSION_FORMAT_VERSION then Err(UnsupportedVersion(version))
      else if sessionId != owner.sessionId then Err(SessionIdMismatch)
      else if workingDirectory != owner.workingDirectory then Err(WorkingDirectoryMismatch)
      else Ok(())
    case Some(_) => Err(InvalidHeader)
  }

  function DecodeFile(codec: Codec, bytes: Bytes, owner: Owner): Result<Decoded, StoreError> {
    match LineEnd(bytes, 0)
    case None => Err(InvalidHeader)
    case Some(end) =>
      match CheckHeader(codec.decode(bytes[..end - 1]), owner)
      case Err(e) => Err(e)
      case Ok(_) => DecodeRecords(codec, bytes, end, [], [], end)
  }

  // ---- Reading back what was written ------------------------------------

  /** `chunk` stands in the file at position `at`. */
  predicate Holds(bytes: Bytes, at: nat, chunk: Bytes) {
    at + |chunk| <= |bytes| && bytes[at..at + |chunk|] == chunk
  }

  lemma HoldsSplit(bytes: Bytes, at: nat, a: Bytes, b: Bytes)
    ensures Holds(bytes, at, a + b) <==> Holds(bytes, at, a) && Holds(bytes, at + |a|, b)
  {
    if at + |a + b| <= |bytes| {
      var part := bytes[at..at + |a + b|];
      assert part[..|a|] == bytes[at..at + |a|] && part[|a|..] == bytes[at + |a|..at + |a| + |b|];
      assert part == part[..|a|] + part[|a|..];
      assert (a + b)[..|a|] == a && (a + b)[|a|..] == b;
    }
  }

  lemma ReadLine(codec: Codec, bytes: Bytes, at: nat, r: Record)
    requires Lawful(codec) && Holds(bytes, at, Line(codec, r))
    ensures LineEnd(bytes, at) == Some(at + |Line(codec, r)|)
    ensures codec.decode(bytes[at..at + |Line(codec, r)| - 1]) == Some(r)
  {
    var code := codec.encode(r);
    HoldsSplit(bytes, at, code, [NEWLINE]);
    var end := at + |code| + 1;
    assert bytes[end - 1] == bytes[at + |code|..end][0];
    forall i | at <= i < end - 1
      ensures bytes[i] != NEWLINE
    {
      assert bytes[i] == bytes[at..at + |code|][i - at];
    }
    LineEndIff(bytes, at, end);
  }

  lemma ReadEntry(codec: Codec, bytes: Bytes, at: nat, e: SessionEntry, entries: Log, pending: Log, complete: nat)
    requires Lawful(codec) && Holds(bytes, at, Line(codec, Entry(e)))
    ensures DecodeRecords(codec, bytes, at, entries, pending, complete)
         == DecodeRecords(codec, bytes, at + |Line(codec, Entry(e))|, entries, pending + [e], complete)
  {
    ReadLine(codec, bytes, at, Entry(e));
  }

  lemma ReadCommit(codec: Codec, bytes: Bytes, at: nat, entries: Log, pending: Log, complete: nat)
    requires Lawful(codec) && pending != []
    requires Holds(bytes, at, Line(codec, Commit(|entries| + |pending|)))
    ensures var end := at + |Line(codec, Commit(|entries| + |pending|))|;
            DecodeRecords(codec, bytes, at, entries, pending, complete)
            == DecodeRecords(codec, bytes, end, entries + pending, [], end)
  {
    ReadLine(codec, bytes, at, Commit(|entries| + |pending|));
  }

  lemma EntryLines(codec: Codec, es: Log)
    requires es != []
    ensures Lines(codec, EntryRecords(es)) == Line(codec, Entry(es[0])) + Lines(codec, EntryRecords(es[1..]))
  {
    assert EntryRecords(es)[1..] == EntryRecords(es[1..]);
  }

  /** `f`, given a position and the pending entries, takes in an entry line by moving past it. */
  ghost predicate TakesEntries(codec: Codec, bytes: Bytes, f: (nat, Log) -> Result<Decoded, StoreError>) {
    forall at: nat, pending: Log, e: SessionEntry {:trigger Holds(bytes, at, Line(codec, Entry(e))), f(at, pending)} ::
      Holds(bytes, at, Line(codec, Entry(e))) ==> f(at, pending) == f(at + |Line(codec, Entry(e))|, pending + [e])
  }

  ghost function Decoder(codec: Codec, bytes: Bytes, entries: Log, complete: nat)
    : (f: (nat, Log) -> Result<Decoded, StoreError>)
    requires Lawful(codec)
    ensures TakesEntries(codec, bytes, f)
    ensures forall at, pending :: f(at, pending) == DecodeRecords(codec, bytes, at, entries, pending, complete)
  {
    var f := (at: nat, pending: Log) => DecodeRecords(codec, bytes, at, entries, pending, complete);
    assert TakesEntries(codec, bytes, f) by {
      forall at: nat, pending: Log, e: SessionEntry | Holds(bytes, at, Line(codec, Entry(e)))
        ensures f(at, pending) == f(at + |Line(codec, Entry(e))|, pending + [e])
      {
        ReadEntry(codec, bytes, at, e, entries, pending, complete);
      }
    }
    f
  }

  lemma {:induction false} TakeEntries(codec: Codec, bytes: Bytes, at: nat, es: Log, pending: Log,
                                       f: (nat, Log) -> Result<Decoded, StoreError>)
    requires TakesEntries(codec, bytes, f) && Holds(bytes, at, Lines(codec, EntryRecords(es)))
    ensures f(at, pending) == f(at + |Lines(codec, EntryRecords(es))|, pending + es)
    decreases |es|
  {
    if es == [] {
      assert pending + es == pending;
    } else {
      var head, rest := Line(codec, Entry(es[0])), Lines(codec, EntryRecords(es[1..]));
      EntryLines(codec, es);
      HoldsSplit(bytes, at, head, rest);
      assert f(at, pending) == f(at + |head|, pending + [es[0]]);
      TakeEntries(codec, bytes, at + |head|, es[1..], pending + [es[0]], f);
      assert pending + [es[0]] + es[1..] == pending + es;
    }
  }

  lemma {:induction false} LinesConcat(codec: Codec, a: seq<Record>, b: seq<Record>)
    ensures Lines(codec, a + b) == Lines(codec, a) + Lines(codec, b)
  {
    var ab := a + b;
    if a == [] {
      assert ab == b;
    } else {
      assert ab[1..] == a[1..] + b;
      calc {
        Lines(codec, ab);
        Line(codec, a[0]) + Lines(codec, a[1..] + b);
        { LinesConcat(codec, a[1..], b); }
        Line(codec, a[0]) + (Lines(codec, a[1..]) + Lines(codec, b));
        Lines(codec, a) + Lines(codec, b);
      }
    }
  }

  lemma TransactionSplits(codec: Codec, before: Log, after: Log)
    requires before <= after
    ensures Transaction(codec, before, after)
         == Lines(codec, EntryRecords(after[|before|..])) + Line(codec, Commit(|after|))
  {
    LinesConcat(codec, EntryRecords(after[|before|..]), [Commit(|after|)]);
    assert [Commit(|after|)][1..] == [];
  }

  lemma ReadBatch(codec: Codec, bytes: Bytes, at: nat, entries: Log, es: Log, complete: nat)
    requires Lawful(codec) && es != [] && Holds(bytes, at, Lines(codec, EntryRecords(es)))
    requires Holds(bytes, at + |Lines(codec, EntryRecords(es))|, Line(codec, Commit(|entries| + |es|)))
    ensures var end := at + |Lines(codec, EntryRecords(es))| + |Line(codec, Commit(|entries| + |es|))|;
            DecodeRecords(codec, bytes, at, entries, [], complete)
            == DecodeRecords(codec, bytes, end, entries + es, [], end)
  {
    var middle := at + |Lines(codec, EntryRecords(es))|;
    ReadEntries(codec, bytes, at, entries, es, complete);
    ReadCommit(codec, bytes, middle, entries, es, complete);
  }

  lemma ReadEntries(codec: Codec, bytes: Bytes, at: nat, entries: Log, es: Log, complete: nat)
    requires Lawful(codec) && Holds(bytes, at, Lines(codec, EntryRecords(es)))
    ensures DecodeRecords(codec, bytes, at, entries, [], complete)
         == DecodeRecords(codec, bytes, at + |Lines(codec, EntryRecords(es))|, entries, es, complete)
  {
    var f := Decoder(codec, bytes, entries, complete);
    TakeEntries(codec, bytes, at, es, [], f);
    assert [] + es == es;
  }

  /** A whole transaction moves the decoder from one committed session to the next. */
  lemma ReadTransaction(codec: Codec, bytes: Bytes, at: nat, before: Log, after: Log, complete: nat)
    requires Lawful(codec) && before < after && Holds(bytes, at, Transaction(codec, before, after))
    ensures var end := at + |Transaction(codec, before, after)|;
            DecodeRecords(codec, bytes, at, before, [], complete)
            == DecodeRecords(codec, bytes, end, after, [], end)
  {
    var es := after[|before|..];
    var body, commit := Lines(codec, EntryRecords(es)), Line(codec, Commit(|after|));
    TransactionSplits(codec, before, after);
    HoldsSplit(bytes, at, body, commit);
    ReadBatch(codec, bytes, at, before, es, complete);
    assert before + es == after;
  }

  /** A torn transaction, cut anywhere before its last byte, adds nothing. */
  lemma ReadTornTransaction(codec: Codec, bytes: Bytes, at: nat, before: Log, after: Log, complete: nat)
    requires Lawful(codec) && before < after && at <= |bytes|
    requires bytes[at..] < Transaction(codec, before, after)
    ensures DecodeRecords(codec, bytes, at, before, [], complete) == Ok(Decoded(before, complete))
  {
    TransactionSplits(codec, before, after);
    var stop, taken :=
      TakeTornEntries(codec, bytes, at, after[|before|..], |after|, [], Decoder(codec, bytes, before, complete));
    assert DecodeRecords(codec, bytes, stop, before, taken, complete) == Ok(Decoded(before, complete));
  }

  /** A cut run of entry lines is taken in up to a position that starts no whole line. */
  lemma {:induction false} TakeTornEntries(codec: Codec, bytes: Bytes, at: nat, es: Log, count: nat, pending: Log,
                                           f: (nat, Log) -> Result<Decoded, StoreError>)
    returns (stop: nat, taken: Log)
    requires Lawful(codec) && TakesEntries(codec, bytes, f) && at <= |bytes|
    requires bytes[at..] < Lines(codec, EntryRecords(es)) + Line(codec, Commit(count))
    ensures f(at, pending) == f(stop, taken) && LineEnd(bytes, stop) == None
    decreases |es|
  {
    var commit := Line(codec, Commit(count));
    if es == [] {
      assert Lines(codec, EntryRecords(es)) + commit == commit;
      ReadTornLine(codec, bytes, at, Commit(count));
      return at, pending;
    }
    var head, rest := Line(codec, Entry(es[0])), Lines(codec, EntryRecords(es[1..])) + commit;
    EntryLines(codec, es);
    assert Lines(codec, EntryRecords(es)) + commit == head + rest;
    CutInTwo(bytes, at, head, rest);
    if |bytes| - at < |head| {
      ReadTornLine(codec, bytes, at, Entry(es[0]));
      return at, pending;
    }
    assert f(at, pending) == f(at + |head|, pending + [es[0]]);
    stop, taken := TakeTornEntries(codec, bytes, at + |head|, es[1..], count, pending + [es[0]], f);
  }

  /** A cut line has no newline left. */
  lemma ReadTornLine(codec: Codec, bytes: Bytes, at: nat, r: Record)
    requires Lawful(codec) && at <= |bytes| && bytes[at..] < Line(codec, r)
    ensures LineEnd(bytes, at) == None
  {
    forall i | at <= i < |bytes|
      ensures bytes[i] != NEWLINE
    {
      assert bytes[i] == bytes[at..][i - at] == codec.encode(r)[i - at];
    }
    LineEndIff(bytes, at, 0);
  }

  /** A proper prefix of `a + b` ends within `a`, or holds `a` and a proper prefix of `b`. */
  lemma CutInTwo(bytes: Bytes, at: nat, a: Bytes, b: Bytes)
    requires at <= |bytes| && bytes[at..] < a + b
    ensures |bytes| - at < |a| ==> bytes[at..] < a
    ensures |bytes| - at >= |a| ==> Holds(bytes, at, a) && bytes[at + |a|..] < b
  {
    var tail := bytes[at..];
    assert tail == (a + b)[..|tail|];
    if |tail| < |a| {
      assert tail == a[..|tail|];
    } else {
      assert tail[..|a|] == a && bytes[at..at + |a|] == tail[..|a|];
      assert bytes[at + |a|..] == tail[|a|..] == b[..|tail| - |a|];
    }
  }

  // ---- The sessions a journal went through ------------------------------

  /** Sessions in the order they were handed to the journal. */
  datatype Chain = Empty | Then(earlier: Chain, session: Log)

  function Newest(c: Chain): Log {
    if c.Empty? then [] else c.session
  }

  /** Each session is valid and extends the one before. */
  predicate Linked(c: Chain) {
    c.Then? ==> Linked(c.earlier) && Newest(c.earlier) < c.session && ValidLog(c.session)
  }

  /** `a` is `c` or one of its earlier stages. */
  predicate Stage(a: Chain, c: Chain) {
    a == c || (c.Then? && Stage(a, c.earlier))
  }

  lemma {:induction false} StageTransitive(a: Chain, b: Chain, c: Chain)
    requires Stage(a, b) && Stage(b, c)
    ensures Stage(a, c)
  {
    if b != c {
      StageTransitive(a, b, c.earlier);
    }
  }

  /** The file after every session of the chain was written in full. */
  function Image(codec: Codec, owner: Owner, c: Chain): Bytes
    requires Linked(c)
  {
    if c.Empty? then HeaderLine(codec, owner)
    else Image(codec, owner, c.earlier) + Transaction(codec, Newest(c.earlier), c.session)
  }

  lemma {:induction false} StageImage(codec: Codec, owner: Owner, a: Chain, c: Chain)
    requires Linked(c) && Stage(a, c)
    ensures Linked(a) && Image(codec, owner, a) <= Image(codec, owner, c)
    ensures Newest(a) <= Newest(c)
    ensures a != c ==> Newest(a) < Newest(c) && |Image(codec, owner, a)| < |Image(codec, owner, c)|
  {
    if a != c {
      StageImage(codec, owner, a, c.earlier);
      TransactionSplits(codec, Newest(c.earlier), c.session);
    }
  }

  lemma LinkedIsValid(c: Chain)
    requires Linked(c)
    ensures ValidLog(Newest(c))
  {
  }

  /** Decoding passes through the image of a chain to its newest session. */
  lemma {:induction false} ReadImage(codec: Codec, owner: Owner, c: Chain, bytes: Bytes)
    requires Lawful(codec) && Linked(c) && Image(codec, owner, c) <= bytes
    ensures var end := |Image(codec, owner, c)|;
            DecodeFile(codec, bytes, owner) == DecodeRecords(codec, bytes, end, Newest(c), [], end)
  {
    if c.Empty? {
      var header := Header(CURRENT_SESSION_FORMAT_VERSION, owner.sessionId, owner.workingDirectory);
      assert Holds(bytes, 0, Line(codec, header));
      ReadLine(codec, bytes, 0, header);
      assert bytes[..|Line(codec, header)| - 1] == bytes[0..|Line(codec, header)| - 1];
    } else {
      var image, step := Image(codec, owner, c.earlier), Transaction(codec, Newest(c.earlier), c.session);
      assert Holds(bytes, 0, image + step);
      HoldsSplit(bytes, 0, image, step);
      assert image <= bytes;
      ReadImage(codec, owner, c.earlier, bytes);
      ReadTransaction(codec, bytes, |image|, Newest(c.earlier), c.session, |image|);
    }
  }

  lemma ReadWholeImage(codec: Codec, owner: Owner, c: Chain)
    requires Lawful(codec) && Linked(c)
    ensures var image := Image(codec, owner, c);
            DecodeFile(codec, image, owner) == Ok(Decoded(Newest(c), |image|))
  {
    ReadImage(codec, owner, c, Image(codec, owner, c));
  }

  /** The image of a chain followed by less than the next transaction. */
  lemma ReadTornImage(codec: Codec, owner: Owner, c: Chain, next: Log, torn: Bytes)
    requires Lawful(codec) && Linked(c) && Newest(c) < next
    requires torn < Transaction(codec, Newest(c), next)
    ensures var image := Image(codec, owner, c);
            DecodeFile(codec, image + torn, owner) == Ok(Decoded(Newest(c), |image|))
  {
    var image := Image(codec, owner, c);
    var bytes := image + torn;
    ReadImage(codec, owner, c, bytes);
    assert bytes[|image|..] == torn;
    ReadTornTransaction(codec, bytes, |image|, Newest(c), next, |image|);
  }

  /** The last stage that is written in full within `n` bytes. */
  function Whole(codec: Codec, owner: Owner, c: Chain, n: nat): (w: Chain)
    requires Linked(c)
    ensures Linked(w) && Stage(w, c)
  {
    if c.Empty? || |Image(codec, owner, c)| <= n then c else Whole(codec, owner, c.earlier, n)
  }

  lemma PrefixOfConcat(a: Bytes, b: Bytes, bytes: Bytes)
    requires |a| <= |bytes| < |a| + |b| && bytes <= a + b
    ensures a <= bytes && bytes == a + bytes[|a|..] && bytes[|a|..] < b
  {
    assert bytes[..|a|] == (a + b)[..|a|] == a;
    assert bytes[|a|..] == (a + b)[..|bytes|][|a|..] == b[..|bytes| - |a|];
  }

  /** Any prefix of the image that keeps the header decodes to a whole session of the chain. */
  lemma {:induction false} ReadPrefix(codec: Codec, owner: Owner, c: Chain, bytes: Bytes)
    requires Lawful(codec) && Linked(c)
    requires |HeaderLine(codec, owner)| <= |bytes| && bytes <= Image(codec, owner, c)
    ensures var w := Whole(codec, owner, c, |bytes|);
            && Image(codec, owner, w) <= bytes
            && DecodeFile(codec, bytes, owner) == Ok(Decoded(Newest(w), |Image(codec, owner, w)|))
  {
    if c.Empty? || |Image(codec, owner, c)| <= |bytes| {
      assert bytes == Image(codec, owner, c);
      ReadWholeImage(codec, owner, c);
    } else {
      var image, step := Image(codec, owner, c.earlier), Transaction(codec, Newest(c.earlier), c.session);
      if |image| <= |bytes| {
        PrefixOfConcat(image, step, bytes);
        ReadTornImage(codec, owner, c.earlier, c.session, bytes[|image|..]);
        assert Whole(codec, owner, c, |bytes|) == c.earlier;
      } else {
        assert bytes == (image + step)[..|bytes|] == image[..|bytes|];
        ReadPrefix(codec, owner, c.earlier, bytes);
      }
    }
  }

  lemma {:induction false} WholeAtLeast(codec: Codec, owner: Owner, c: Chain, n: nat, low: Chain)
    requires Linked(c) && Stage(low, c) && Linked(low) && |Image(codec, owner, low)| <= n
    ensures Stage(low, Whole(codec, owner, c, n))
  {
    if c.Then? && |Image(codec, owner, c)| > n {
      WholeAtLeast(codec, owner, c.earlier, n, low);
    }
  }

  // ---- Histories of persists, crashes and reopens -----------------------

  /**
   * A journal file and the process using it. `bytes` is the file, of which
   * `synced` bytes are known to be on the medium, and `live` is the session of
   * a store in working order. The rest records what was asked for: `chain`
   * holds every session handed to `persist` that the file may still contain,
   * `acked` ends with the last one whose write was acknowledged and `safe` with
   * the last one that was synchronized.
   */
  datatype History = History(
    bytes: Bytes,
    synced: nat,
    live: Option<Log>,
    chain: Chain,
    acked: Chain,
    safe: Chain)

  datatype Step =
    | Persist(session: Log)                          // written, synchronized, acknowledged
    | PersistInterrupted(attempt: Log, written: nat) // some bytes written, then an error or a crash
    | PowerLoss(kept: nat)                           // any prefix past the synchronized length survives
    | ProcessExit
    | Reopen
    | ReopenInterrupted(truncated: bool)             // died before the truncation was synchronized

  datatype Outcome = Disabled | OpenFailed(error: StoreError) | Next(history: History)

  /** `open`: decode, then validate the session. */
  function OpenBytes(codec: Codec, bytes: Bytes, owner: Owner): Result<Decoded, StoreError> {
    match DecodeFile(codec, bytes, owner)
    case Err(e) => Err(e)
    case Ok(d) => if ValidLog(d.entries) then Ok(d) else Err(InvalidStoredSession)
  }

  function Created(codec: Codec, owner: Owner): History {
    var header := HeaderLine(codec, owner);
    History(header, |header|, Some([]), Empty, Empty, Empty)
  }

  /** The stages that the first `n` bytes hold in full. */
  function KeptChain(codec: Codec, owner: Owner, c: Chain, n: nat): Chain {
    if Linked(c) then Whole(codec, owner, c, n) else c
  }

  function Apply(codec: Codec, owner: Owner, h: History, step: Step): Outcome {
    match step
    case Persist(session) =>
      if h.live.None? || !(h.live.value <= session && ValidLog(session)) then Disabled
      else if h.live.value == session then Next(h)
      else
        var bytes := h.bytes + Transaction(codec, h.live.value, session);
        var chain := Then(h.chain, session);
        Next(History(bytes, |bytes|, Some(session), chain, chain, chain))
    case PersistInterrupted(session, written) =>
      if h.live.None? || !(h.live.value < session && ValidLog(session)) then Disabled
      else
        var all := Transaction(codec, h.live.value, session);
        if written > |all| then Disabled
        else Next(h.(bytes := h.bytes + all[..written], live := None, chain := Then(h.chain, session)))
    case PowerLoss(kept) =>
      if h.synced <= kept <= |h.bytes| then Next(h.(bytes := h.bytes[..kept], live := None)) else Disabled
    case ProcessExit => Next(h.(live := None))
    case Reopen =>
      (match OpenBytes(codec, h.bytes, owner)
       case Err(e) => OpenFailed(e)
       case Ok(d) =>
         if d.completeBytes > |h.bytes| then OpenFailed(Io)
         else
           var cut := d.completeBytes != |h.bytes|;
           var chain := KeptChain(codec, owner, h.chain, |h.bytes|);
           Next(History(h.bytes[..d.completeBytes], if cut then d.completeBytes else h.synced, Some(d.entries),
                        chain, h.acked, if cut then chain else h.safe)))
    case ReopenInterrupted(truncated) =>
      (match OpenBytes(codec, h.bytes, owner)
       case Err(e) => OpenFailed(e)
       case Ok(d) =>
         if d.completeBytes > |h.bytes| then OpenFailed(Io)
         else Next(h.(bytes := if truncated then h.bytes[..d.completeBytes] else h.bytes, live := None)))
  }

  function Run(codec: Codec, owner: Owner, h: History, steps: seq<Step>): Outcome {
    if steps == [] then Next(h)
    else
      match Run(codec, owner, h, steps[..|steps| - 1])
      case Disabled => Disabled
      case OpenFailed(e) => OpenFailed(e)
      case Next(h') => Apply(codec, owner, h', steps[|steps| - 1])
  }

  ghost predicate Consistent(codec: Codec, owner: Owner, h: History) {
    && Linked(h.chain) && Linked(h.safe)
    && Stage(h.acked, h.safe) && Stage(h.safe, h.chain)
    && h.synced == |Image(codec, owner, h.safe)| <= |h.bytes|
    && h.bytes <= Image(codec, owner, h.chain)
    && (h.live.Some? ==> h.live.value == Newest(h.chain) && h.bytes == Image(codec, owner, h.chain))
  }

  /** `open` would now return the newest session of `w`, which is no older than the last acknowledged one. */
  ghost predicate Recovers(codec: Codec, owner: Owner, h: History, w: Chain) {
    && Stage(h.acked, w) && Stage(w, h.chain)
    && OpenBytes(codec, h.bytes, owner).Ok?
    && OpenBytes(codec, h.bytes, owner).value.entries == Newest(w)
  }

  lemma OpenRecovers(codec: Codec, owner: Owner, h: History)
    requires Lawful(codec) && Consistent(codec, owner, h)
    ensures var w := Whole(codec, owner, h.chain, |h.bytes|);
            && Stage(h.safe, w) && Recovers(codec, owner, h, w)
            && OpenBytes(codec, h.bytes, owner) == Ok(Decoded(Newest(w), |Image(codec, owner, w)|))
            && Image(codec, owner, w) <= h.bytes
  {
    var w := Whole(codec, owner, h.chain, |h.bytes|);
    EmptyIsStage(h.safe);
    StageImage(codec, owner, Empty, h.safe);
    ReadPrefix(codec, owner, h.chain, h.bytes);
    WholeAtLeast(codec, owner, h.chain, |h.bytes|, h.safe);
    StageTransitive(h.acked, h.safe, w);
    LinkedIsValid(w);
  }

  lemma {:induction false} EmptyIsStage(c: Chain)
    ensures Stage(Empty, c)
  {
    if c.Then? {
      EmptyIsStage(c.earlier);
    }
  }

  lemma InterruptionKeepsConsistent(codec: Codec, owner: Owner, h: History, session: Log, written: nat)
    requires Consistent(codec, owner, h) && Apply(codec, owner, h, PersistInterrupted(session, written)).Next?
    ensures Consistent(codec, owner, Apply(codec, owner, h, PersistInterrupted(session, written)).history)
  {
    var image, all := Image(codec, owner, h.chain), Transaction(codec, Newest(h.chain), session);
    assert image + all[..written] <= image + all;
  }

  lemma ReopenKeepsConsistent(codec: Codec, owner: Owner, h: History)
    requires Lawful(codec) && Consistent(codec, owner, h)
    ensures Apply(codec, owner, h, Reopen).Next?
    ensures Consistent(codec, owner, Apply(codec, owner, h, Reopen).history)
  {
    OpenRecovers(codec, owner, h);
    var w := Whole(codec, owner, h.chain, |h.bytes|);
    var image := Image(codec, owner, w);
    assert h.bytes[..|image|] == image;
    StageImage(codec, owner, h.safe, w);
  }

  lemma InterruptedReopenKeepsConsistent(codec: Codec, owner: Owner, h: History, truncated: bool)
    requires Lawful(codec) && Consistent(codec, owner, h)
    ensures Apply(codec, owner, h, ReopenInterrupted(truncated)).Next?
    ensures Consistent(codec, owner, Apply(codec, owner, h, ReopenInterrupted(truncated)).history)
  {
    OpenRecovers(codec, owner, h);
    var w := Whole(codec, owner, h.chain, |h.bytes|);
    StageImage(codec, owner, h.safe, w);
    StageImage(codec, owner, w, h.chain);
    assert h.bytes[..|Image(codec, owner, w)|] == Image(codec, owner, w);
  }

  lemma StepKeepsConsistent(codec: Codec, owner: Owner, h: History, step: Step)
    requires Lawful(codec) && Consistent(codec, owner, h)
    ensures !Apply(codec, owner, h, step).OpenFailed?
    ensures Apply(codec, owner, h, step).Next? ==> Consistent(codec, owner, Apply(codec, owner, h, step).history)
  {
    match step {
      case Persist(session) =>
      case PersistInterrupted(session, written) =>
        if Apply(codec, owner, h, step).Next? {
          InterruptionKeepsConsistent(codec, owner, h, session, written);
        }
      case PowerLoss(kept) =>
      case ProcessExit =>
      case Reopen =>
        ReopenKeepsConsistent(codec, owner, h);
      case ReopenInterrupted(truncated) =>
        InterruptedReopenKeepsConsistent(codec, owner, h, truncated);
    }
  }

  /**
   * Crash atomicity, for every history: opening never fails, and returns the
   * last acknowledged session or one handed to `persist` after it, always whole.
   */
  lemma {:induction false} CrashAtomicity(codec: Codec, owner: Owner, steps: seq<Step>)
    requires Lawful(codec)
    ensures !Run(codec, owner, Created(codec, owner), steps).OpenFailed?
    ensures var end := Run(codec, owner, Created(codec, owner), steps);
            end.Next? ==> && Consistent(codec, owner, end.history)
                          && exists w :: Recovers(codec, owner, end.history, w)
  {
    var h := Created(codec, owner);
    if steps != [] {
      var init := steps[..|steps| - 1];
      CrashAtomicity(codec, owner, init);
      var before := Run(codec, owner, h, init);
      if before.Next? {
        StepKeepsConsistent(codec, owner, before.history, steps[|steps| - 1]);
      }
    }
    var end := Run(codec, owner, h, steps);
    if end.Next? {
      OpenRecovers(codec, owner, end.history);
    }
  }

  /** With a single attempt since the last acknowledgement, it is that session or the attempted one. */
  lemma OneAttemptInFlight(codec: Codec, owner: Owner, h: History)
    requires Lawful(codec) && Consistent(codec, owner, h)
    requires h.chain == h.acked || (h.chain.Then? && h.chain.earlier == h.acked)
    ensures OpenBytes(codec, h.bytes, owner).Ok?
    ensures OpenBytes(codec, h.bytes, owner).value.entries in {Newest(h.acked), Newest(h.chain)}
  {
    OpenRecovers(codec, owner, h);
    var w := Whole(codec, owner, h.chain, |h.bytes|);
    if w != h.chain {
      StageImage(codec, owner, w, h.acked);
      if w != h.acked {
        StageImage(codec, owner, h.acked, w);
      }
    }
  }

  /**
   * A session that `persist` finds unchanged is acknowledged without another
   * synchronization. It survives every power loss exactly when the file was
   * fully synchronized before, which `open` does not ensure for a tail that it
   * keeps whole, nor for a journal whose creation was never synchronized.
   */
  lemma UnchangedPersistDurableIff(codec: Codec, owner: Owner, h: History)
    requires Lawful(codec) && Tracked(codec, owner, h) && h.live.Some?
    ensures Apply(codec, owner, h, Persist(h.live.value)) == Next(h)
    ensures (forall kept | h.synced <= kept <= |h.bytes| :: SurvivesLoss(codec, owner, h, kept))
       <==> h.synced == |h.bytes|
  {
    LinkedIsValid(h.chain);
    if h.synced == |h.bytes| {
      forall kept | h.synced <= kept <= |h.bytes|
        ensures SurvivesLoss(codec, owner, h, kept)
      {
        assert h.bytes[..kept] == h.bytes;
        ReadWholeImage(codec, owner, h.chain);
      }
    } else {
      LostWithoutSync(codec, owner, h);
      assert !SurvivesLoss(codec, owner, h, h.synced);
    }
  }

  lemma LostWithoutSync(codec: Codec, owner: Owner, h: History)
    requires Lawful(codec) && Tracked(codec, owner, h) && h.live.Some? && h.synced < |h.bytes|
    ensures !SurvivesLoss(codec, owner, h, h.synced)
  {
    if Consistent(codec, owner, h) {
      var safe := Image(codec, owner, h.safe);
      StageImage(codec, owner, h.safe, h.chain);
      assert h.bytes[..h.synced] == safe;
      ReadWholeImage(codec, owner, h.safe);
    } else {
      assert h.bytes[..0] == [] < HeaderLine(codec, owner);
      TornHeaderRejected(codec, owner, owner, []);
    }
  }

  predicate SurvivesLoss(codec: Codec, owner: Owner, h: History, kept: nat)
    requires kept <= |h.bytes| && h.live.Some?
  {
    var found := OpenBytes(codec, h.bytes[..kept], owner);
    found.Ok? && found.value.entries == h.live.value
  }

  /** Such a history exists: a whole write that was never synchronized, reopened and acknowledged again. */
  lemma UnchangedPersistCanBeLost(codec: Codec, owner: Owner, session: Log)
    requires Lawful(codec) && session != [] && ValidLog(session)
    ensures var written := |Transaction(codec, [], session)|;
            var run := Run(codec, owner, Created(codec, owner),
                           [PersistInterrupted(session, written), Reopen, Persist(session)]);
            && run.Next? && run.history.live == Some(session)
            && exists kept | run.history.synced <= kept <= |run.history.bytes| ::
                 !SurvivesLoss(codec, owner, run.history, kept)
  {
    var written := |Transaction(codec, [], session)|;
    var s1, s2, s3 := PersistInterrupted(session, written), Reopen, Persist(session);
    var h := WrittenNotSynced(codec, owner, session);
    RunSnoc(codec, owner, Created(codec, owner), [], s1);
    RunSnoc(codec, owner, Created(codec, owner), [s1], s2);
    RunSnoc(codec, owner, Created(codec, owner), [s1, s2], s3);
    assert [] + [s1] == [s1] && [s1] + [s2] == [s1, s2] && [s1, s2] + [s3] == [s1, s2, s3];
    UnchangedPersistDurableIff(codec, owner, h);
  }

  lemma RunSnoc(codec: Codec, owner: Owner, h: History, steps: seq<Step>, s: Step)
    requires Run(codec, owner, h, steps).Next?
    ensures Run(codec, owner, h, steps + [s]) == Apply(codec, owner, Run(codec, owner, h, steps).history, s)
  {
    assert (steps + [s])[..|steps|] == steps;
  }

  /** The file holds the whole transaction and only the header is synchronized, also once it is reopened. */
  lemma WrittenNotSynced(codec: Codec, owner: Owner, session: Log) returns (h: History)
    requires Lawful(codec) && session != [] && ValidLog(session)
    ensures var first := Apply(codec, owner, Created(codec, owner),
                               PersistInterrupted(session, |Transaction(codec, [], session)|));
            && first.Next? && Apply(codec, owner, first.history, Reopen) == Next(h)
    ensures Consistent(codec, owner, h) && h.live == Some(session) && h.synced < |h.bytes|
  {
    var all, chain := Transaction(codec, [], session), Then(Empty, session);
    var h0 := Created(codec, owner);
    assert Linked(chain) by {
      assert Newest(Empty) == [] && Newest(Empty) < session;
    }
    assert all[..|all|] == all;
    var h1 := Apply(codec, owner, h0, PersistInterrupted(session, |all|)).history;
    StepKeepsConsistent(codec, owner, h0, PersistInterrupted(session, |all|));
    assert h1.bytes == Image(codec, owner, chain);
    ReadWholeImage(codec, owner, chain);
    h := Apply(codec, owner, h1, Reopen).history;
    StepKeepsConsistent(codec, owner, h1, Reopen);
    StageImage(codec, owner, Empty, chain);
  }

  // ---- Journals whose creation was interrupted --------------------------

  /**
   * A journal whose creation was never acknowledged: not even its header is
   * known to be on the medium, and nothing in it was acknowledged.
   */
  ghost predicate Fledgling(codec: Codec, owner: Owner, h: History) {
    && Linked(h.chain) && h.acked == Empty && h.safe == Empty && h.synced == 0
    && h.bytes <= Image(codec, owner, h.chain)
    && (h.live.Some? ==> h.live.value == Newest(h.chain) && h.bytes == Image(codec, owner, h.chain))
  }

  ghost predicate Tracked(codec: Codec, owner: Owner, h: History) {
    Consistent(codec, owner, h) || Fledgling(codec, owner, h)
  }

  lemma TornHeaderRejected(codec: Codec, owner: Owner, other: Owner, bytes: Bytes)
    requires Lawful(codec) && bytes < HeaderLine(codec, owner)
    ensures DecodeFile(codec, bytes, other) == Err(InvalidHeader)
  {
    assert bytes[0..] == bytes;
    ReadTornLine(codec, bytes, 0, Header(CURRENT_SESSION_FORMAT_VERSION, owner.sessionId, owner.workingDirectory));
  }

  /** A fledgling opens exactly if its header is whole. */
  lemma FledglingOpens(codec: Codec, owner: Owner, h: History)
    requires Lawful(codec) && Fledgling(codec, owner, h)
    ensures |h.bytes| < |HeaderLine(codec, owner)| ==> OpenBytes(codec, h.bytes, owner) == Err(InvalidHeader)
    ensures |h.bytes| >= |HeaderLine(codec, owner)| ==>
              var w := Whole(codec, owner, h.chain, |h.bytes|);
              && OpenBytes(codec, h.bytes, owner) == Ok(Decoded(Newest(w), |Image(codec, owner, w)|))
              && Image(codec, owner, w) <= h.bytes && Image(codec, owner, w) <= Image(codec, owner, h.chain)
  {
    if |h.bytes| < |HeaderLine(codec, owner)| {
      EmptyIsStage(h.chain);
      StageImage(codec, owner, Empty, h.chain);
      assert h.bytes == Image(codec, owner, h.chain)[..|h.bytes|] == HeaderLine(codec, owner)[..|h.bytes|];
      TornHeaderRejected(codec, owner, owner, h.bytes);
    } else {
      var w := Whole(codec, owner, h.chain, |h.bytes|);
      ReadPrefix(codec, owner, h.chain, h.bytes);
      LinkedIsValid(w);
      StageImage(codec, owner, w, h.chain);
    }
  }

  lemma FledglingReopened(codec: Codec, owner: Owner, h: History)
    requires Lawful(codec) && Fledgling(codec, owner, h) && Apply(codec, owner, h, Reopen).Next?
    ensures Tracked(codec, owner, Apply(codec, owner, h, Reopen).history)
  {
    FledglingOpens(codec, owner, h);
    var w := Whole(codec, owner, h.chain, |h.bytes|);
    assert h.bytes[..|Image(codec, owner, w)|] == Image(codec, owner, w);
    EmptyIsStage(w);
  }

  lemma FledglingStep(codec: Codec, owner: Owner, h: History, step: Step)
    requires Lawful(codec) && Fledgling(codec, owner, h) && Apply(codec, owner, h, step).Next?
    ensures Tracked(codec, owner, Apply(codec, owner, h, step).history)
  {
    match step {
      case Persist(session) => FledglingPersisted(codec, owner, h, session);
      case PersistInterrupted(session, written) => FledglingInterrupted(codec, owner, h, session, written);
      case PowerLoss(kept) =>
      case ProcessExit =>
      case Reopen => FledglingReopened(codec, owner, h);
      case ReopenInterrupted(truncated) =>
        FledglingOpens(codec, owner, h);
        var w := Whole(codec, owner, h.chain, |h.bytes|);
        assert h.bytes[..|Image(codec, owner, w)|] == Image(codec, owner, w);
    }
  }

  lemma FledglingPersisted(codec: Codec, owner: Owner, h: History, session: Log)
    requires Fledgling(codec, owner, h) && Apply(codec, owner, h, Persist(session)).Next?
    ensures Tracked(codec, owner, Apply(codec, owner, h, Persist(session)).history)
  {
    var next := Apply(codec, owner, h, Persist(session)).history;
    if h.live.value != session {
      assert Linked(next.chain) && next.bytes == Image(codec, owner, next.chain);
      assert Consistent(codec, owner, next);
    }
  }

  lemma FledglingInterrupted(codec: Codec, owner: Owner, h: History, session: Log, written: nat)
    requires Fledgling(codec, owner, h) && Apply(codec, owner, h, PersistInterrupted(session, written)).Next?
    ensures Tracked(codec, owner, Apply(codec, owner, h, PersistInterrupted(session, written)).history)
  {
    var image, all := Image(codec, owner, h.chain), Transaction(codec, Newest(h.chain), session);
    assert image + all[..written] <= image + all;
  }

  /** Every step keeps track of what the file holds. */
  lemma StepKeepsTracked(codec: Codec, owner: Owner, h: History, step: Step)
    requires Lawful(codec) && Tracked(codec, owner, h) && Apply(codec, owner, h, step).Next?
    ensures Tracked(codec, owner, Apply(codec, owner, h, step).history)
  {
    if Consistent(codec, owner, h) {
      StepKeepsConsistent(codec, owner, h, step);
    } else {
      FledglingStep(codec, owner, h, step);
    }
  }

  /** Persisting keeps track without any look at the codec. */
  lemma PersistKeepsTracked(codec: Codec, owner: Owner, h: History, session: Log, written: nat)
    requires Tracked(codec, owner, h)
    ensures var all := Apply(codec, owner, h, Persist(session));
            all.Next? ==> Tracked(codec, owner, all.history)
    ensures var some := Apply(codec, owner, h, PersistInterrupted(session, written));
            some.Next? ==> Tracked(codec, owner, some.history)
  {
    if Consistent(codec, owner, h) {
      if Apply(codec, owner, h, PersistInterrupted(session, written)).Next? {
        InterruptionKeepsConsistent(codec, owner, h, session, written);
      }
    } else {
      if Apply(codec, owner, h, Persist(session)).Next? {
        FledglingPersisted(codec, owner, h, session);
      }
      if Apply(codec, owner, h, PersistInterrupted(session, written)).Next? {
        FledglingInterrupted(codec, owner, h, session, written);
      }
    }
  }

  /** What was acknowledged is never given up, and a reopened session extends it. */
  lemma AcknowledgedStays(codec: Codec, owner: Owner, h: History, step: Step)
    requires Lawful(codec) && Tracked(codec, owner, h) && Apply(codec, owner, h, step).Next?
    ensures var next := Apply(codec, owner, h, step).history;
            && Newest(h.acked) <= Newest(next.acked)
            && (step.Reopen? ==> next.live.Some? && Newest(h.acked) <= next.live.value && Stage(next.chain, h.chain))
  {
    var next := Apply(codec, owner, h, step).history;
    if Consistent(codec, owner, h) {
      StageTransitive(h.acked, h.safe, h.chain);
      StageImage(codec, owner, h.acked, h.chain);
      if step.Reopen? {
        OpenRecovers(codec, owner, h);
        StageImage(codec, owner, h.acked, Whole(codec, owner, h.chain, |h.bytes|));
      }
    } else if step.Reopen? {
      FledglingOpens(codec, owner, h);
    }
  }

  // ---- Recovery of arbitrary files --------------------------------------

  lemma LineEndInPrefix(bytes: Bytes, at: nat, n: nat)
    requires LineEnd(bytes, at).Some? && LineEnd(bytes, at).value <= n <= |bytes|
    ensures LineEnd(bytes[..n], at) == LineEnd(bytes, at)
  {
    var end := LineEnd(bytes, at).value;
    LineEndIff(bytes, at, end);
    LineEndIff(bytes[..n], at, end);
  }

  lemma {:induction false} RecordsStable(codec: Codec, bytes: Bytes, at: nat, entries: Log, pending: Log,
                                         complete: nat, d: Decoded)
    requires complete <= at <= |bytes|
    requires DecodeRecords(codec, bytes, at, entries, pending, complete) == Ok(d)
    ensures complete <= d.completeBytes <= |bytes|
    ensures d.completeBytes == complete ==> d.entries == entries
    ensures d.completeBytes > complete ==>
              && d.completeBytes > at
              && DecodeRecords(codec, bytes[..d.completeBytes], at, entries, pending, complete) == Ok(d)
    decreases |bytes| - at
  {
    var line := LineEnd(bytes, at);
    if line.Some? {
      var end := line.value;
      var record := codec.decode(bytes[at..end - 1]).value;
      if record.Entry? {
        RecordsStable(codec, bytes, end, entries, pending + [record.entry], complete, d);
      } else {
        RecordsStable(codec, bytes, end, entries + pending, [], end, d);
      }
      if d.completeBytes > complete {
        LineEndInPrefix(bytes, at, d.completeBytes);
        assert bytes[..d.completeBytes][at..end - 1] == bytes[at..end - 1];
      }
    }
  }

  /** Cutting any accepted file at its recovery boundary and decoding again changes nothing. */
  lemma RecoveryIsStable(codec: Codec, bytes: Bytes, owner: Owner)
    requires DecodeFile(codec, bytes, owner).Ok?
    ensures var d := DecodeFile(codec, bytes, owner).value;
            && d.completeBytes <= |bytes|
            && DecodeFile(codec, bytes[..d.completeBytes], owner) == Ok(d)
  {
    var d := DecodeFile(codec, bytes, owner).value;
    var end := LineEnd(bytes, 0).value;
    RecordsStable(codec, bytes, end, [], [], end, d);
    LineEndInPrefix(bytes, 0, d.completeBytes);
    assert bytes[..d.completeBytes][..end - 1] == bytes[..end - 1];
  }

  /** A journal of one session is never opened as that of another. */
  lemma ForeignOwnerRejected(codec: Codec, bytes: Bytes, owner: Owner, other: Owner)
    requires Lawful(codec) && HeaderLine(codec, owner) <= bytes && other != owner
    ensures DecodeFile(codec, bytes, other).Err?
    ensures DecodeFile(codec, bytes, other).error
         == if other.sessionId != owner.sessionId then SessionIdMismatch else WorkingDirectoryMismatch
  {
    var header := Header(CURRENT_SESSION_FORMAT_VERSION, owner.sessionId, owner.workingDirectory);
    assert Holds(bytes, 0, Line(codec, header));
    ReadLine(codec, bytes, 0, header);
    assert bytes[..|Line(codec, header)| - 1] == bytes[0..|Line(codec, header)| - 1];
  }

  // ---- Which files are accepted -----------------------------------------

  /** The lines from `at` on, without their newlines and without a last line that has none. */
  function RawLines(bytes: Bytes, at: nat): seq<Bytes>
    decreases |bytes| - at
  {
    match LineEnd(bytes, at)
    case None => []
    case Some(end) => [bytes[at..end - 1]] + RawLines(bytes, end)
  }

  /** Bytes that the lines take, newlines included. */
  function LinesLength(lines: seq<Bytes>): nat {
    if lines == [] then 0 else LinesLength(lines[..|lines| - 1]) + |lines[|lines| - 1]| + 1
  }

  /** The entries that the lines hold, in order. */
  function EntriesIn(codec: Codec, lines: seq<Bytes>): Log {
    if lines == [] then []
    else
      var last := codec.decode(lines[|lines| - 1]);
      EntriesIn(codec, lines[..|lines| - 1]) + if last.Some? && last.value.Entry? then [last.value.entry] else []
  }

  predicate IsEntry(codec: Codec, line: Bytes) {
    codec.decode(line).Some? && codec.decode(line).value.Entry?
  }

  predicate IsCommit(codec: Codec, line: Bytes) {
    codec.decode(line).Some? && codec.decode(line).value.Commit?
  }

  /** How many lines there are up to the last commit. */
  function Committed(codec: Codec, lines: seq<Bytes>): (n: nat)
    ensures n <= |lines|
  {
    if lines == [] then 0
    else if IsCommit(codec, lines[|lines| - 1]) then |lines|
    else Committed(codec, lines[..|lines| - 1])
  }

  /** The line is an entry, or commits at least one new entry and counts all of them. */
  predicate InPlace(codec: Codec, earlier: seq<Bytes>, line: Bytes) {
    || IsEntry(codec, line)
    || (IsCommit(codec, line) && earlier != [] && IsEntry(codec, earlier[|earlier| - 1])
        && codec.decode(line).value.entryCount == |EntriesIn(codec, earlier)|)
  }

  ghost predicate WellFormed(codec: Codec, lines: seq<Bytes>) {
    forall i | 0 <= i < |lines| :: InPlace(codec, lines[..i], lines[i])
  }

  /** Decoding has taken in these lines, from `base` on. */
  ghost predicate TakenIn(codec: Codec, base: nat, lines: seq<Bytes>, at: nat, entries: Log, pending: Log, complete: nat) {
    var n := Committed(codec, lines);
    && WellFormed(codec, lines) && at == base + LinesLength(lines)
    && entries == EntriesIn(codec, lines[..n]) && complete == base + LinesLength(lines[..n])
    && entries + pending == EntriesIn(codec, lines)
    && (pending == [] <==> lines == [] || !IsEntry(codec, lines[|lines| - 1]))
  }

  lemma LineAdds(codec: Codec, lines: seq<Bytes>, line: Bytes)
    ensures var more := lines + [line];
            && LinesLength(more) == LinesLength(lines) + |line| + 1
            && EntriesIn(codec, more)
               == EntriesIn(codec, lines) + (if IsEntry(codec, line) then [codec.decode(line).value.entry] else [])
            && Committed(codec, more) == (if IsCommit(codec, line) then |more| else Committed(codec, lines))
  {
    var more := lines + [line];
    assert more[..|more| - 1] == lines && more[|more| - 1] == line;
  }

  lemma LineStaysWellFormed(codec: Codec, lines: seq<Bytes>, line: Bytes)
    requires WellFormed(codec, lines) && InPlace(codec, lines, line)
    ensures WellFormed(codec, lines + [line])
  {
    var more := lines + [line];
    forall i | 0 <= i < |more|
      ensures InPlace(codec, more[..i], more[i])
    {
      if i < |lines| {
        assert more[..i] == lines[..i] && more[i] == lines[i];
        assert InPlace(codec, lines[..i], lines[i]);
      } else {
        assert more[..i] == lines && more[i] == line;
      }
    }
  }

  lemma TakeLine(codec: Codec, base: nat, lines: seq<Bytes>, at: nat, entries: Log, pending: Log, complete: nat, line: Bytes)
    requires TakenIn(codec, base, lines, at, entries, pending, complete) && InPlace(codec, lines, line)
    ensures IsEntry(codec, line) ==>
              TakenIn(codec, base, lines + [line], at + |line| + 1, entries, pending + [codec.decode(line).value.entry], complete)
    ensures IsCommit(codec, line) ==>
              TakenIn(codec, base, lines + [line], at + |line| + 1, entries + pending, [], at + |line| + 1)
  {
    var more := lines + [line];
    LineAdds(codec, lines, line);
    LineStaysWellFormed(codec, lines, line);
    assert more[..|more|] == more && entries + pending + [] == entries + pending;
    var n := Committed(codec, lines);
    assert more[..n] == lines[..n];
    if IsEntry(codec, line) {
      var e := codec.decode(line).value.entry;
      assert entries + (pending + [e]) == entries + pending + [e];
    }
  }

  /** The result says exactly whether the lines are well formed, and what they commit. */
  ghost predicate Judges(codec: Codec, r: Result<Decoded, StoreError>, base: nat, lines: seq<Bytes>) {
    && (r.Ok? <==> WellFormed(codec, lines))
    && (r.Ok? ==> var n := Committed(codec, lines);
                  r.value == Decoded(EntriesIn(codec, lines[..n]), base + LinesLength(lines[..n])))
  }

  lemma {:induction false} RecordsIff(codec: Codec, bytes: Bytes, base: nat, lines: seq<Bytes>, at: nat, entries: Log,
                                      pending: Log, complete: nat)
    requires TakenIn(codec, base, lines, at, entries, pending, complete) && at <= |bytes|
    ensures Judges(codec, DecodeRecords(codec, bytes, at, entries, pending, complete), base, lines + RawLines(bytes, at))
    decreases |bytes| - at
  {
    var all := lines + RawLines(bytes, at);
    match LineEnd(bytes, at) {
      case None =>
        assert all == lines;
        JudgedHere(codec, base, lines, at, entries, pending, complete);
      case Some(end) =>
        var line := bytes[at..end - 1];
        RawLinesStep(bytes, at, end, lines);
        StepOver(codec, bytes, at, end, entries, pending, complete);
        PlacedLine(codec, lines, line, entries, pending);
        if IsEntry(codec, line) {
          TakeLine(codec, base, lines, at, entries, pending, complete, line);
          RecordsIff(codec, bytes, base, lines + [line], end, entries, pending + [codec.decode(line).value.entry], complete);
        } else if InPlace(codec, lines, line) {
          TakeLine(codec, base, lines, at, entries, pending, complete, line);
          RecordsIff(codec, bytes, base, lines + [line], end, entries + pending, [], end);
        } else {
          SpoilsAll(codec, lines, line, RawLines(bytes, end));
          JudgedBad(codec, DecodeRecords(codec, bytes, at, entries, pending, complete), base, all);
        }
    }
  }

  lemma JudgedHere(codec: Codec, base: nat, lines: seq<Bytes>, at: nat, entries: Log, pending: Log, complete: nat)
    requires TakenIn(codec, base, lines, at, entries, pending, complete)
    ensures Judges(codec, Ok(Decoded(entries, complete)), base, lines)
  {
  }

  lemma JudgedBad(codec: Codec, r: Result<Decoded, StoreError>, base: nat, lines: seq<Bytes>)
    requires r.Err? && !WellFormed(codec, lines)
    ensures Judges(codec, r, base, lines)
  {
  }

  /** The decoding goes on past entries and matching commits, and fails at any other line. */
  lemma StepOver(codec: Codec, bytes: Bytes, at: nat, end: nat, entries: Log, pending: Log, complete: nat)
    requires LineEnd(bytes, at) == Some(end)
    ensures var line, r := bytes[at..end - 1], DecodeRecords(codec, bytes, at, entries, pending, complete);
            && (IsEntry(codec, line) ==>
                  r == DecodeRecords(codec, bytes, end, entries, pending + [codec.decode(line).value.entry], complete))
            && (IsCommit(codec, line) && pending != [] && codec.decode(line).value.entryCount == |entries| + |pending| ==>
                  r == DecodeRecords(codec, bytes, end, entries + pending, [], end))
            && (!IsEntry(codec, line)
                && !(IsCommit(codec, line) && pending != [] && codec.decode(line).value.entryCount == |entries| + |pending|)
                ==> r.Err?)
  {
  }

  lemma RawLinesStep(bytes: Bytes, at: nat, end: nat, lines: seq<Bytes>)
    requires LineEnd(bytes, at) == Some(end)
    ensures lines + RawLines(bytes, at) == lines + [bytes[at..end - 1]] + RawLines(bytes, end)
  {
  }

  /** A line is in place exactly if it is an entry, or a commit that counts the pending entries, of which there are some. */
  lemma PlacedLine(codec: Codec, lines: seq<Bytes>, line: Bytes, entries: Log, pending: Log)
    requires entries + pending == EntriesIn(codec, lines)
    requires pending == [] <==> lines == [] || !IsEntry(codec, lines[|lines| - 1])
    ensures InPlace(codec, lines, line) <==>
              || IsEntry(codec, line)
              || (IsCommit(codec, line) && pending != [] && codec.decode(line).value.entryCount == |entries| + |pending|)
  {
    assert |entries + pending| == |entries| + |pending|;
  }

  /** A line out of place spoils the file. */
  lemma SpoilsAll(codec: Codec, lines: seq<Bytes>, line: Bytes, rest: seq<Bytes>)
    requires !InPlace(codec, lines, line)
    ensures !WellFormed(codec, lines + [line] + rest)
  {
    var all := lines + [line] + rest;
    assert all[..|lines|] == lines && all[|lines|] == line;
  }

  /**
   * A file decodes if and only if its lines, a torn last one aside, are a
   * header of this version and owner, then entries and commits that each count
   * all entries so far, at least one of them new. Its session is the entries up
   * to the last commit, and what is kept of it ends there.
   */
  lemma DecodesIff(codec: Codec, bytes: Bytes, owner: Owner)
    ensures var r, lines := DecodeFile(codec, bytes, owner), RawLines(bytes, 0);
            && (r.Ok? <==> && lines != [] && WellFormed(codec, lines[1..])
                           && codec.decode(lines[0])
                              == Some(Header(CURRENT_SESSION_FORMAT_VERSION, owner.sessionId, owner.workingDirectory)))
            && (r.Ok? ==> var n := Committed(codec, lines[1..]);
                          r.value == Decoded(EntriesIn(codec, lines[1..][..n]),
                                             |lines[0]| + 1 + LinesLength(lines[1..][..n])))
  {
    match LineEnd(bytes, 0) {
      case None =>
      case Some(end) =>
        assert RawLines(bytes, 0)[1..] == RawLines(bytes, end);
        assert RawLines(bytes, 0)[0] == bytes[..end - 1];
        BodyIff(codec, bytes, end);
    }
  }

  /** The same of the lines after the header. */
  lemma BodyIff(codec: Codec, bytes: Bytes, start: nat)
    requires start <= |bytes|
    ensures Judges(codec, DecodeRecords(codec, bytes, start, [], [], start), start, RawLines(bytes, start))
  {
    assert TakenIn(codec, start, [], start, [], [], start);
    assert [] + RawLines(bytes, start) == RawLines(bytes, start);
    RecordsIff(codec, bytes, start, [], start, [], [], start);
  }

  /** The lines are those of the file: joined again they are its beginning, and no newline comes after. */
  lemma {:induction false} RawLinesAreLines(bytes: Bytes, at: nat)
    requires at <= |bytes|
    ensures forall line | line in RawLines(bytes, at) :: NEWLINE !in line
    ensures Rejoined(RawLines(bytes, at)) <= bytes[at..]
    ensures NoNewline(bytes, at + |Rejoined(RawLines(bytes, at))|, |bytes|)
    decreases |bytes| - at
  {
    match LineEnd(bytes, at) {
      case None =>
        LineEndIff(bytes, at, 0);
      case Some(end) =>
        LineEndIff(bytes, at, end);
        RawLinesAreLines(bytes, end);
        var line, rest := bytes[at..end - 1], RawLines(bytes, end);
        assert Rejoined([line] + rest) == line + [NEWLINE] + Rejoined(rest) by {
          assert ([line] + rest)[1..] == rest;
        }
        PrefixJoins(line + [NEWLINE], Rejoined(rest), bytes[end..]);
        assert bytes[at..] == line + [NEWLINE] + bytes[end..];
        assert NEWLINE !in line;
    }
  }

  lemma PrefixJoins(a: Bytes, b: Bytes, c: Bytes)
    requires b <= c
    ensures a + b <= a + c
  {
    assert (a + c)[..|a| + |b|] == a + c[..|b|];
  }

  function Rejoined(lines: seq<Bytes>): Bytes {
    if lines == [] then [] else lines[0] + [NEWLINE] + Rejoined(lines[1..])
  }

  // ---- The store --------------------------------------------------------

  /** What goes wrong while appending to the file. */
  datatype Fault = NoFault | WriteFault(written: nat) | SyncFault

  /**
   * What goes wrong while opening: the file cannot be read, or cannot be opened
   * for appending, or its tail cannot be cut off, or that cannot be synchronized.
   */
  datatype OpenFault = NoOpenFault | ReadFault | AppendFault | CutFault | CutSyncFault

  /** The fault strikes: some only matter if there is a tail to cut off. */
  predicate Strikes(fault: OpenFault, cut: bool) {
    fault.ReadFault? || fault.AppendFault? || (cut && !fault.NoOpenFault?)
  }

  class JournalFile {
    var present: bool
    var bytes: Bytes
    var synced: nat

    predicate Valid()
      reads this
    {
      synced <= |bytes| && (!present ==> bytes == [])
    }

    constructor ()
      ensures Valid() && !present
    {
      present, bytes, synced := false, [], 0;
    }

    /** `write_all` and `sync_data`. */
    method AppendAndSync(data: Bytes, fault: Fault) returns (ok: bool)
      requires present
      modifies this`bytes, this`synced
      ensures ok <==> fault.NoFault?
      ensures bytes == old(bytes) + if fault.WriteFault? then data[..Min(fault.written, |data|)] else data
      ensures synced == if ok then |bytes| else old(synced)
    {
      if fault.WriteFault? {
        bytes := bytes + data[..Min(fault.written, |data|)];
        return false;
      }
      bytes := bytes + data;
      if fault.SyncFault? {
        return false;
      }
      synced := |bytes|;
      return true;
    }
  }

  predicate AsciiAlphanumeric(c: char) {
    '0' <= c <= '9' || 'a' <= c <= 'z' || 'A' <= c <= 'Z'
  }

  predicate ValidSessionId(id: string) {
    && 0 < |id| <= MAX_SESSION_ID_BYTES
    && AsciiAlphanumeric(id[0]) && AsciiAlphanumeric(id[|id| - 1])
    && forall i | 0 <= i < |id| :: AsciiAlphanumeric(id[i]) || id[i] in "-_."
  }

  /** Looks at every character of an identifier, which becomes a file name. */
  method CheckSessionId(id: string) returns (ok: bool)
    ensures ok == ValidSessionId(id)
  {
    if id == "" || |id| > MAX_SESSION_ID_BYTES { return false; }
    var i := 0;
    while i < |id|
      invariant 0 <= i <= |id|
      invariant forall k | 0 <= k < i :: AsciiAlphanumeric(id[k]) || id[k] in "-_."
      invariant i > 0 ==> AsciiAlphanumeric(id[0])
      invariant i == |id| ==> AsciiAlphanumeric(id[|id| - 1])
    {
      var letter := '0' <= id[i] <= '9' || 'a' <= id[i] <= 'z' || 'A' <= id[i] <= 'Z';
      if !letter && (i == 0 || i == |id| - 1) { return false; }
      if !letter && id[i] != '-' && id[i] != '_' && id[i] != '.' { return false; }
      i := i + 1;
    }
    return true;
  }

  /** Reads a file record by record, keeping only committed transactions. */
  method DecodeSessionFile(codec: Codec, contents: Bytes, owner: Owner) returns (r: Result<Decoded, StoreError>)
    ensures r == DecodeFile(codec, contents, owner)
  {
    var completeInput := CompleteInput(contents);
    if completeInput == 0 {
      LineEndIff(contents, 0, 0);
      return Err(InvalidHeader);
    }
    var headerEnd := NextLine(contents, 0, completeInput);
    var checked := CheckHeader(codec.decode(contents[..headerEnd - 1]), owner);
    if checked.Err? {
      return Err(checked.error);
    }
    r := DecodeCommitted(codec, contents, headerEnd, completeInput);
  }

  /** Length of the file up to its last newline. */
  method CompleteInput(contents: Bytes) returns (end: nat)
    ensures end <= |contents| && (end > 0 ==> contents[end - 1] == NEWLINE)
    ensures NoNewline(contents, end, |contents|)
  {
    end := |contents|;
    while end > 0 && contents[end - 1] != NEWLINE
      invariant 0 <= end <= |contents|
      invariant NoNewline(contents, end, |contents|)
    {
      end := end - 1;
    }
  }

  method DecodeCommitted(codec: Codec, contents: Bytes, headerEnd: nat, completeInput: nat)
    returns (r: Result<Decoded, StoreError>)
    requires headerEnd <= completeInput <= |contents| && (completeInput > 0 ==> contents[completeInput - 1] == NEWLINE)
    requires NoNewline(contents, completeInput, |contents|)
    ensures r == DecodeRecords(codec, contents, headerEnd, [], [], headerEnd)
  {
    var entries, pending: Log, completeBytes, recordEnd := [], [], headerEnd, headerEnd;
    while recordEnd < completeInput
      invariant headerEnd <= recordEnd <= completeInput
      invariant DecodeRecords(codec, contents, headerEnd, [], [], headerEnd)
             == DecodeRecords(codec, contents, recordEnd, entries, pending, completeBytes)
    {
      var start := recordEnd;
      recordEnd := NextLine(contents, start, completeInput);
      var record := codec.decode(contents[start..recordEnd - 1]);
      match record {
        case None => return Err(InvalidJson);
        case Some(Entry(entry)) =>
          pending := pending + [entry];
        case Some(Commit(count)) =>
          if pending == [] || count != |entries| + |pending| {
            return Err(InvalidCommit);
          }
          entries, pending := entries + pending, [];
          completeBytes := recordEnd;
        case Some(Header(_, _, _)) => return Err(InvalidHeader);
      }
    }
    LineEndIff(contents, recordEnd, 0);
    return Ok(Decoded(entries, completeBytes));
  }

  /** The end of the record that starts at `start`. */
  method NextLine(contents: Bytes, start: nat, end: nat) returns (next: nat)
    requires start < end <= |contents| && contents[end - 1] == NEWLINE
    ensures start < next <= end && LineEnd(contents, start) == Some(next)
  {
    next := start;
    while contents[next] != NEWLINE
      invariant start <= next < end
      invariant NoNewline(contents, start, next)
      decreases end - next
    {
      next := next + 1;
    }
    next := next + 1;
    LineEndIff(contents, start, next);
  }

  /** The file is as the history says. */
  ghost predicate Matches(file: JournalFile, h: History)
    reads file
  {
    file.Valid() && file.present && file.bytes == h.bytes && file.synced == h.synced
  }

  /** The step of a history that a call of `persist` is. */
  function PersistStep(codec: Codec, before: Log, session: Log, fault: Fault): Step
    requires before <= session
  {
    var all := Transaction(codec, before, session);
    match fault
    case NoFault => Persist(session)
    case WriteFault(written) => PersistInterrupted(session, Min(written, |all|))
    case SyncFault => PersistInterrupted(session, |all|)
  }

  /** A journal whose creation failed with these bytes written. */
  function Unborn(bytes: Bytes): History {
    History(bytes, 0, None, Empty, Empty, Empty)
  }

  class AgentSessionStore {
    const codec: Codec
    const owner: Owner
    const file: JournalFile
    var persistedEntries: nat
    ghost var history: History

    /** The file is where its history leads, and holds exactly the session persisted last. */
    ghost predicate Valid()
      reads this, file
    {
      && Tracked(codec, owner, history) && Matches(file, history)
      && history.live == Some(Newest(history.chain))
      && persistedEntries == |Newest(history.chain)|
    }

    ghost function Persisted(): Log
      reads this
    {
      Newest(history.chain)
    }

    constructor (codec: Codec, owner: Owner, file: JournalFile, persistedEntries: nat, ghost history: History)
      ensures this.codec == codec && this.owner == owner && this.file == file
      ensures this.persistedEntries == persistedEntries && this.history == history
    {
      this.codec, this.owner, this.file := codec, owner, file;
      this.persistedEntries, this.history := persistedEntries, history;
    }

    /** Initializes a journal that did not exist. */
    static method Create(codec: Codec, owner: Owner, file: JournalFile, fault: Fault)
      returns (r: Result<AgentSessionStore, StoreError>)
      requires file.Valid()
      modifies file
      ensures file.Valid()
      ensures r.Ok? <==> ValidSessionId(owner.sessionId) && !old(file.present) && fault.NoFault?
      ensures old(file.present) ==> unchanged(file) && r.Err?
      ensures r.Ok? ==> fresh(r.value) && r.value.Valid() && r.value.history == Created(codec, owner)
      ensures r.Ok? ==> r.value.file == file && r.value.codec == codec && r.value.owner == owner
      ensures r.Err? && !old(file.present) && file.present ==>
                Matches(file, Unborn(file.bytes)) && Fledgling(codec, owner, Unborn(file.bytes))
    {
      var named := CheckSessionId(owner.sessionId);
      if !named {
        return Err(InvalidSessionId);
      }
      if file.present {
        return Err(AlreadyExists);
      }
      file.present := true;
      var ok := file.AppendAndSync(HeaderLine(codec, owner), fault);
      assert Image(codec, owner, Empty) == HeaderLine(codec, owner);
      if !ok {
        return Err(Io);
      }
      var store := new AgentSessionStore(codec, owner, file, 0, Created(codec, owner));
      return Ok(store);
    }

    /** Opens a journal, cutting off an interrupted transaction. Whatever comes of it, the next one finds the same. */
    static method Open(codec: Codec, owner: Owner, file: JournalFile, fault: OpenFault, ghost h: History)
      returns (r: Result<(AgentSessionStore, Log), StoreError>, ghost h': History)
      requires file.Valid()
      modifies file
      ensures file.Valid() && file.present == old(file.present)
      ensures ValidSessionId(owner.sessionId) && old(file.present) && !fault.ReadFault? ==>
                (match OpenBytes(codec, old(file.bytes), owner)
                 case Err(e) => r == Err(e)
                 case Ok(d) => && d.completeBytes <= |old(file.bytes)|
                               && (r.Err? <==> Strikes(fault, d.completeBytes != |old(file.bytes)|))
                               && (r.Err? ==> r.error == Io)
                               && (r.Ok? ==> r.value.1 == d.entries && file.bytes == old(file.bytes)[..d.completeBytes]))
      ensures r.Ok? ==> ValidSessionId(owner.sessionId) && old(file.present) && !fault.ReadFault?
      ensures OpenBytes(codec, file.bytes, owner) == OpenBytes(codec, old(file.bytes), owner)
      ensures r.Err? && !fault.CutSyncFault? ==> unchanged(file)
      ensures !old(file.present) || OpenBytes(codec, old(file.bytes), owner).Err? ==> unchanged(file)
      ensures r.Ok? ==> file.synced == if file.bytes == old(file.bytes) then old(file.synced) else |file.bytes|
      ensures r.Ok? ==> fresh(r.value.0) && r.value.0.file == file && r.value.0.codec == codec && r.value.0.owner == owner
      ensures r.Ok? ==> r.value.0.persistedEntries == |r.value.1| && ValidLog(r.value.1)
      ensures r.Ok? && Lawful(codec) && old(Matches(file, h)) && Tracked(codec, owner, h) ==>
                && r.value.0.Valid() && r.value.0.Persisted() == r.value.1 && h' == r.value.0.history
                && Apply(codec, owner, h, Reopen) == Next(h')
      ensures r.Err? && Lawful(codec) && old(Matches(file, h)) && Tracked(codec, owner, h) ==>
                && (if file.bytes == old(file.bytes) then h' == h
                    else Apply(codec, owner, h, ReopenInterrupted(true)) == Next(h'))
                && Matches(file, h') && Tracked(codec, owner, h')
    {
      h' := h;
      var named := CheckSessionId(owner.sessionId);
      if !named {
        return Err(InvalidSessionId), h;
      }
      if !file.present {
        return Err(NotFound), h;
      }
      if fault.ReadFault? {
        return Err(Io), h;
      }
      var contents := file.bytes;
      var decoded := DecodeSessionFile(codec, contents, owner);
      if decoded.Err? {
        return Err(decoded.error), h;
      }
      var checked := Validate(decoded.value.entries);
      if checked.Err? {
        return Err(InvalidStoredSession), h;
      }
      RecoveryIsStable(codec, contents, owner);
      if fault.AppendFault? {
        return Err(Io), h;
      }
      r, h' := Recover(codec, owner, file, fault, decoded.value, h);
    }

    /** Cuts off what was not committed, and takes the file in use. */
    static method Recover(codec: Codec, owner: Owner, file: JournalFile, fault: OpenFault, decoded: Decoded,
                          ghost h: History)
      returns (r: Result<(AgentSessionStore, Log), StoreError>, ghost h': History)
      requires file.Valid() && file.present && OpenBytes(codec, file.bytes, owner) == Ok(decoded)
      requires decoded.completeBytes <= |file.bytes|
      requires OpenBytes(codec, file.bytes[..decoded.completeBytes], owner) == Ok(decoded)
      requires !fault.ReadFault? && !fault.AppendFault?
      modifies file
      ensures file.Valid() && file.present
      ensures r.Err? <==> Strikes(fault, decoded.completeBytes != |old(file.bytes)|)
      ensures r.Err? ==> r.error == Io && (!fault.CutSyncFault? ==> unchanged(file))
      ensures r.Ok? || file.bytes != old(file.bytes) ==> file.bytes == old(file.bytes)[..decoded.completeBytes]
      ensures OpenBytes(codec, file.bytes, owner) == Ok(decoded)
      ensures r.Ok? ==> file.synced == if file.bytes == old(file.bytes) then old(file.synced) else |file.bytes|
      ensures r.Ok? ==> fresh(r.value.0) && r.value.0.file == file && r.value.0.codec == codec && r.value.0.owner == owner
      ensures r.Ok? ==> r.value.1 == decoded.entries && r.value.0.persistedEntries == |r.value.1|
      ensures r.Ok? && Lawful(codec) && old(Matches(file, h)) && Tracked(codec, owner, h) ==>
                && r.value.0.Valid() && r.value.0.Persisted() == r.value.1 && h' == r.value.0.history
                && Apply(codec, owner, h, Reopen) == Next(h')
      ensures r.Err? && Lawful(codec) && old(Matches(file, h)) && Tracked(codec, owner, h) ==>
                && (if file.bytes == old(file.bytes) then h' == h
                    else Apply(codec, owner, h, ReopenInterrupted(true)) == Next(h'))
                && Matches(file, h') && Tracked(codec, owner, h')
    {
      h' := h;
      ghost var known := Lawful(codec) && Matches(file, h) && Tracked(codec, owner, h);
      var length := |file.bytes|;
      assert file.bytes[..length] == file.bytes;
      if decoded.completeBytes != length {
        if fault.CutFault? {
          return Err(Io), h;
        }
        file.bytes := file.bytes[..decoded.completeBytes];
        if fault.CutSyncFault? {
          if known {
            CutIsInterruptedReopen(codec, owner, h);
            h' := Apply(codec, owner, h, ReopenInterrupted(true)).history;
          }
          file.synced := Min(file.synced, decoded.completeBytes);
          return Err(Io), h';
        }
        file.synced := decoded.completeBytes;
      }
      if known {
        ReopenedIsLive(codec, owner, h);
        h' := Apply(codec, owner, h, Reopen).history;
      }
      var store := new AgentSessionStore(codec, owner, file, |decoded.entries|, h');
      return Ok((store, decoded.entries)), h';
    }

    /** Appends and synchronizes the entries added since the last successful write. */
    method Persist(session: Log, fault: Fault) returns (r: Result<(), StoreError>)
      requires Valid()
      modifies this, file
      ensures file.Valid() && file.present
      ensures r == Err(Diverged) <==>
                || |session| < old(persistedEntries)
                || (old(persistedEntries) < |session| && session[old(persistedEntries)].id != old(persistedEntries))
      ensures r == Err(Diverged) || |session| == old(persistedEntries) ==> unchanged(this) && unchanged(file)
      ensures |session| == old(persistedEntries) ==> r.Ok?
      ensures r != Err(Diverged) && old(persistedEntries) < |session| ==>
                && (r.Ok? <==> fault.NoFault?)
                && (r.Ok? ==> file.synced == |file.bytes|)
                && (r.Err? ==> file.synced == old(file.synced))
      ensures old(Persisted()) < session && ValidLog(session) ==>
                && Apply(codec, owner, old(history), PersistStep(codec, old(Persisted()), session, fault)) == Next(history)
                && Tracked(codec, owner, history) && Matches(file, history)
                && (r.Ok? ==> Valid() && Persisted() == session)
    {
      ghost var before, valid := Newest(history.chain), Newest(history.chain) < session && ValidLog(session);
      if valid {
        assert ValidEntry(session, persistedEntries);
      }
      if |session| < persistedEntries
         || (persistedEntries < |session| && session[persistedEntries].id != persistedEntries) {
        return Err(Diverged);
      }
      var encoded := EncodeFrom(codec, session, persistedEntries);
      if encoded == [] {
        return Ok(());
      }
      encoded := encoded + Line(codec, Commit(|session|));
      if valid {
        TransactionSplits(codec, before, session);
        AppendedIsPersisted(codec, owner, history, session, fault);
        history := Apply(codec, owner, history, PersistStep(codec, before, session, fault)).history;
      }
      var ok := file.AppendAndSync(encoded, fault);
      if !ok {
        return Err(Io);
      }
      persistedEntries := |session|;
      return Ok(());
    }
  }

  /** What appending a transaction with a fault does to the file is what the step of the history does. */
  lemma AppendedIsPersisted(codec: Codec, owner: Owner, h: History, session: Log, fault: Fault)
    requires Tracked(codec, owner, h) && h.live == Some(Newest(h.chain)) && Newest(h.chain) < session && ValidLog(session)
    ensures var all := Transaction(codec, Newest(h.chain), session);
            var next := Apply(codec, owner, h, PersistStep(codec, Newest(h.chain), session, fault));
            && next.Next? && Tracked(codec, owner, next.history)
            && next.history.bytes == h.bytes + (if fault.WriteFault? then all[..Min(fault.written, |all|)] else all)
            && next.history.synced == (if fault.NoFault? then |next.history.bytes| else h.synced)
            && next.history.live == (if fault.NoFault? then Some(session) else None)
            && next.history.chain == Then(h.chain, session)
            && next.history.acked == (if fault.NoFault? then next.history.chain else h.acked)
  {
    var all := Transaction(codec, Newest(h.chain), session);
    var step := PersistStep(codec, Newest(h.chain), session, fault);
    assert all[..|all|] == all;
    PersistKeepsTracked(codec, owner, h, session, if step.PersistInterrupted? then step.written else 0);
  }

  lemma ReopenedIsLive(codec: Codec, owner: Owner, h: History)
    requires Lawful(codec) && Tracked(codec, owner, h) && OpenBytes(codec, h.bytes, owner).Ok?
    ensures var next := Apply(codec, owner, h, Reopen);
            && next.Next? && Tracked(codec, owner, next.history)
            && next.history.live == Some(Newest(next.history.chain))
    ensures var next, d := Apply(codec, owner, h, Reopen).history, OpenBytes(codec, h.bytes, owner).value;
            && d.completeBytes <= |h.bytes| && next.bytes == h.bytes[..d.completeBytes]
            && next.synced == (if d.completeBytes != |h.bytes| then d.completeBytes else h.synced)
            && Newest(next.chain) == d.entries && next.acked == h.acked
  {
    if Consistent(codec, owner, h) {
      ReopenKeepsConsistent(codec, owner, h);
      OpenRecovers(codec, owner, h);
    } else {
      FledglingOpens(codec, owner, h);
      assert Apply(codec, owner, h, Reopen).Next?;
      FledglingReopened(codec, owner, h);
    }
  }

  /** A cut that is not synchronized is an interrupted reopening. */
  lemma CutIsInterruptedReopen(codec: Codec, owner: Owner, h: History)
    requires Lawful(codec) && Tracked(codec, owner, h) && OpenBytes(codec, h.bytes, owner).Ok?
    ensures var next, d := Apply(codec, owner, h, ReopenInterrupted(true)), OpenBytes(codec, h.bytes, owner).value;
            && next.Next? && Tracked(codec, owner, next.history)
            && h.synced <= d.completeBytes <= |h.bytes|
            && next.history == h.(bytes := h.bytes[..d.completeBytes], live := None)
  {
    if Consistent(codec, owner, h) {
      OpenRecovers(codec, owner, h);
      StageImage(codec, owner, h.safe, Whole(codec, owner, h.chain, |h.bytes|));
    } else {
      FledglingOpens(codec, owner, h);
    }
    StepKeepsTracked(codec, owner, h, ReopenInterrupted(true));
  }

  // ---- Real stores take the steps of histories --------------------------

  /** What happens to a store and its file from outside. */
  datatype Happening =
    | CallPersist(session: Log, fault: Fault)
    | CallOpen(openFault: OpenFault)
    | LosePower(kept: nat)
    | Exit

  /** Takes any prefix that holds everything synchronized. */
  method Truncate(file: JournalFile, kept: nat)
    requires file.Valid() && file.synced <= kept <= |file.bytes|
    modifies file
    ensures file.Valid() && file.present == old(file.present)
    ensures file.bytes == old(file.bytes)[..kept] && file.synced == old(file.synced)
  {
    file.bytes := file.bytes[..kept];
  }

  /** A process's store and the session it persisted last, in step with a history. */
  ghost predicate InUse(codec: Codec, owner: Owner, file: JournalFile, store: AgentSessionStore?, live: Log, h: History)
    reads file, store, if store == null then {} else {store.file}
  {
    && Tracked(codec, owner, h) && Matches(file, h)
    && (store != null ==>
          && store.codec == codec && store.owner == owner && store.file == file
          && store.Valid() && store.history == h && store.Persisted() == live)
  }

  /** One happening is the step of a history, or cannot happen and is skipped. */
  method Happen(codec: Codec, owner: Owner, file: JournalFile, store: AgentSessionStore?, live: Log, what: Happening,
                ghost h: History)
    returns (store': AgentSessionStore?, live': Log, ghost step: Option<Step>, ghost h': History)
    requires Lawful(codec) && InUse(codec, owner, file, store, live, h)
    modifies file, if store == null then {} else {store}
    ensures InUse(codec, owner, file, store', live', h')
    ensures store' != null ==> store' == store || fresh(store')
    ensures if step.None? then h' == h else Apply(codec, owner, h, step.value) == Next(h')
  {
    store', live', step, h' := store, live, None, h;
    match what {
      case CallPersist(session, fault) =>
        if store == null || !(live < session && ValidLog(session)) { return; }
        var persisted := store.Persist(session, fault);
        step, h' := Some(PersistStep(codec, live, session, fault)), store.history;
        live' := session;
        if persisted.Err? { store' := null; }
      case CallOpen(fault) =>
        ghost var before := file.bytes;
        var found;
        found, h' := AgentSessionStore.Open(codec, owner, file, fault, h);
        if found.Ok? {
          store', live', step := found.value.0, found.value.1, Some(Reopen);
        } else {
          store' := null;
          step := if file.bytes == before then None else Some(ReopenInterrupted(true));
        }
      case LosePower(kept) =>
        if kept < file.synced || kept > |file.bytes| { return; }
        Truncate(file, kept);
        StepKeepsTracked(codec, owner, h, PowerLoss(kept));
        store', step, h' := null, Some(PowerLoss(kept)), Apply(codec, owner, h, PowerLoss(kept)).history;
      case Exit =>
        StepKeepsTracked(codec, owner, h, ProcessExit);
        store', step, h' := null, Some(ProcessExit), Apply(codec, owner, h, ProcessExit).history;
    }
  }

  /**
   * Stores on a real file, through whatever happens to them: the file is
   * always where a history of the model leads, so what holds of every history
   * holds of it.
   */
  method Operate(codec: Codec, owner: Owner, file: JournalFile, happenings: seq<Happening>)
    returns (created: bool, ghost steps: seq<Step>, ghost h: History)
    requires Lawful(codec) && file.Valid() && !file.present
    modifies file
    ensures created <==> ValidSessionId(owner.sessionId)
    ensures created ==> Run(codec, owner, Created(codec, owner), steps) == Next(h) && Matches(file, h)
    ensures created ==>
              && OpenBytes(codec, file.bytes, owner).Ok?
              && Newest(h.acked) <= OpenBytes(codec, file.bytes, owner).value.entries
  {
    steps, h := [], Created(codec, owner);
    var store := null;
    var live := [];
    var made := AgentSessionStore.Create(codec, owner, file, NoFault);
    created := made.Ok?;
    if !created { return; }
    store := made.value;
    for n := 0 to |happenings|
      invariant InUse(codec, owner, file, store, live, h) && (store != null ==> fresh(store))
      invariant Run(codec, owner, Created(codec, owner), steps) == Next(h)
    {
      ghost var step, next;
      store, live, step, next := Happen(codec, owner, file, store, live, happenings[n], h);
      if step.Some? {
        RunSnoc(codec, owner, Created(codec, owner), steps, step.value);
        steps := steps + [step.value];
      }
      h := next;
    }
    CrashAtomicity(codec, owner, steps);
    OpenRecovers(codec, owner, h);
    StageImage(codec, owner, h.acked, Whole(codec, owner, h.chain, |h.bytes|));
  }

  method EncodeFrom(codec: Codec, session: Log, from: nat) returns (encoded: Bytes)
    requires from <= |session|
    ensures encoded == Lines(codec, EntryRecords(session[from..]))
    ensures encoded == [] <==> from == |session|
  {
    encoded := [];
    assert session[from..from] == [];
    for i := from to |session|
      invariant encoded == Lines(codec, EntryRecords(session[from..i]))
      invariant encoded == [] <==> i == from
    {
      SnocLines(codec, session[from..i], session[i]);
      assert session[from..i + 1] == session[from..i] + [session[i]];
      encoded := encoded + Line(codec, Entry(session[i]));
    }
    assert session[from..|session|] == session[from..];
  }

  lemma SnocLines(codec: Codec, es: Log, e: SessionEntry)
    ensures Lines(codec, EntryRecords(es + [e])) == Lines(codec, EntryRecords(es)) + Line(codec, Entry(e))
  {
    assert EntryRecords(es + [e]) == EntryRecords(es) + [Entry(e)];
    LinesConcat(codec, EntryRecords(es), [Entry(e)]);
    assert [Entry(e)][1..] == [];
  }
}
