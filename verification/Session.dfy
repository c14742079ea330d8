/**
 * The append-only session log and the model context projected from it
 * (crates/libs/tascarrel-agent/src/session.rs).
 */
module Session {
  import opened Foundation
  import opened Model

  datatype CompactionRecord = CompactionRecord(
    summary: string,
    firstKept: nat,
    tokensBefore: U64,
    estimatedTokensAfter: U64,
    usage: ModelUsage,
    readFiles: set<string>,
    modifiedFiles: set<string>)

  datatype EntryValue = Message(message: ModelMessage) | Compaction(record: CompactionRecord)

  datatype SessionEntry = SessionEntry(id: nat, value: EntryValue)

  type Log = seq<SessionEntry>

  datatype SessionError =
    | MissingSystemMessage
    | UnexpectedSystemMessage
    | NonContiguousEntryId(expected: nat, actual: nat)
    | MissingCompactionBoundary(id: nat)
    | InvalidCompactionBoundary(id: nat)

  predicate IsSystem(e: SessionEntry) {
    e.value.Message? && e.value.message.System?
  }

  /** What the log promises about one entry, stated without any search. */
  predicate ValidEntry(log: Log, i: nat)
    requires i < |log|
  {
    && log[i].id == i
    && (IsSystem(log[i]) <==> i == 0)
    && (log[i].value.Compaction? ==>
          var boundary := log[i].value.record.firstKept;
          0 < boundary < i && log[boundary].value.Message?)
  }

  /** A checkpoint may keep the log from `boundary` on. */
  predicate BoundaryIn(log: Log, boundary: nat) {
    0 < boundary < |log| && log[boundary].value.Message?
  }

  predicate ValidLog(log: Log) {
    forall i | 0 <= i < |log| :: ValidEntry(log, i)
  }

  predicate Contiguous(log: Log) {
    forall i | 0 <= i < |log| :: log[i].id == i
  }

  /** Every original message, compaction records skipped. */
  function Messages(log: Log): seq<ModelMessage> {
    if log == [] then [] else MessageOf(log[0]) + Messages(log[1..])
  }

  /** The message of an entry, if it holds one. */
  function MessageOf(e: SessionEntry): seq<ModelMessage> {
    if e.value.Message? then [e.value.message] else []
  }

  function LatestCompaction(log: Log): (r: Option<nat>)
    ensures r.Some? ==> r.value < |log| && log[r.value].value.Compaction?
    ensures r.Some? ==> forall i | r.value < i < |log| :: log[i].value.Message?
    ensures r.None? ==> forall i | 0 <= i < |log| :: log[i].value.Message?
  {
    if log == [] then None
    else if log[|log| - 1].value.Compaction? then Some(|log| - 1)
    else LatestCompaction(log[..|log| - 1])
  }

  /** Index from which messages reach the model verbatim. */
  function SuffixStart(log: Log): (start: nat)
    requires ValidLog(log) && log != []
    ensures 1 <= start <= |log|
  {
    match LatestCompaction(log)
    case None => 1
    case Some(k) =>
      assert ValidEntry(log, k);
      log[k].value.record.firstKept
  }

  /** The newest checkpoint as the model sees it. */
  function Checkpoint(log: Log): seq<ModelMessage> {
    match LatestCompaction(log)
    case None => []
    case Some(k) => [ContextSummary(log[k].value.record.summary)]
  }

  /** System prompt, newest checkpoint and verbatim suffix. */
  function EffectiveMessages(log: Log): seq<ModelMessage>
    requires ValidLog(log)
  {
    if log == [] then []
    else
      [SystemPrompt(log)] + Checkpoint(log) + Messages(log[SuffixStart(log)..])
  }

  lemma {:induction false} MessagesConcat(a: Log, b: Log)
    ensures Messages(a + b) == Messages(a) + Messages(b)
  {
    if a == [] {
      assert a + b == b;
    } else {
      var ab := a + b;
      assert ab[1..] == a[1..] + b;
      calc {
        Messages(ab);
        MessageOf(a[0]) + Messages(a[1..] + b);
        { MessagesConcat(a[1..], b); }
        MessageOf(a[0]) + (Messages(a[1..]) + Messages(b));
        (MessageOf(a[0]) + Messages(a[1..])) + Messages(b);
        Messages(a) + Messages(b);
      }
    }
  }

  lemma MessagesSnoc(log: Log, e: SessionEntry)
    ensures Messages(log + [e]) == Messages(log) + MessageOf(e)
  {
    MessagesConcat(log, [e]);
    assert Messages([e]) == MessageOf(e) + Messages([]);
  }

  lemma MessagesSplit(log: Log, i: nat, j: nat)
    requires i <= j <= |log|
    ensures Messages(log[i..]) == Messages(log[i..j]) + Messages(log[j..])
  {
    MessagesConcat(log[i..j], log[j..]);
    assert log[i..] == log[i..j] + log[j..];
  }

  lemma ValidIsContiguous(log: Log)
    requires ValidLog(log)
    ensures Contiguous(log)
  {
    forall i | 0 <= i < |log|
      ensures log[i].id == i
    {
      assert ValidEntry(log, i);
    }
  }

  /** Truncating a valid log at any point leaves a valid log. */
  lemma PrefixIsValid(log: Log, n: nat)
    requires ValidLog(log) && n <= |log|
    ensures ValidLog(log[..n])
  {
    forall i | 0 <= i < n
      ensures ValidEntry(log[..n], i)
    {
      assert ValidEntry(log, i);
    }
  }

  /** Appending an entry that is valid at the end keeps the log valid. */
  lemma ExtendValid(log: Log, e: SessionEntry)
    requires ValidLog(log) && ValidEntry(log + [e], |log|)
    ensures ValidLog(log + [e])
  {
    forall i | 0 <= i < |log + [e]|
      ensures ValidEntry(log + [e], i)
    {
      if i < |log| {
        assert ValidEntry(log, i);
      }
    }
  }

  function MessageEntry(log: Log, message: ModelMessage): SessionEntry {
    SessionEntry(|log|, Message(message))
  }

  function CompactionEntry(log: Log, record: CompactionRecord): SessionEntry {
    SessionEntry(|log|, Compaction(record))
  }

  /** A new message extends the effective context by exactly that message. */
  lemma MessageExtendsContext(log: Log, message: ModelMessage)
    requires ValidLog(log) && (message.System? <==> log == [])
    ensures ValidLog(log + [MessageEntry(log, message)])
    ensures EffectiveMessages(log + [MessageEntry(log, message)]) == EffectiveMessages(log) + [message]
  {
    var e := MessageEntry(log, message);
    var log' := log + [e];
    ExtendValid(log, e);
    assert LatestCompaction(log') == LatestCompaction(log) && Checkpoint(log') == Checkpoint(log) by {
      assert log'[..|log|] == log;
    }
    if log == [] {
      assert log' == [e] && log'[1..] == [];
      assert EffectiveMessages(log') == [message];
    } else {
      var start := SuffixStart(log);
      var kept := log[start..];
      calc {
        EffectiveMessages(log');
        [SystemPrompt(log')] + Checkpoint(log) + Messages(log'[start..]);
        { assert log'[start..] == kept + [e]; MessagesSnoc(kept, e); }
        [SystemPrompt(log)] + Checkpoint(log) + (Messages(kept) + [message]);
        [SystemPrompt(log)] + Checkpoint(log) + Messages(kept) + [message];
        EffectiveMessages(log) + [message];
      }
    }
  }

  function SystemPrompt(log: Log): ModelMessage
    requires ValidLog(log) && log != []
  {
    assert ValidEntry(log, 0);
    log[0].value.message
  }

  /** A checkpoint replaces everything before its boundary and nothing after it. */
  lemma CheckpointReplacesContext(log: Log, record: CompactionRecord)
    requires ValidLog(log)
    requires BoundaryIn(log, record.firstKept)
    ensures ValidLog(log + [CompactionEntry(log, record)])
    ensures EffectiveMessages(log + [CompactionEntry(log, record)])
         == [SystemPrompt(log), ContextSummary(record.summary)] + Messages(log[record.firstKept..])
    ensures Messages(log + [CompactionEntry(log, record)]) == Messages(log)
  {
    var e := CompactionEntry(log, record);
    var log' := log + [e];
    ExtendValid(log, e);
    CheckpointIsNotAMessage(log, e);
    CheckpointIsNotAMessage(log[record.firstKept..], e);
    assert log'[record.firstKept..] == log[record.firstKept..] + [e];
    NewestIsLast(log, record);
  }

  lemma NewestIsLast(log: Log, record: CompactionRecord)
    requires ValidLog(log) && log != [] && ValidLog(log + [CompactionEntry(log, record)]) && record.firstKept <= |log|
    ensures var log' := log + [CompactionEntry(log, record)];
            EffectiveMessages(log')
            == [SystemPrompt(log), ContextSummary(record.summary)] + Messages(log'[record.firstKept..])
  {
    var log' := log + [CompactionEntry(log, record)];
    assert LatestCompaction(log') == Some(|log|);
    assert [SystemPrompt(log)] + [ContextSummary(record.summary)]
        == [SystemPrompt(log), ContextSummary(record.summary)];
  }

  lemma CheckpointIsNotAMessage(log: Log, e: SessionEntry)
    requires e.value.Compaction?
    ensures Messages(log + [e]) == Messages(log)
  {
    MessagesSnoc(log, e);
    assert Messages(log) + [] == Messages(log);
  }

  // ---- Operations -------------------------------------------------------

  predicate Ascending(log: Log) {
    forall i, j | 0 <= i < j < |log| :: log[i].id <= log[j].id
  }

  predicate Occurs(log: Log, id: nat) {
    exists i | 0 <= i < |log| :: log[i].id == id
  }

  /** The binary search of the standard library, run on logs whose order is not yet known. */
  method EntryIndex(log: Log, id: nat) returns (r: Option<nat>)
    ensures r.Some? ==> r.value < |log| && log[r.value].id == id
    ensures Ascending(log) ==> (r.Some? <==> Occurs(log, id))
    ensures Contiguous(log) ==> r == if id < |log| then Some(id) else None
  {
    if log == [] {
      return None;
    }
    var base, size := 0, |log|;
    while size > 1
      invariant 1 <= size && 0 <= base && base + size <= |log|
      invariant Contiguous(log) && id < |log| ==> base <= id < base + size
      invariant Ascending(log) ==> (base == 0 || log[base].id <= id) && forall k | base + size <= k < |log| :: log[k].id > id
    {
      var half := size / 2;
      var mid := base + half;
      if log[mid].id <= id {
        base := mid;
      }
      size := size - half;
    }
    return if log[base].id == id then Some(base) else None;
  }

  /** The error a rejected log is reported with names an entry that really breaks a rule. */
  predicate Explains(log: Log, error: SessionError) {
    match error
    case MissingSystemMessage => log != [] && !IsSystem(log[0])
    case UnexpectedSystemMessage => exists i | 0 < i < |log| :: IsSystem(log[i])
    case NonContiguousEntryId(expected, actual) =>
      && expected < |log| && log[expected].id == actual && actual != expected
      && forall i | 0 <= i < expected :: log[i].id == i
    case MissingCompactionBoundary(id) =>
      // The search is only sure to find an identifier in ascending logs.
      (exists i | 0 <= i < |log| :: KeepsFrom(log, i, id)) && (Ascending(log) ==> !Occurs(log, id))
    case InvalidCompactionBoundary(id) =>
      exists i | 0 <= i < |log| :: KeepsFrom(log, i, id) && exists b | 0 <= b < |log| :: BadBoundary(log, i, id, b)
  }

  predicate KeepsFrom(log: Log, i: nat, id: nat)
    requires i < |log|
  {
    log[i].value.Compaction? && log[i].value.record.firstKept == id
  }

  /** Entry `b` has the identifier, but checkpoint `i` may not keep from there. */
  predicate BadBoundary(log: Log, i: nat, id: nat, b: nat)
    requires i < |log| && b < |log|
  {
    log[b].id == id && !(0 < b < i && log[b].value.Message?)
  }

  /** A valid log has none of the errors. */
  lemma ExplainedIsInvalid(log: Log, error: SessionError)
    ensures ValidLog(log) ==> !Explains(log, error)
  {
    if ValidLog(log) {
      ValidIsContiguous(log);
      assert log != [] ==> IsSystem(log[0]) by {
        assert log != [] ==> ValidEntry(log, 0);
      }
      forall i | 0 <= i < |log|
        ensures i > 0 ==> !IsSystem(log[i])
        ensures log[i].value.Compaction? ==>
                  var id := log[i].value.record.firstKept; 0 < id < i && log[id].value.Message? && Occurs(log, id)
      {
        assert ValidEntry(log, i);
        if log[i].value.Compaction? {
          assert log[log[i].value.record.firstKept].id == log[i].value.record.firstKept;
        }
      }
    }
  }

  /**
   * Checks entries in order, searching for boundaries before later identifiers
   * have been checked, and still accepts exactly the valid logs.
   */
  method Validate(log: Log) returns (r: Result<(), SessionError>)
    ensures r.Ok? <==> ValidLog(log)
    ensures r.Err? ==> Explains(log, r.error)
  {
    if log == [] {
      return Ok(());
    }
    if !IsSystem(log[0]) {
      ExplainedIsInvalid(log, MissingSystemMessage);
      return Err(MissingSystemMessage);
    }
    var index := 0;
    // The boundaries found while some identifiers were still unchecked.
    ghost var found: seq<nat> := [];
    while index < |log|
      invariant 0 <= index <= |log| && |found| == index
      invariant forall i | 0 <= i < index :: log[i].id == i && (IsSystem(log[i]) <==> i == 0)
      invariant forall i | 0 <= i < index && log[i].value.Compaction? ::
                  0 < found[i] < i && log[found[i]].id == log[i].value.record.firstKept
                  && log[found[i]].value.Message?
    {
      var entry := log[index];
      if entry.id != index {
        ExplainedIsInvalid(log, NonContiguousEntryId(index, entry.id));
        return Err(NonContiguousEntryId(index, entry.id));
      }
      if index > 0 && IsSystem(entry) {
        ExplainedIsInvalid(log, UnexpectedSystemMessage);
        return Err(UnexpectedSystemMessage);
      }
      var boundary := Some(0);
      if entry.value.Compaction? {
        var id := entry.value.record.firstKept;
        boundary := EntryIndex(log, id);
        if boundary.None? || boundary.value == 0 || boundary.value >= index || !log[boundary.value].value.Message? {
          var error := if boundary.None? then MissingCompactionBoundary(id) else InvalidCompactionBoundary(id);
          assert KeepsFrom(log, index, id);
          assert boundary.Some? ==> BadBoundary(log, index, id, boundary.value);
          ExplainedIsInvalid(log, error);
          return Err(error);
        }
      }
      found := found + [boundary.value];
      index := index + 1;
    }
    return Ok(());
  }

  /** Leaving out `skipped` and system messages loses nothing from `start` on. */
  predicate Collectable(log: Log, start: nat, skipped: nat) {
    ValidLog(log) && 0 < start && (skipped < |log| ==> log[skipped].value.Compaction?)
  }

  /** Filters a stretch of the log down to its conversation messages. */
  method CollectMessages(log: Log, start: nat, end: nat, skipped: nat) returns (messages: seq<ModelMessage>)
    requires start <= end <= |log|
    ensures Collectable(log, start, skipped) ==> messages == Messages(log[start..end])
  {
    messages := [];
    var i := start;
    assert log[start..start] == [];
    while i < end
      invariant start <= i <= end
      invariant Collectable(log, start, skipped) ==> messages == Messages(log[start..i])
    {
      MessagesSnoc(log[start..i], log[i]);
      assert log[start..i + 1] == log[start..i] + [log[i]];
      assert ValidLog(log) ==> ValidEntry(log, i);
      if i != skipped && log[i].value.Message? && !log[i].value.message.System? {
        messages := messages + [log[i].value.message];
      }
      i := i + 1;
    }
  }

  class AgentSession {
    var entries: Log

    constructor (initial: Log)
      ensures entries == initial
    {
      entries := initial;
    }

    /** Walks the log backwards to the newest compaction record. */
    method NewestCompaction() returns (r: Option<nat>)
      ensures r == LatestCompaction(entries)
    {
      var n := |entries|;
      while n > 0
        invariant 0 <= n <= |entries|
        invariant LatestCompaction(entries) == LatestCompaction(entries[..n])
      {
        n := n - 1;
        assert entries[..n + 1][..n] == entries[..n];
        if entries[n].value.Compaction? {
          return Some(n);
        }
      }
      assert entries[..0] == [];
      return None;
    }

    /** Rebuilds the context of the next model request, or rejects the log. */
    method EffectiveContext() returns (r: Result<seq<ModelMessage>, SessionError>)
      ensures r.Ok? <==> ValidLog(entries)
      ensures r.Ok? ==> r.value == EffectiveMessages(entries)
      ensures r.Err? ==> Explains(entries, r.error)
    {
      var checked := Validate(entries);
      if checked.Err? {
        return Err(checked.error);
      }
      if entries == [] {
        return Ok([]);
      }
      assert ValidEntry(entries, 0);
      var messages := [entries[0].value.message];
      var newest := NewestCompaction();
      var start := 1;
      var skipped := |entries|;
      if newest.Some? {
        assert ValidEntry(entries, newest.value);
        skipped := newest.value;
        messages := messages + [ContextSummary(entries[skipped].value.record.summary)];
        ValidIsContiguous(entries);
        var keep := entries[skipped].value.record.firstKept;
        var found := EntryIndex(entries, keep);
        if found.None? {
          return Err(MissingCompactionBoundary(keep));
        }
        start := found.value;
      }
      assert start == SuffixStart(entries);
      var suffix := CollectMessages(entries, start, |entries|, skipped);
      assert entries[start..|entries|] == entries[start..];
      messages := messages + suffix;
      return Ok(messages);
    }

    method AppendMessage(message: ModelMessage) returns (r: Result<nat, SessionError>)
      modifies this
      ensures r.Ok? <==> (message.System? <==> old(entries) == [])
      ensures r.Err? ==> entries == old(entries)
      ensures r.Err? ==> r.error == if message.System? then UnexpectedSystemMessage else MissingSystemMessage
      ensures r.Ok? ==> entries == old(entries) + [SessionEntry(r.value, Message(message))]
      ensures r.Ok? && Contiguous(old(entries)) ==> r.value == |old(entries)|
    {
      if entries == [] {
        if !message.System? {
          return Err(MissingSystemMessage);
        }
      } else if message.System? {
        return Err(UnexpectedSystemMessage);
      }
      var id := Append(Message(message));
      return Ok(id);
    }

    method AppendCompaction(record: CompactionRecord) returns (r: Result<nat, SessionError>)
      modifies this
      ensures r.Err? ==> entries == old(entries)
      ensures r.Ok? ==> entries == old(entries) + [SessionEntry(r.value, Compaction(record))]
      ensures Contiguous(old(entries)) ==>
                && (r.Ok? <==> BoundaryIn(old(entries), record.firstKept))
                && (r.Ok? ==> r.value == |old(entries)|)
                && (r.Err? ==> r.error == if record.firstKept < |old(entries)|
                                          then InvalidCompactionBoundary(record.firstKept)
                                          else MissingCompactionBoundary(record.firstKept))
    {
      var boundary := EntryIndex(entries, record.firstKept);
      if boundary.None? {
        return Err(MissingCompactionBoundary(record.firstKept));
      }
      if boundary.value == 0 || !entries[boundary.value].value.Message? {
        return Err(InvalidCompactionBoundary(record.firstKept));
      }
      var id := Append(Compaction(record));
      return Ok(id);
    }

    method Append(value: EntryValue) returns (id: nat)
      modifies this
      ensures id == if old(entries) == [] then 0 else old(entries)[|old(entries)| - 1].id + 1
      ensures entries == old(entries) + [SessionEntry(id, value)]
    {
      id := if entries == [] then 0 else entries[|entries| - 1].id + 1;
      entries := entries + [SessionEntry(id, value)];
    }
  }

  /** Any interleaving of the two append operations, whichever of them are rejected. */
  method BuildByAppends(values: seq<EntryValue>) returns (session: AgentSession)
    ensures fresh(session) && ValidLog(session.entries)
  {
    session := new AgentSession([]);
    var i := 0;
    while i < |values|
      invariant 0 <= i <= |values|
      invariant fresh(session) && ValidLog(session.entries)
    {
      ghost var log := session.entries;
      ValidIsContiguous(log);
      match values[i] {
        case Message(message) =>
          var r := session.AppendMessage(message);
          if r.Ok? {
            MessageExtendsContext(log, message);
          }
        case Compaction(record) =>
          var r := session.AppendCompaction(record);
          if r.Ok? {
            CheckpointReplacesContext(log, record);
          }
      }
      i := i + 1;
    }
  }
}
