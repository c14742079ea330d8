/**
 * Reassembly of a chat snapshot that arrives as interleaved ranges
 * (crates/apps/tascarrel-podctl/src/main.rs, `project_chat_bootstrap`).
 */
module ChatBootstrap {
  import opened Foundation

  datatype Turn = Turn(turn: string)
  datatype TimelineEntry = TimelineEntry(entry: string)
  datatype Attachment = Attachment(attachment: string)
  datatype QueuedPrompt = QueuedPrompt(prompt: string)

  datatype Chat = Chat(
    summary: string,
    turns: seq<Turn>,
    timeline: seq<TimelineEntry>,
    attachments: seq<Attachment>,
    queuedPrompts: seq<QueuedPrompt>)

  datatype Change =
    | Started(stamp: string, summary: string, turnCount: nat, timelineCount: nat, attachmentCount: nat, promptCount: nat)
    | Turns(stamp: string, offset: nat, turns: seq<Turn>)
    | Timeline(stamp: string, offset: nat, entries: seq<TimelineEntry>)
    | Attachments(stamp: string, offset: nat, attachments: seq<Attachment>)
    | PromptQueue(stamp: string, offset: nat, prompts: seq<QueuedPrompt>)
    | Completed(stamp: string)
    | Mutation

  datatype BootstrapError =
    | StartedTwice
    | NotStarted
    | StampChanged
    | NotContiguous
    | TooMany
    | Incomplete
    | EarlyMutation

  /** What has arrived so far, and what was announced. */
  datatype Bootstrap = Bootstrap(announced: Change, chat: Chat)

  predicate Announces(c: Change, chat: Chat) {
    c.Started? && chat.summary == c.summary && HasCounts(c, chat)
  }

  /** All announced values have arrived. */
  predicate HasCounts(c: Change, chat: Chat)
    requires c.Started?
  {
    && |chat.turns| == c.turnCount && |chat.timeline| == c.timelineCount
    && |chat.attachments| == c.attachmentCount && |chat.queuedPrompts| == c.promptCount
  }

  // ---- The projection ---------------------------------------------------

  function AppendRange<T>(target: seq<T>, offset: nat, values: seq<T>, expected: nat): Result<seq<T>, BootstrapError> {
    if offset != |target| then Err(NotContiguous)
    else if |target| + |values| > expected then Err(TooMany)
    else Ok(target + values)
  }

  /** One range of any collection. */
  function AppendAny(b: Bootstrap, c: Change): Result<Bootstrap, BootstrapError>
    requires b.announced.Started? && IsRange(c)
  {
    if c.stamp != b.announced.stamp then Err(StampChanged)
    else
      match c
      case Turns(_, offset, turns) =>
        (match AppendRange(b.chat.turns, offset, turns, b.announced.turnCount)
         case Err(e) => Err(e)
         case Ok(all) => Ok(b.(chat := b.chat.(turns := all))))
      case Timeline(_, offset, entries) =>
        (match AppendRange(b.chat.timeline, offset, entries, b.announced.timelineCount)
         case Err(e) => Err(e)
         case Ok(all) => Ok(b.(chat := b.chat.(timeline := all))))
      case Attachments(_, offset, attachments) =>
        (match AppendRange(b.chat.attachments, offset, attachments, b.announced.attachmentCount)
         case Err(e) => Err(e)
         case Ok(all) => Ok(b.(chat := b.chat.(attachments := all))))
      case PromptQueue(_, offset, prompts) =>
        (match AppendRange(b.chat.queuedPrompts, offset, prompts, b.announced.promptCount)
         case Err(e) => Err(e)
         case Ok(all) => Ok(b.(chat := b.chat.(queuedPrompts := all))))
  }

  predicate IsRange(c: Change) {
    c.Turns? || c.Timeline? || c.Attachments? || c.PromptQueue?
  }

  datatype Progress = Idle | Collecting(bootstrap: Bootstrap) | Done(chat: Chat)

  function Advance(p: Progress, c: Change): Result<Progress, BootstrapError>
    requires p.Collecting? ==> p.bootstrap.announced.Started?
    requires !p.Done?
  {
    match c
    case Started(_, summary, _, _, _, _) =>
      if p.Collecting? then Err(StartedTwice)
      else Ok(Collecting(Bootstrap(c, Chat(summary, [], [], [], []))))
    case Completed(stamp) =>
      if p.Idle? then Err(NotStarted)
      else if stamp != p.bootstrap.announced.stamp then Err(StampChanged)
      else if !HasCounts(p.bootstrap.announced, p.bootstrap.chat) then Err(Incomplete)
      else Ok(Done(p.bootstrap.chat))
    case Mutation => Err(EarlyMutation)
    case _ =>
      if p.Idle? then Err(NotStarted)
      else
        (match AppendAny(p.bootstrap, c)
         case Err(e) => Err(e)
         case Ok(b) => Ok(Collecting(b)))
  }

  /** The wire events in order, up to and including the one that completes the snapshot. */
  function Project(changes: seq<Change>): (r: Result<Progress, BootstrapError>)
    ensures r.Ok? && r.value.Collecting? ==> r.value.bootstrap.announced.Started?
    ensures r.Ok? && r.value.Collecting? ==> r.value.bootstrap.chat.summary == r.value.bootstrap.announced.summary
  {
    if changes == [] then Ok(Idle)
    else
      match Project(changes[..|changes| - 1])
      case Err(e) => Err(e)
      case Ok(p) => if p.Done? then Err(EarlyMutation) else Advance(p, changes[|changes| - 1])
  }

  // ---- Interleavings of in-order ranges ---------------------------------

  function TurnsOf(c: Change): seq<Turn> { if c.Turns? then c.turns else [] }
  function TimelineOf(c: Change): seq<TimelineEntry> { if c.Timeline? then c.entries else [] }
  function AttachmentsOf(c: Change): seq<Attachment> { if c.Attachments? then c.attachments else [] }
  function PromptsOf(c: Change): seq<QueuedPrompt> { if c.PromptQueue? then c.prompts else [] }

  /** The four collections, each put together from its own ranges in order. */
  function Gathered(summary: string, ranges: seq<Change>): Chat {
    if ranges == [] then Chat(summary, [], [], [], [])
    else
      var chat, last := Gathered(summary, ranges[..|ranges| - 1]), ranges[|ranges| - 1];
      Chat(summary, chat.turns + TurnsOf(last), chat.timeline + TimelineOf(last),
           chat.attachments + AttachmentsOf(last), chat.queuedPrompts + PromptsOf(last))
  }

  /** The range starts where the earlier ranges of its collection ended. */
  predicate InOrder(c: Change, before: Chat) {
    match c
    case Turns(_, offset, _) => offset == |before.turns|
    case Timeline(_, offset, _) => offset == |before.timeline|
    case Attachments(_, offset, _) => offset == |before.attachments|
    case PromptQueue(_, offset, _) => offset == |before.queuedPrompts|
    case _ => false
  }

  predicate InOrderRanges(stamp: string, ranges: seq<Change>) {
    forall j | 0 <= j < |ranges| :: InOrderAt(stamp, ranges, j)
  }

  predicate InOrderAt(stamp: string, ranges: seq<Change>, j: nat)
    requires j < |ranges|
  {
    IsRange(ranges[j]) && ranges[j].stamp == stamp && InOrder(ranges[j], Gathered("", ranges[..j]))
  }

  /** A snapshot of `chat`: announced, split into in-order ranges, interleaved in any way, completed. */
  predicate SnapshotOf(changes: seq<Change>, chat: Chat) {
    && |changes| >= 2
    && Announces(changes[0], chat)
    && changes[|changes| - 1] == Completed(changes[0].stamp)
    && var ranges := changes[1..|changes| - 1];
       InOrderRanges(changes[0].stamp, ranges) && Gathered(chat.summary, ranges) == chat
  }

  /** Nothing gathered so far exceeds what was announced. */
  predicate Fits(c: Change, chat: Chat)
    requires c.Started?
  {
    && |chat.turns| <= c.turnCount && |chat.timeline| <= c.timelineCount
    && |chat.attachments| <= c.attachmentCount && |chat.queuedPrompts| <= c.promptCount
  }

  lemma {:induction false} GatheredSummary(s: string, t: string, ranges: seq<Change>)
    ensures Gathered(s, ranges) == Gathered(t, ranges).(summary := s)
  {
    if ranges != [] {
      GatheredSummary(s, t, ranges[..|ranges| - 1]);
    }
  }

  lemma InOrderSnoc(stamp: string, ranges: seq<Change>)
    requires ranges != []
    ensures var init, last := ranges[..|ranges| - 1], ranges[|ranges| - 1];
            InOrderRanges(stamp, ranges) <==>
              InOrderRanges(stamp, init) && IsRange(last) && last.stamp == stamp && InOrder(last, Gathered("", init))
  {
    var n := |ranges| - 1;
    forall j | 0 <= j < n
      ensures InOrderAt(stamp, ranges[..n], j) <==> InOrderAt(stamp, ranges, j)
    {
      InOrderInPrefix(stamp, ranges, n, j);
    }
    assert InOrderRanges(stamp, ranges) <==>
             (forall j | 0 <= j < n :: InOrderAt(stamp, ranges, j)) && InOrderAt(stamp, ranges, n);
  }

  lemma InOrderInPrefix(stamp: string, ranges: seq<Change>, n: nat, j: nat)
    requires j < n <= |ranges|
    ensures InOrderAt(stamp, ranges[..n], j) <==> InOrderAt(stamp, ranges, j)
  {
    assert ranges[..n][..j] == ranges[..j];
  }

  /** Exactly the in-order ranges that fit are collected, as what they gather to. */
  lemma {:induction false} CollectingIff(changes: seq<Change>)
    requires changes != []
    ensures var p := Project(changes);
            var ranges := changes[1..];
            p.Ok? && p.value.Collecting? <==>
              && changes[0].Started? && InOrderRanges(changes[0].stamp, ranges)
              && Fits(changes[0], Gathered(changes[0].summary, ranges))
    ensures var p := Project(changes);
            p.Ok? && p.value.Collecting? ==>
              p.value.bootstrap == Bootstrap(changes[0], Gathered(changes[0].summary, changes[1..]))
    decreases |changes|
  {
    if |changes| == 1 {
      assert changes[..0] == [] && changes[1..] == [];
      FirstChange(changes[0]);
    } else {
      var init, last := changes[..|changes| - 1], changes[|changes| - 1];
      CollectingIff(init);
      var ranges := changes[1..];
      assert ranges[..|ranges| - 1] == init[1..] && ranges[|ranges| - 1] == last;
      IdleOnlyAtStart(init);
      if changes[0].Started? {
        InOrderSnoc(changes[0].stamp, ranges);
        GatheredSummary(changes[0].summary, "", init[1..]);
        var p := Project(init);
        if p.Ok? && p.value.Collecting? && IsRange(last) {
          RangeStep(p.value.bootstrap, last, init[1..]);
        }
      }
    }
  }

  lemma FirstChange(c: Change)
    ensures var p := Project([c]);
            && (p.Ok? <==> c.Started?)
            && (p.Ok? ==> p.value == Collecting(Bootstrap(c, Chat(c.summary, [], [], [], []))))
  {
    assert [c][..0] == [];
  }

  lemma {:induction false} IdleOnlyAtStart(changes: seq<Change>)
    ensures Project(changes).Ok? && Project(changes).value.Idle? ==> changes == []
  {
    if changes != [] {
      IdleOnlyAtStart(changes[..|changes| - 1]);
    }
  }

  lemma RangeStep(b: Bootstrap, c: Change, before: seq<Change>)
    requires b.announced.Started? && IsRange(c) && Fits(b.announced, b.chat)
    requires b.chat == Gathered(b.announced.summary, before)
    ensures AppendAny(b, c).Ok? <==>
              && c.stamp == b.announced.stamp && InOrder(c, b.chat)
              && Fits(b.announced, Gathered(b.announced.summary, before + [c]))
    ensures AppendAny(b, c).Ok? ==>
              AppendAny(b, c).value == Bootstrap(b.announced, Gathered(b.announced.summary, before + [c]))
  {
    assert (before + [c])[..|before|] == before;
  }

  /** Projection yields `chat` exactly on the snapshots of `chat`. */
  lemma ProjectsIffSnapshot(changes: seq<Change>, chat: Chat)
    ensures Project(changes) == Ok(Done(chat)) <==> SnapshotOf(changes, chat)
  {
    if |changes| >= 2 {
      var init, last := changes[..|changes| - 1], changes[|changes| - 1];
      CollectingIff(init);
      assert init[1..] == changes[1..|changes| - 1];
      IdleOnlyAtStart(init);
    } else if |changes| == 1 {
      assert changes == [changes[0]];
      FirstChange(changes[0]);
    }
  }

  // ---- The accumulator --------------------------------------------------

  class ChatProjection {
    var bootstrap: Option<Bootstrap>

    ghost predicate Valid()
      reads this
    {
      bootstrap.Some? ==> bootstrap.value.announced.Started?
    }

    function Progressed(): Progress
      reads this
    {
      if bootstrap.None? then Idle else Collecting(bootstrap.value)
    }

    constructor ()
      ensures Valid() && Progressed() == Idle
    {
      bootstrap := None;
    }

    /** Applies one wire event; returns the chat at the completion boundary. */
    method Accept(change: Change) returns (r: Result<Option<Chat>, BootstrapError>)
      requires Valid()
      modifies this
      ensures Valid()
      ensures match Advance(old(Progressed()), change)
              case Err(e) => r == Err(e)
              case Ok(Done(chat)) => r == Ok(Some(chat)) && bootstrap.None?
              case Ok(p) => r == Ok(None) && Progressed() == p
    {
      match change {
        case Started(_, summary, _, _, _, _) =>
          if bootstrap.Some? { return Err(StartedTwice); }
          bootstrap := Some(Bootstrap(change, Chat(summary, [], [], [], [])));
          return Ok(None);
        case Completed(stamp) =>
          if bootstrap.None? { return Err(NotStarted); }
          var b := bootstrap.value;
          bootstrap := None;
          if stamp != b.announced.stamp { return Err(StampChanged); }
          if |b.chat.turns| != b.announced.turnCount || |b.chat.timeline| != b.announced.timelineCount
             || |b.chat.attachments| != b.announced.attachmentCount
             || |b.chat.queuedPrompts| != b.announced.promptCount {
            return Err(Incomplete);
          }
          return Ok(Some(b.chat));
        case Mutation => return Err(EarlyMutation);
        case _ =>
          if bootstrap.None? { return Err(NotStarted); }
          var appended := AppendAny(bootstrap.value, change);
          if appended.Err? { return Err(appended.error); }
          bootstrap := Some(appended.value);
          return Ok(None);
      }
    }
  }

  /** The result is the chat of the prefix that is a snapshot, and there is no such prefix if it is anything else. */
  ghost predicate Shows(changes: seq<Change>, r: Result<Option<Chat>, BootstrapError>) {
    && (r.Ok? && r.value.Some? ==> exists n | 0 <= n <= |changes| :: SnapshotOf(changes[..n], r.value.value))
    && (forall n, chat | 0 <= n <= |changes| && SnapshotOf(changes[..n], chat) :: r == Ok(Some(chat)))
  }

  /** Consumes events until one completes the snapshot; whatever follows is not looked at. */
  method ShowChat(changes: seq<Change>) returns (r: Result<Option<Chat>, BootstrapError>)
    ensures Shows(changes, r)
  {
    var projection := new ChatProjection();
    assert changes[..0] == [];
    for n := 0 to |changes|
      invariant fresh(projection) && projection.Valid()
      invariant Project(changes[..n]) == Ok(projection.Progressed())
    {
      ProjectNext(changes, n);
      var accepted := projection.Accept(changes[n]);
      if accepted.Err? || accepted.value.Some? {
        EndsOnce(changes, n + 1, accepted);
        return accepted;
      }
    }
    NeverEnds(changes, |changes|);
    return Ok(None);
  }

  lemma ProjectNext(changes: seq<Change>, n: nat)
    requires n < |changes| && Project(changes[..n]).Ok? && !Project(changes[..n]).value.Done?
    ensures Project(changes[..n + 1]) == Advance(Project(changes[..n]).value, changes[n])
  {
    assert changes[..n + 1][..n] == changes[..n];
  }

  /** While a projection is under way, no prefix so far is a snapshot. */
  lemma NeverEnds(changes: seq<Change>, n: nat)
    requires n <= |changes| && Project(changes[..n]).Ok? && !Project(changes[..n]).value.Done?
    ensures forall m, chat | 0 <= m <= n :: !SnapshotOf(changes[..m], chat)
  {
    forall m, chat | 0 <= m <= n
      ensures !SnapshotOf(changes[..m], chat)
    {
      ProjectsIffSnapshot(changes[..m], chat);
      assert changes[..n][..m] == changes[..m];
      if Project(changes[..m]) == Ok(Done(chat)) {
        StaysEnded(changes[..n], m);
      }
    }
  }

  /** Once a projection has ended, no other prefix is a snapshot of anything. */
  lemma EndsOnce(changes: seq<Change>, n: nat, r: Result<Option<Chat>, BootstrapError>)
    requires 0 < n <= |changes|
    requires Project(changes[..n - 1]).Ok? && !Project(changes[..n - 1]).value.Done?
    requires match Project(changes[..n])
             case Err(e) => r == Err(e)
             case Ok(p) => p.Done? && r == Ok(Some(p.chat))
    ensures Shows(changes, r)
  {
    NeverEnds(changes, n - 1);
    forall m, chat | 0 <= m <= |changes| && SnapshotOf(changes[..m], chat)
      ensures r == Ok(Some(chat))
    {
      ProjectsIffSnapshot(changes[..m], chat);
      if m >= n {
        assert changes[..m][..n] == changes[..n];
        StaysEnded(changes[..m], n);
      }
    }
    if r.Ok? {
      ProjectsIffSnapshot(changes[..n], r.value.value);
    }
  }

  lemma {:induction false} StaysEnded(changes: seq<Change>, n: nat)
    requires n <= |changes|
    requires Project(changes[..n]).Err? || Project(changes[..n]).value.Done?
    ensures Project(changes).Err? || (n == |changes| && Project(changes) == Project(changes[..n]))
    decreases |changes|
  {
    if n == |changes| {
      assert changes[..n] == changes;
    } else {
      var init := changes[..|changes| - 1];
      assert init[..n] == changes[..n];
      StaysEnded(init, n);
    }
  }
}
