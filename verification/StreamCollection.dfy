/**
 * Folding a model event stream into one assistant response
 * (crates/libs/tascarrel-agent/src/agent.rs, `ResponseAccumulator`).
 */
module StreamCollection {
  import opened Foundation
  import opened Model

  datatype PendingToolCall = PendingToolCall(name: string, arguments: string, completed: bool)

  type Calls = seq<(string, PendingToolCall)>

  type Events = seq<ModelStreamEvent>

  datatype Violation =
    | AfterTerminal
    | DuplicateStart
    | UnknownCall
    | AfterCallCompletion
    | DuplicateUsage
    | DuplicateTerminal
    | NoTerminal
    | IncompleteCall
    | NoContent

  /** What the accumulator holds, its index aside. */
  datatype Collected = Collected(
    reasoning: string,
    content: string,
    calls: Calls,
    finishReason: Option<FinishReason>,
    usage: Option<ModelUsage>)

  const EMPTY := Collected("", "", [], None, None)

  // ---- The grammar, stated over the events alone ------------------------

  predicate Terminated(events: Events) {
    exists i | 0 <= i < |events| :: events[i].Completed?
  }

  predicate Reported(events: Events) {
    exists i | 0 <= i < |events| :: events[i].Usage?
  }

  predicate Opened(events: Events, id: string) {
    exists i | 0 <= i < |events| :: events[i].ToolCallStarted? && events[i].id == id
  }

  predicate Closed(events: Events, id: string) {
    exists i | 0 <= i < |events| :: events[i].ToolCallCompleted? && events[i].id == id
  }

  /** Event `e` may follow `events`. */
  predicate MayFollow(events: Events, e: ModelStreamEvent) {
    match e
    case ReasoningDelta(_) => !Terminated(events)
    case TextDelta(_) => !Terminated(events)
    case ToolCallStarted(id, _) => !Terminated(events) && !Opened(events, id)
    case ToolCallArgumentsDelta(id, _) => !Terminated(events) && Opened(events, id) && !Closed(events, id)
    case ToolCallCompleted(id) => !Terminated(events) && Opened(events, id) && !Closed(events, id)
    case Usage(_) => !Reported(events)
    case Completed(_) => !Terminated(events)
  }

  predicate Grammatical(events: Events) {
    forall j | 0 <= j < |events| :: MayFollow(events[..j], events[j])
  }

  /** The stream ended properly and carries text or a call. */
  predicate Usable(events: Events) {
    && Terminated(events)
    && (forall i | 0 <= i < |events| && events[i].ToolCallStarted? :: Closed(events, events[i].id))
    && (!Blank(TextOf(events)) || Starts(events) != [])
  }

  // ---- What the events say, part by part --------------------------------

  function Text(e: ModelStreamEvent): string {
    if e.TextDelta? then e.delta else ""
  }

  function Reasoning(e: ModelStreamEvent): string {
    if e.ReasoningDelta? then e.delta else ""
  }

  function Arguments(e: ModelStreamEvent, id: string): string {
    if e.ToolCallArgumentsDelta? && e.id == id then e.delta else ""
  }

  function Start(e: ModelStreamEvent): seq<(string, string)> {
    if e.ToolCallStarted? then [(e.id, e.name)] else []
  }

  function Butlast(events: Events): Events
    requires events != []
  {
    events[..|events| - 1]
  }

  function Last(events: Events): ModelStreamEvent
    requires events != []
  {
    events[|events| - 1]
  }

  function TextOf(events: Events): string {
    if events == [] then "" else TextOf(Butlast(events)) + Text(Last(events))
  }

  function ReasoningOf(events: Events): string {
    if events == [] then "" else ReasoningOf(Butlast(events)) + Reasoning(Last(events))
  }

  /** All argument fragments addressed to one call, in order. */
  function ArgumentsOf(events: Events, id: string): string {
    if events == [] then "" else ArgumentsOf(Butlast(events), id) + Arguments(Last(events), id)
  }

  /** Identifier and name of every call, in the order they started. */
  function Starts(events: Events): seq<(string, string)> {
    if events == [] then [] else Starts(Butlast(events)) + Start(Last(events))
  }

  function UsageOf(events: Events): Option<ModelUsage> {
    if events == [] then None
    else if Last(events).Usage? then Some(Last(events).usage)
    else UsageOf(Butlast(events))
  }

  function FinishOf(events: Events): Option<FinishReason> {
    if events == [] then None
    else if Last(events).Completed? then Some(Last(events).finishReason)
    else FinishOf(Butlast(events))
  }

  function CallOf(events: Events, start: (string, string)): (string, PendingToolCall) {
    (start.0, PendingToolCall(start.1, ArgumentsOf(events, start.0), Closed(events, start.0)))
  }

  function CallsFrom(events: Events, starts: seq<(string, string)>): (calls: Calls)
    ensures |calls| == |starts|
    ensures forall i | 0 <= i < |starts| :: calls[i] == CallOf(events, starts[i])
  {
    seq(|starts|, i requires 0 <= i < |starts| => CallOf(events, starts[i]))
  }

  /** The whole content of a stream read off its events. */
  function ContentOf(events: Events): Collected {
    Collected(ReasoningOf(events), TextOf(events), CallsFrom(events, Starts(events)),
              FinishOf(events), UsageOf(events))
  }

  function ToolCallsOf(calls: Calls): (r: seq<ToolCall>)
    ensures |r| == |calls|
    ensures forall i | 0 <= i < |calls| :: r[i] == ToolCall(calls[i].0, calls[i].1.name, calls[i].1.arguments)
  {
    seq(|calls|, i requires 0 <= i < |calls| => ToolCall(calls[i].0, calls[i].1.name, calls[i].1.arguments))
  }

  function ResponseOf(c: Collected): CollectedResponse
    requires c.finishReason.Some?
  {
    CollectedResponse(AssistantMessage(c.reasoning, c.content, ToolCallsOf(c.calls), c.usage), c.finishReason.value)
  }

  // ---- The accumulator as a function ------------------------------------

  function Find(calls: Calls, id: string): (r: Option<nat>)
    ensures r.Some? ==> r.value < |calls| && calls[r.value].0 == id
    ensures r.None? ==> forall i | 0 <= i < |calls| :: calls[i].0 != id
  {
    if calls == [] then None
    else if calls[|calls| - 1].0 == id then Some(|calls| - 1)
    else Find(calls[..|calls| - 1], id)
  }

  /** The call list after an accepted event. */
  function CallsAfter(calls: Calls, e: ModelStreamEvent): Calls
    requires e.ToolCallArgumentsDelta? || e.ToolCallCompleted? ==> Find(calls, e.id).Some?
  {
    match e
    case ToolCallStarted(id, name) => calls + [(id, PendingToolCall(name, "", false))]
    case ToolCallArgumentsDelta(id, delta) =>
      var k := Find(calls, id).value;
      calls[k := (id, calls[k].1.(arguments := calls[k].1.arguments + delta))]
    case ToolCallCompleted(id) =>
      var k := Find(calls, id).value;
      calls[k := (id, calls[k].1.(completed := true))]
    case _ => calls
  }

  function Accept(c: Collected, e: ModelStreamEvent): Result<Collected, Violation> {
    match e
    case ReasoningDelta(delta) =>
      if c.finishReason.Some? then Err(AfterTerminal) else Ok(c.(reasoning := c.reasoning + delta))
    case TextDelta(delta) =>
      if c.finishReason.Some? then Err(AfterTerminal) else Ok(c.(content := c.content + delta))
    case ToolCallStarted(id, name) =>
      if c.finishReason.Some? then Err(AfterTerminal)
      else if Find(c.calls, id).Some? then Err(DuplicateStart)
      else Ok(c.(calls := CallsAfter(c.calls, e)))
    case ToolCallArgumentsDelta(id, delta) =>
      if c.finishReason.Some? then Err(AfterTerminal)
      else
        (match Find(c.calls, id)
         case None => Err(UnknownCall)
         case Some(k) =>
           var call := c.calls[k].1;
           if call.completed then Err(AfterCallCompletion) else Ok(c.(calls := CallsAfter(c.calls, e))))
    case ToolCallCompleted(id) =>
      if c.finishReason.Some? then Err(AfterTerminal)
      else
        (match Find(c.calls, id)
         case None => Err(UnknownCall)
         case Some(k) =>
           var call := c.calls[k].1;
           if call.completed then Err(AfterCallCompletion) else Ok(c.(calls := CallsAfter(c.calls, e))))
    case Usage(usage) =>
      if c.usage.Some? then Err(DuplicateUsage) else Ok(c.(usage := Some(usage)))
    case Completed(reason) =>
      if c.finishReason.Some? then Err(DuplicateTerminal) else Ok(c.(finishReason := Some(reason)))
  }

  function Finish(c: Collected): Result<CollectedResponse, Violation> {
    if c.finishReason.None? then Err(NoTerminal)
    else if exists i | 0 <= i < |c.calls| :: !c.calls[i].1.completed then Err(IncompleteCall)
    else if Blank(c.content) && c.calls == [] then Err(NoContent)
    else Ok(ResponseOf(c))
  }

  function FoldFrom(r: Result<Collected, Violation>, events: Events): Result<Collected, Violation> {
    if events == [] then r
    else
      match FoldFrom(r, Butlast(events))
      case Err(v) => Err(v)
      case Ok(c) => Accept(c, Last(events))
  }

  function Fold(events: Events): Result<Collected, Violation> {
    FoldFrom(Ok(EMPTY), events)
  }

  function Collect(events: Events): Result<CollectedResponse, Violation> {
    match Fold(events)
    case Err(v) => Err(v)
    case Ok(c) => Finish(c)
  }

  // ---- The fold accepts exactly the grammar -----------------------------

  lemma {:induction false} FlagsFollowEvents(events: Events)
    ensures FinishOf(events).Some? <==> Terminated(events)
    ensures UsageOf(events).Some? <==> Reported(events)
  {
    if events != [] {
      FlagsFollowEvents(Butlast(events));
      assert forall i | 0 <= i < |events| - 1 :: events[i] == Butlast(events)[i];
    }
  }

  lemma {:induction false} StartsAreOpened(events: Events, id: string)
    ensures Opened(events, id) <==> exists i | 0 <= i < |Starts(events)| :: Starts(events)[i].0 == id
  {
    if events != [] {
      var init, last := Butlast(events), Last(events);
      StartsAreOpened(init, id);
      assert Opened(events, id) <==> Opened(init, id) || (last.ToolCallStarted? && last.id == id) by {
        assert forall i | 0 <= i < |init| :: events[i] == init[i];
      }
      assert forall i | 0 <= i < |Starts(init)| :: Starts(events)[i] == Starts(init)[i];
      if last.ToolCallStarted? {
        assert Starts(events)[|Starts(init)|] == (last.id, last.name);
      }
    }
  }

  lemma GrammaticalPrefix(events: Events)
    requires events != []
    ensures Grammatical(events) <==> Grammatical(Butlast(events)) && MayFollow(Butlast(events), Last(events))
  {
    var init := Butlast(events);
    assert forall j | 0 <= j < |init| :: init[j] == events[j] && init[..j] == events[..j];
  }

  lemma {:induction false} StartsAreDistinct(events: Events)
    requires Grammatical(events)
    ensures forall i, j | 0 <= i < j < |Starts(events)| :: Starts(events)[i].0 != Starts(events)[j].0
  {
    if events != [] {
      GrammaticalPrefix(events);
      StartsAreDistinct(Butlast(events));
      var starts := Starts(Butlast(events));
      assert Starts(events) == starts + Start(Last(events));
      if Last(events).ToolCallStarted? {
        StartsAreOpened(Butlast(events), Last(events).id);
        assert forall i | 0 <= i < |starts| :: starts[i].0 != Last(events).id;
      }
    }
  }

  /** The position of a started call in start order. */
  lemma FindStarted(events: Events, id: string)
    ensures var calls := ContentOf(events).calls;
            && (Find(calls, id).Some? <==> Opened(events, id))
            && (Find(calls, id).Some? ==> calls[Find(calls, id).value].1.completed == Closed(events, id))
  {
    var calls := ContentOf(events).calls;
    StartsAreOpened(events, id);
    assert forall i | 0 <= i < |calls| :: calls[i].0 == Starts(events)[i].0;
  }

  /** Events about no call, or about other calls, leave a call as it was. */
  lemma UntouchedCall(events: Events, e: ModelStreamEvent, start: (string, string))
    requires !((e.ToolCallArgumentsDelta? || e.ToolCallCompleted?) && e.id == start.0)
    ensures CallOf(events + [e], start) == CallOf(events, start)
  {
    ArgumentsSnoc(events, e, start.0);
    ClosedSnoc(events, e, start.0);
  }

  lemma ArgumentsSnoc(events: Events, e: ModelStreamEvent, id: string)
    ensures ArgumentsOf(events + [e], id)
         == if e.ToolCallArgumentsDelta? && e.id == id then ArgumentsOf(events, id) + e.delta
            else ArgumentsOf(events, id)
  {
    assert Butlast(events + [e]) == events;
    assert ArgumentsOf(events, id) + "" == ArgumentsOf(events, id);
  }

  lemma ClosedSnoc(events: Events, e: ModelStreamEvent, id: string)
    ensures Closed(events + [e], id) <==> Closed(events, id) || (e.ToolCallCompleted? && e.id == id)
  {
    var more := events + [e];
    assert forall i | 0 <= i < |events| :: more[i] == events[i];
    assert more[|events|] == e;
  }

  lemma {:induction false} NoFragmentsBeforeStart(events: Events, id: string)
    requires Grammatical(events) && !Opened(events, id)
    ensures ArgumentsOf(events, id) == "" && !Closed(events, id)
  {
    if events != [] {
      var init, last := Butlast(events), Last(events);
      GrammaticalPrefix(events);
      assert forall i | 0 <= i < |init| :: events[i] == init[i];
      NoFragmentsBeforeStart(init, id);
      assert events == init + [last];
      ClosedSnoc(init, last, id);
    }
  }

  /** One event more: accepted exactly when it may follow, and absorbed exactly. */
  lemma AcceptFollows(events: Events, e: ModelStreamEvent)
    requires Grammatical(events)
    ensures Accept(ContentOf(events), e).Ok? <==> MayFollow(events, e)
    ensures Accept(ContentOf(events), e).Ok? ==> Accept(ContentOf(events), e).value == ContentOf(events + [e])
  {
    AcceptIff(events, e);
    if MayFollow(events, e) {
      CallsFollow(events, e);
      PartsFollow(events, e);
    }
  }

  lemma AcceptIff(events: Events, e: ModelStreamEvent)
    ensures Accept(ContentOf(events), e).Ok? <==> MayFollow(events, e)
    ensures e.ToolCallArgumentsDelta? || e.ToolCallCompleted? ==>
              (MayFollow(events, e) ==> Find(CallsFrom(events, Starts(events)), e.id).Some?)
  {
    FlagsFollowEvents(events);
    if e.ToolCallStarted? || e.ToolCallArgumentsDelta? || e.ToolCallCompleted? {
      FindStarted(events, e.id);
    }
  }

  /** What an event adds to everything but the calls. */
  lemma PartsFollow(events: Events, e: ModelStreamEvent)
    ensures var before, after := ContentOf(events), ContentOf(events + [e]);
            && after.reasoning == (if e.ReasoningDelta? then before.reasoning + e.delta else before.reasoning)
            && after.content == (if e.TextDelta? then before.content + e.delta else before.content)
            && after.finishReason == (if e.Completed? then Some(e.finishReason) else before.finishReason)
            && after.usage == (if e.Usage? then Some(e.usage) else before.usage)
  {
    var more := events + [e];
    assert Butlast(more) == events && Last(more) == e;
    assert ReasoningOf(events) + "" == ReasoningOf(events) && TextOf(events) + "" == TextOf(events);
  }

  lemma StartsFollow(events: Events, e: ModelStreamEvent)
    ensures Starts(events + [e]) == Starts(events) + Start(e)
  {
    assert Butlast(events + [e]) == events;
  }

  lemma CallsFollow(events: Events, e: ModelStreamEvent)
    requires Grammatical(events) && MayFollow(events, e)
    requires e.ToolCallArgumentsDelta? || e.ToolCallCompleted? ==> Find(CallsFrom(events, Starts(events)), e.id).Some?
    ensures CallsAfter(CallsFrom(events, Starts(events)), e) == CallsFrom(events + [e], Starts(events + [e]))
  {
    var got, want := CallsAfter(CallsFrom(events, Starts(events)), e), CallsFrom(events + [e], Starts(events + [e]));
    StartsFollow(events, e);
    assert |got| == |want|;
    forall i | 0 <= i < |want|
      ensures got[i] == want[i]
    {
      CallFollows(events, e, i);
    }
  }

  lemma CallFollows(events: Events, e: ModelStreamEvent, i: nat)
    requires Grammatical(events) && MayFollow(events, e) && i < |Starts(events + [e])|
    requires e.ToolCallArgumentsDelta? || e.ToolCallCompleted? ==> Find(CallsFrom(events, Starts(events)), e.id).Some?
    ensures i < |CallsAfter(CallsFrom(events, Starts(events)), e)|
    ensures CallsAfter(CallsFrom(events, Starts(events)), e)[i] == CallOf(events + [e], Starts(events + [e])[i])
  {
    StartsFollow(events, e);
    if i < |Starts(events)| {
      StartedCallFollows(events, e, i);
    } else {
      FreshCallFollows(events, e);
    }
  }

  lemma FreshCallFollows(events: Events, e: ModelStreamEvent)
    requires Grammatical(events) && MayFollow(events, e) && e.ToolCallStarted?
    ensures CallOf(events + [e], (e.id, e.name)) == (e.id, PendingToolCall(e.name, "", false))
  {
    NoFragmentsBeforeStart(events, e.id);
    ClosedSnoc(events, e, e.id);
    ArgumentsSnoc(events, e, e.id);
  }

  lemma StartedCallFollows(events: Events, e: ModelStreamEvent, i: nat)
    requires Grammatical(events) && MayFollow(events, e) && i < |Starts(events)|
    requires e.ToolCallArgumentsDelta? || e.ToolCallCompleted? ==> Find(CallsFrom(events, Starts(events)), e.id).Some?
    ensures CallsAfter(CallsFrom(events, Starts(events)), e)[i] == CallOf(events + [e], Starts(events)[i])
  {
    var starts, calls := Starts(events), CallsFrom(events, Starts(events));
    assert calls[i] == CallOf(events, starts[i]);
    if e.ToolCallArgumentsDelta? || e.ToolCallCompleted? {
      var k := Find(calls, e.id).value;
      assert calls[k] == CallOf(events, starts[k]);
      if e.id == starts[i].0 {
        StartsAreDistinct(events);
        assert k == i;
        ClosedSnoc(events, e, e.id);
        ArgumentsSnoc(events, e, e.id);
      } else {
        UntouchedCall(events, e, starts[i]);
      }
    } else {
      UntouchedCall(events, e, starts[i]);
    }
  }

  lemma {:induction false} FoldMeansGrammar(events: Events)
    ensures Fold(events).Ok? <==> Grammatical(events)
    ensures Fold(events).Ok? ==> Fold(events).value == ContentOf(events)
  {
    if events != [] {
      var init, last := Butlast(events), Last(events);
      FoldMeansGrammar(init);
      GrammaticalPrefix(events);
      if Grammatical(init) {
        AcceptFollows(init, last);
        assert events == init + [last];
      }
    }
  }

  lemma UsableMeansFinishes(events: Events)
    ensures Finish(ContentOf(events)).Ok? <==> Usable(events)
  {
    var c := ContentOf(events);
    FlagsFollowEvents(events);
    var starts := Starts(events);
    if forall i | 0 <= i < |events| && events[i].ToolCallStarted? :: Closed(events, events[i].id) {
      forall i | 0 <= i < |c.calls|
        ensures c.calls[i].1.completed
      {
        assert Opened(events, starts[i].0) by {
          assert Starts(events)[i].0 == starts[i].0;
          StartsAreOpened(events, starts[i].0);
        }
        var j :| 0 <= j < |events| && events[j].ToolCallStarted? && events[j].id == starts[i].0;
        assert c.calls[i] == CallOf(events, starts[i]);
      }
    }
    if forall i | 0 <= i < |c.calls| :: c.calls[i].1.completed {
      forall i | 0 <= i < |events| && events[i].ToolCallStarted?
        ensures Closed(events, events[i].id)
      {
        StartsAreOpened(events, events[i].id);
        var k :| 0 <= k < |starts| && starts[k].0 == events[i].id;
        assert c.calls[k] == CallOf(events, starts[k]);
      }
    }
  }

  /** The response says what the events say: text, reasoning, usage and end, and every call with its own arguments. */
  predicate SpelledOut(events: Events, r: CollectedResponse) {
    && r.message.content == TextOf(events) && r.message.reasoning == ReasoningOf(events)
    && r.message.usage == UsageOf(events) && FinishOf(events) == Some(r.finishReason)
    && |r.message.toolCalls| == |Starts(events)|
    && forall i | 0 <= i < |Starts(events)| ::
         var (id, name) := Starts(events)[i];
         r.message.toolCalls[i] == ToolCall(id, name, ArgumentsOf(events, id))
  }

  /** Collection succeeds exactly on well-formed, usable streams, with the content they spell out. */
  lemma CollectSucceedsIff(events: Events)
    ensures Collect(events).Ok? <==> Grammatical(events) && Usable(events)
    ensures Collect(events).Ok? ==> SpelledOut(events, Collect(events).value)
  {
    FoldMeansGrammar(events);
    UsableMeansFinishes(events);
    if Collect(events).Ok? {
      var c := ContentOf(events);
      assert Collect(events).value == ResponseOf(c);
      forall i | 0 <= i < |Starts(events)|
        ensures ToolCallsOf(c.calls)[i] == ToolCall(Starts(events)[i].0, Starts(events)[i].1,
                                                    ArgumentsOf(events, Starts(events)[i].0))
      {
        assert c.calls[i] == CallOf(events, Starts(events)[i]);
      }
    }
  }

  // ---- Fragment boundaries do not matter --------------------------------

  lemma {:induction false} FoldConcat(r: Result<Collected, Violation>, a: Events, b: Events)
    ensures FoldFrom(r, a + b) == FoldFrom(FoldFrom(r, a), b)
  {
    var ab := a + b;
    if b == [] {
      assert ab == a;
    } else {
      assert Butlast(ab) == a + Butlast(b) && Last(ab) == Last(b);
      FoldConcat(r, a, Butlast(b));
    }
  }

  /** `joined` carries in one fragment what `first` and `second` carry in two. */
  predicate Splits(joined: ModelStreamEvent, first: ModelStreamEvent, second: ModelStreamEvent) {
    match joined
    case ReasoningDelta(d) => first.ReasoningDelta? && second.ReasoningDelta? && d == first.delta + second.delta
    case TextDelta(d) => first.TextDelta? && second.TextDelta? && d == first.delta + second.delta
    case ToolCallArgumentsDelta(id, d) =>
      && first.ToolCallArgumentsDelta? && second.ToolCallArgumentsDelta?
      && first.id == id == second.id && d == first.delta + second.delta
    case _ => false
  }

  lemma SplitStep(c: Collected, joined: ModelStreamEvent, first: ModelStreamEvent, second: ModelStreamEvent)
    requires Splits(joined, first, second)
    ensures Accept(c, first).Ok? ==> Accept(Accept(c, first).value, second) == Accept(c, joined)
    ensures Accept(c, first).Err? ==> Accept(c, first) == Accept(c, joined)
  {
    if joined.ToolCallArgumentsDelta? && Accept(c, first).Ok? {
      var k := Find(c.calls, joined.id).value;
      var call := c.calls[k].1;
      var once := c.calls[k := (joined.id, call.(arguments := call.arguments + first.delta))];
      FindAfterUpdate(c.calls, k, joined.id, once[k].1);
      assert call.arguments + first.delta + second.delta == call.arguments + joined.delta;
      assert Accept(Accept(c, first).value, second).value.calls == Accept(c, joined).value.calls;
    } else if joined.TextDelta? {
      assert c.content + first.delta + second.delta == c.content + joined.delta;
    } else if joined.ReasoningDelta? {
      assert c.reasoning + first.delta + second.delta == c.reasoning + joined.delta;
    }
  }

  lemma {:induction false} FindAfterUpdate(calls: Calls, k: nat, id: string, call: PendingToolCall)
    requires Find(calls, id) == Some(k)
    ensures Find(calls[k := (id, call)], id) == Some(k)
  {
    var n := |calls| - 1;
    if k < n {
      FindAfterUpdate(calls[..n], k, id, call);
      assert calls[k := (id, call)][..n] == calls[..n][k := (id, call)];
    }
  }

  /** Joining two fragments, anywhere in any stream, changes neither response nor error. */
  lemma ResplitInvariant(before: Events, joined: ModelStreamEvent, first: ModelStreamEvent,
                         second: ModelStreamEvent, after: Events)
    requires Splits(joined, first, second)
    ensures Collect(before + [first, second] + after) == Collect(before + [joined] + after)
  {
    var r := FoldFrom(Ok(EMPTY), before);
    FoldConcat(Ok(EMPTY), before + [first, second], after);
    FoldConcat(Ok(EMPTY), before + [joined], after);
    FoldConcat(Ok(EMPTY), before, [first, second]);
    FoldConcat(Ok(EMPTY), before, [joined]);
    assert Butlast([first, second]) == [first] && Butlast([first]) == [] && Butlast([joined]) == [];
    if r.Ok? {
      SplitStep(r.value, joined, first, second);
    }
  }

  // ---- The accumulator as an object -------------------------------------

  class ResponseAccumulator {
    var reasoning: string
    var content: string
    var calls: Calls
    var callIndexes: map<string, nat>
    var finishReason: Option<FinishReason>
    var usage: Option<ModelUsage>

    /** The index names every call exactly once. */
    ghost predicate Valid()
      reads this
    {
      && (forall id | id in callIndexes :: callIndexes[id] < |calls| && calls[callIndexes[id]].0 == id)
      && (forall i | 0 <= i < |calls| :: calls[i].0 in callIndexes && callIndexes[calls[i].0] == i)
    }

    function Contents(): Collected
      reads this
    {
      Collected(reasoning, content, calls, finishReason, usage)
    }

    constructor ()
      ensures Valid() && Contents() == EMPTY
    {
      reasoning, content, calls, callIndexes := "", "", [], map[];
      finishReason, usage := None, None;
    }

    method AcceptEvent(e: ModelStreamEvent) returns (r: Result<(), Violation>)
      requires Valid()
      modifies this
      ensures Valid()
      ensures match Accept(old(Contents()), e)
              case Err(v) => r == Err(v)
              case Ok(c) => r.Ok? && Contents() == c
    {
      match e {
        case ReasoningDelta(delta) =>
          if finishReason.Some? { return Err(AfterTerminal); }
          reasoning := reasoning + delta;
        case TextDelta(delta) =>
          if finishReason.Some? { return Err(AfterTerminal); }
          content := content + delta;
        case ToolCallStarted(id, name) =>
          r := StartToolCall(id, name);
          return;
        case ToolCallArgumentsDelta(id, delta) =>
          r := AppendToolArguments(id, delta);
          return;
        case ToolCallCompleted(id) =>
          r := CompleteToolCall(id);
          return;
        case Usage(reported) =>
          var previous := usage;
          usage := Some(reported);
          if previous.Some? { return Err(DuplicateUsage); }
        case Completed(reason) =>
          var previous := finishReason;
          finishReason := Some(reason);
          if previous.Some? { return Err(DuplicateTerminal); }
      }
      return Ok(());
    }

    /** The index finds what a search of the ordered list finds. */
    lemma IndexFinds(id: string)
      requires Valid()
      ensures Find(calls, id) == if id in callIndexes then Some(callIndexes[id]) else None
    {
    }

    method StartToolCall(id: string, name: string) returns (r: Result<(), Violation>)
      requires Valid()
      modifies this
      ensures Valid()
      ensures match Accept(old(Contents()), ModelStreamEvent.ToolCallStarted(id, name))
              case Err(v) => r == Err(v)
              case Ok(c) => r.Ok? && Contents() == c
    {
      IndexFinds(id);
      if finishReason.Some? { return Err(AfterTerminal); }
      if id in callIndexes { return Err(DuplicateStart); }
      callIndexes := callIndexes[id := |calls|];
      calls := calls + [(id, PendingToolCall(name, "", false))];
      return Ok(());
    }

    method AppendToolArguments(id: string, delta: string) returns (r: Result<(), Violation>)
      requires Valid()
      modifies this
      ensures Valid()
      ensures match Accept(old(Contents()), ModelStreamEvent.ToolCallArgumentsDelta(id, delta))
              case Err(v) => r == Err(v)
              case Ok(c) => r.Ok? && Contents() == c
    {
      IndexFinds(id);
      if finishReason.Some? { return Err(AfterTerminal); }
      if id !in callIndexes { return Err(UnknownCall); }
      var index := callIndexes[id];
      var call := calls[index].1;
      if call.completed { return Err(AfterCallCompletion); }
      calls := calls[index := (id, call.(arguments := call.arguments + delta))];
      return Ok(());
    }

    method CompleteToolCall(id: string) returns (r: Result<(), Violation>)
      requires Valid()
      modifies this
      ensures Valid()
      ensures match Accept(old(Contents()), ModelStreamEvent.ToolCallCompleted(id))
              case Err(v) => r == Err(v)
              case Ok(c) => r.Ok? && Contents() == c
    {
      IndexFinds(id);
      if finishReason.Some? { return Err(AfterTerminal); }
      if id !in callIndexes { return Err(UnknownCall); }
      var index := callIndexes[id];
      var call := calls[index].1;
      if call.completed { return Err(AfterCallCompletion); }
      calls := calls[index := (id, call.(completed := true))];
      return Ok(());
    }

    method FinishResponse() returns (r: Result<CollectedResponse, Violation>)
      requires Valid()
      ensures r == Finish(Contents())
      ensures r.Ok? <==> && finishReason.Some? && (forall i | 0 <= i < |calls| :: calls[i].1.completed)
                         && (!Blank(content) || calls != [])
      ensures r.Ok? ==>
                && r.value.message.content == content && r.value.message.reasoning == reasoning
                && r.value.message.usage == usage && Some(r.value.finishReason) == finishReason
                && |r.value.message.toolCalls| == |calls|
                && forall i | 0 <= i < |calls| ::
                     r.value.message.toolCalls[i] == ToolCall(calls[i].0, calls[i].1.name, calls[i].1.arguments)
    {
      if finishReason.None? { return Err(NoTerminal); }
      var i := 0;
      while i < |calls|
        invariant 0 <= i <= |calls|
        invariant forall k | 0 <= k < i :: calls[k].1.completed
      {
        if !calls[i].1.completed { return Err(IncompleteCall); }
        i := i + 1;
      }
      if Blank(content) && calls == [] { return Err(NoContent); }
      return Ok(ResponseOf(Contents()));
    }
  }
}
