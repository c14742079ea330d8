/**
 * The agent loop: requests, retries, overflow recovery, tool calls and
 * compaction (crates/libs/tascarrel-agent/src/agent.rs).
 */
module Agent {
  import opened Foundation
  import opened Model
  import opened Session
  import opened Transcript
  import opened Compaction
  import opened StreamCollection

  datatype AgentError =
    | ContextOverflowed
    | NothingToCompact
    | InvalidSession(reason: SessionError)
    | InvalidModelStream
    | ModelFailed
    | ProjectInstructions
    | StepLimit(limit: nat)
    | Cancelled

  datatype CompactionReason = Manual | Threshold | Overflow

  datatype AgentConfig = AgentConfig(
    maxSteps: nat,
    maxModelRetries: nat,
    contextWindow: Option<U64>,
    maxOutputTokens: Option<U64>,
    compaction: CompactionConfig)

  /** Text handling the loop relies on: tool arguments are parsed, file lists rendered. */
  datatype TextTools = TextTools(parse: PathParser, fileSections: (set<string>, set<string>) -> string)

  datatype ModelRequest = ModelRequest(
    messages: seq<ModelMessage>,
    tools: seq<ToolDefinition>,
    maxOutputTokens: Option<U64>)

  /** An isolated request for a summary; the prompt's wording is not modelled. */
  datatype SummaryRequest =
    | HistorySummary(messages: seq<ModelMessage>, previous: Option<string>, maxOutputTokens: U64)
    | TurnPrefixSummary(messages: seq<ModelMessage>, maxOutputTokens: U64)

  datatype StreamItem = Event(event: ModelStreamEvent) | Broken(error: ModelError)

  datatype ModelReply = Refused(error: ModelError) | Streaming(items: seq<StreamItem>)

  datatype ToolOutcome = Output(content: string) | Failed(message: string) | ToolCancelled

  function EventsOf(items: seq<StreamItem>): Events {
    if items == [] then []
    else
      var last := items[|items| - 1];
      EventsOf(items[..|items| - 1]) + if last.Event? then [last.event] else []
  }

  /** The response that a complete stream spells out, if it is one. */
  function Spelled(items: seq<StreamItem>): Option<CollectedResponse> {
    if forall i | 0 <= i < |items| :: items[i].Event? then
      match Collect(EventsOf(items))
      case Ok(response) => Some(response)
      case Err(_) => None
    else None
  }

  /** The reply is a complete stream, and this is the response it spells out. */
  predicate Yields(reply: ModelReply, response: CollectedResponse) {
    reply.Streaming? && Spelled(reply.items) == Some(response)
  }

  /**
   * Everything outside the agent, fixed in advance but arbitrary: the reply to
   * the n-th request, the outcome of the n-th tool execution and the answer to
   * the n-th look at the cancellation token. The logs record what was done,
   * and `stops` how many looks found cancellation requested.
   */
  class World {
    const replies: nat -> ModelReply
    const outcomes: nat -> ToolOutcome
    const cancelled: nat -> bool
    var primary: seq<ModelRequest>
    var summaries: seq<SummaryRequest>
    var compactions: seq<CompactionReason>
    var executed: seq<ToolCall>
    var polls: nat
    ghost var stops: nat

    constructor (replies: nat -> ModelReply, outcomes: nat -> ToolOutcome, cancelled: nat -> bool)
      ensures this.replies == replies && this.outcomes == outcomes && this.cancelled == cancelled
      ensures primary == [] && summaries == [] && compactions == [] && executed == [] && polls == 0 && stops == 0
    {
      this.replies, this.outcomes, this.cancelled := replies, outcomes, cancelled;
      primary, summaries, compactions, executed, polls, stops := [], [], [], [], 0, 0;
    }

    method IsCancelled() returns (yes: bool)
      modifies this`polls, this`stops
      ensures yes == cancelled(old(polls)) && polls == old(polls) + 1
      ensures stops == old(stops) + if yes then 1 else 0
    {
      yes := cancelled(polls);
      stops := stops + if yes then 1 else 0;
      polls := polls + 1;
    }

    method Send(request: ModelRequest) returns (reply: ModelReply)
      modifies this`primary
      ensures primary == old(primary) + [request]
      ensures reply == replies(|old(primary)| + |summaries|)
    {
      reply := replies(|primary| + |summaries|);
      primary := primary + [request];
    }

    method SendSummary(request: SummaryRequest) returns (reply: ModelReply)
      modifies this`summaries
      ensures summaries == old(summaries) + [request]
      ensures reply == replies(|primary| + |old(summaries)|)
    {
      reply := replies(|primary| + |summaries|);
      summaries := summaries + [request];
    }

    method Execute(call: ToolCall) returns (outcome: ToolOutcome)
      modifies this`executed
      ensures executed == old(executed) + [call]
      ensures outcome == outcomes(|old(executed)|)
    {
      outcome := outcomes(|executed|);
      executed := executed + [call];
    }
  }

  /** How far a run has come: requests of both kinds, polls that said to stop, tools executed. */
  datatype Marks = Marks(primary: nat, summaries: nat, stops: nat, executed: nat) {
    function Requests(): nat {
      primary + summaries
    }

    predicate Leads(later: Marks) {
      primary <= later.primary && summaries <= later.summaries && stops <= later.stops && executed <= later.executed
    }
  }

  ghost function MarksOf(world: World): Marks
    reads world`primary, world`summaries, world`stops, world`executed
  {
    Marks(|world.primary|, |world.summaries|, world.stops, |world.executed|)
  }

  lemma {:induction false} EventsInOrder(items: seq<StreamItem>)
    requires forall i | 0 <= i < |items| :: items[i].Event?
    ensures |EventsOf(items)| == |items| && forall i | 0 <= i < |items| :: EventsOf(items)[i] == items[i].event
  {
    if items != [] {
      EventsInOrder(items[..|items| - 1]);
    }
  }

  /** A reply yields a response exactly if it is an unbroken, grammatical, usable stream that spells it out. */
  lemma YieldsIff(items: seq<StreamItem>, response: CollectedResponse)
    ensures Yields(Streaming(items), response) <==>
              && (forall i | 0 <= i < |items| :: items[i].Event?)
              && Grammatical(EventsOf(items)) && Usable(EventsOf(items)) && SpelledOut(EventsOf(items), response)
  {
    var events := EventsOf(items);
    CollectSucceedsIff(events);
    if Collect(events).Ok? && SpelledOut(events, response) {
      var got := Collect(events).value;
      assert got.message.toolCalls == response.message.toolCalls;
    }
  }

  // ---- Collecting a response --------------------------------------------

  datatype CollectionError = OfAgent(agent: AgentError) | OfModel(model: ModelError)

  lemma EventsSnoc(items: seq<StreamItem>, n: nat)
    requires n < |items| && items[n].Event?
    ensures EventsOf(items[..n + 1]) == EventsOf(items[..n]) + [items[n].event]
  {
    assert items[..n + 1][..n] == items[..n];
  }

  method CollectResponse(world: World, items: seq<StreamItem>) returns (r: Result<CollectedResponse, CollectionError>)
    modifies world`polls, world`stops
    ensures r.Ok? ==> Yields(Streaming(items), r.value)
    ensures r.Err? && r.error.OfModel? ==> Broken(r.error.model) in items
    ensures old(world.stops) <= world.stops
    ensures r == Err(OfAgent(Cancelled)) <==> old(world.stops) < world.stops
    ensures r.Err? && r.error.OfAgent? ==>
              || r.error.agent == Cancelled
              || (r.error.agent == InvalidModelStream && forall c :: !Yields(Streaming(items), c))
  {
    var stop := world.IsCancelled();
    if stop { return Err(OfAgent(Cancelled)); }
    var response := new ResponseAccumulator();
    ghost var c := EMPTY;
    for n := 0 to |items|
      invariant fresh(response) && response.Valid() && response.Contents() == c
      invariant Absorbed(items, n, c) && world.stops == old(world.stops)
    {
      stop := world.IsCancelled();
      if stop { return Err(OfAgent(Cancelled)); }
      if items[n].Broken? {
        return Err(OfModel(items[n].error));
      }
      var accepted := response.AcceptEvent(items[n].event);
      AbsorbEvent(items, n, c);
      if accepted.Err? {
        ErrorsStay(items, n + 1, |items|);
        assert items[..|items|] == items;
        return Err(OfAgent(InvalidModelStream));
      }
      c := response.Contents();
    }
    stop := world.IsCancelled();
    if stop { return Err(OfAgent(Cancelled)); }
    var finished := response.FinishResponse();
    assert items[..|items|] == items;
    if finished.Err? { return Err(OfAgent(InvalidModelStream)); }
    return Ok(finished.value);
  }

  /** The first `n` items are events, and folding them gives `c`. */
  ghost predicate Absorbed(items: seq<StreamItem>, n: nat, c: Collected) {
    && n <= |items|
    && (forall i | 0 <= i < n :: items[i].Event?)
    && Fold(EventsOf(items[..n])) == Ok(c)
  }

  lemma AbsorbEvent(items: seq<StreamItem>, n: nat, c: Collected)
    requires n < |items| && items[n].Event? && Absorbed(items, n, c)
    ensures Accept(c, items[n].event).Ok? ==> Absorbed(items, n + 1, Accept(c, items[n].event).value)
    ensures Accept(c, items[n].event).Err? ==> Fold(EventsOf(items[..n + 1])).Err?
  {
    EventsSnoc(items, n);
    var before := EventsOf(items[..n]);
    assert Butlast(before + [items[n].event]) == before;
  }

  lemma {:induction false} ErrorsStay(items: seq<StreamItem>, n: nat, m: nat)
    requires n <= m <= |items| && Fold(EventsOf(items[..n])).Err?
    ensures Fold(EventsOf(items[..m])).Err?
    decreases m
  {
    if n < m {
      ErrorsStay(items, n, m - 1);
      var before, last := EventsOf(items[..m - 1]), items[m - 1];
      assert items[..m][..m - 1] == items[..m - 1];
      if last.Event? {
        assert Butlast(before + [last.event]) == before;
      } else {
        assert before + [] == before;
      }
    }
  }

  /** How a provider error comes out of a run. */
  predicate Becomes(e: ModelError, error: AgentError) {
    if e.ModelCancelled? then error.Cancelled? else if e.ContextOverflow? then error.ContextOverflowed? else error.ModelFailed?
  }

  function FromModelError(error: ModelError): AgentError {
    match error
    case ModelCancelled => Cancelled
    case ContextOverflow => ContextOverflowed
    case _ => ModelFailed
  }

  // ---- Requests with retries --------------------------------------------

  /** The provider refuses the request, or the stream breaks off. */
  predicate Fails(reply: ModelReply, error: ModelError) {
    match reply
    case Refused(e) => e == error
    case Streaming(items) => Broken(error) in items
  }

  /** The replies in `[from, to)` failed in transport, which is what may be tried again. */
  ghost predicate AllTransport(replies: nat -> ModelReply, from: nat, to: int) {
    forall n: nat | from <= n < to :: Fails(replies(n), Transport)
  }

  predicate CallsTools(response: CollectedResponse) {
    response.finishReason.ToolCalls? || response.message.toolCalls != []
  }

  /** Why the last of `attempts` requests was not tried again. */
  ghost predicate GivesUp(reply: ModelReply, attempts: nat, retries: nat, toolsAllowed: bool, error: AgentError) {
    || (error == InvalidModelStream && forall c | Yields(reply, c) :: !toolsAllowed && CallsTools(c))
    || exists e :: Fails(reply, e) && Becomes(e, error) && (e.Transport? ==> attempts == retries + 1)
  }

  /** The requests in `[first, total)` are one and its retries, and the last was given up with this error. */
  ghost predicate GaveUp(replies: nat -> ModelReply, first: nat, total: nat, retries: nat, toolsAllowed: bool,
                         error: AgentError)
  {
    && first < total && AllTransport(replies, first, total - 1)
    && GivesUp(replies(total - 1), total - first, retries, toolsAllowed, error)
  }

  ghost predicate LastGaveUp(replies: nat -> ModelReply, total: nat, retries: nat, toolsAllowed: bool, error: AgentError) {
    exists first: nat :: GaveUp(replies, first, total, retries, toolsAllowed, error)
  }

  /**
   * The last of all requests was given up with this error: no retry was left,
   * or none is made for such an error.
   */
  ghost predicate Unanswered(world: World, now: Marks, retries: nat, toolsAllowed: bool, error: AgentError) {
    LastGaveUp(world.replies, now.Requests(), retries, toolsAllowed, error)
  }

  /** Sends the same request until it is answered, at most once more per allowed retry. */
  method RequestModel(world: World, config: AgentConfig, messages: seq<ModelMessage>, tools: seq<ToolDefinition>)
    returns (r: Result<CollectedResponse, AgentError>)
    modifies world`primary, world`polls, world`stops
    ensures old(world.primary) <= world.primary
    ensures |world.primary| <= |old(world.primary)| + config.maxModelRetries + 1
    ensures forall i | |old(world.primary)| <= i < |world.primary| ::
              world.primary[i] == ModelRequest(messages, tools, config.maxOutputTokens)
    ensures r != Err(Cancelled) ==> |old(world.primary)| < |world.primary|
    ensures r.Ok? ==> Yields(world.replies(|world.primary| - 1 + |world.summaries|), r.value)
    ensures AllTransport(world.replies, |old(world.primary)| + |world.summaries|, |world.primary| + |world.summaries| - 1)
    ensures old(world.stops) <= world.stops && (old(world.stops) < world.stops ==> r == Err(Cancelled))
    ensures r.Err? && world.stops == old(world.stops) ==>
              GaveUp(world.replies, |old(world.primary)| + |world.summaries|, |world.primary| + |world.summaries|,
                     config.maxModelRetries, true, r.error)
  {
    var attempt := 1;
    while true
      invariant 1 <= attempt <= config.maxModelRetries + 1
      invariant old(world.primary) <= world.primary
      invariant |world.primary| == |old(world.primary)| + attempt - 1
      invariant forall i | |old(world.primary)| <= i < |world.primary| ::
                  world.primary[i] == ModelRequest(messages, tools, config.maxOutputTokens)
      invariant AllTransport(world.replies, |old(world.primary)| + |world.summaries|, |world.primary| + |world.summaries|)
      invariant world.stops == old(world.stops)
      decreases config.maxModelRetries + 1 - attempt
    {
      var stop := world.IsCancelled();
      if stop { return Err(Cancelled); }
      var reply := world.Send(ModelRequest(messages, tools, config.maxOutputTokens));
      stop := world.IsCancelled();
      if stop { return Err(Cancelled); }
      var error;
      if reply.Refused? {
        error := reply.error;
      } else {
        var collected := CollectResponse(world, reply.items);
        if collected.Ok? { return Ok(collected.value); }
        if collected.error.OfAgent? { return Err(collected.error.agent); }
        error := collected.error.model;
      }
      if !error.Transport? || attempt > config.maxModelRetries {
        return Err(FromModelError(error));
      }
      attempt := attempt + 1;
      stop := world.IsCancelled();
      if stop { return Err(Cancelled); }
    }
  }

  method RequestSummary(world: World, config: AgentConfig, request: SummaryRequest)
    returns (r: Result<CollectedResponse, AgentError>)
    modifies world`summaries, world`polls, world`stops
    ensures old(world.summaries) <= world.summaries
    ensures |world.summaries| <= |old(world.summaries)| + config.maxModelRetries + 1
    ensures forall i | |old(world.summaries)| <= i < |world.summaries| :: world.summaries[i] == request
    ensures r != Err(Cancelled) ==> |old(world.summaries)| < |world.summaries|
    ensures r.Ok? ==> Yields(world.replies(|world.primary| + |world.summaries| - 1), r.value)
    ensures r.Ok? ==> !CallsTools(r.value)
    ensures AllTransport(world.replies, |world.primary| + |old(world.summaries)|, |world.primary| + |world.summaries| - 1)
    ensures old(world.stops) <= world.stops && (old(world.stops) < world.stops ==> r == Err(Cancelled))
    ensures r.Err? && world.stops == old(world.stops) ==>
              GaveUp(world.replies, |world.primary| + |old(world.summaries)|, |world.primary| + |world.summaries|,
                     config.maxModelRetries, false, r.error)
  {
    var attempt := 1;
    while true
      invariant 1 <= attempt <= config.maxModelRetries + 1
      invariant old(world.summaries) <= world.summaries
      invariant |world.summaries| == |old(world.summaries)| + attempt - 1
      invariant forall i | |old(world.summaries)| <= i < |world.summaries| :: world.summaries[i] == request
      invariant AllTransport(world.replies, |world.primary| + |old(world.summaries)|, |world.primary| + |world.summaries|)
      invariant world.stops == old(world.stops)
      decreases config.maxModelRetries + 1 - attempt
    {
      var stop := world.IsCancelled();
      if stop { return Err(Cancelled); }
      var reply := world.SendSummary(request);
      var error;
      if reply.Refused? {
        error := reply.error;
      } else {
        var collected := CollectResponse(world, reply.items);
        if collected.Ok? {
          if collected.value.finishReason.ToolCalls? || collected.value.message.toolCalls != [] {
            return Err(InvalidModelStream);
          }
          return Ok(collected.value);
        }
        if collected.error.OfAgent? { return Err(collected.error.agent); }
        error := collected.error.model;
      }
      if !error.Transport? || attempt > config.maxModelRetries {
        return Err(FromModelError(error));
      }
      attempt := attempt + 1;
      stop := world.IsCancelled();
      if stop { return Err(Cancelled); }
    }
  }

  // ---- Compaction -------------------------------------------------------

  const TURN_CONTEXT := "\n\n---\n\n**Turn Context (split turn):**\n\n"

  /** The text stored as checkpoint. */
  function CombineSummary(p: CompactionPreparation, history: Option<string>, turnPrefix: Option<string>, text: TextTools)
    : string
  {
    var past := if history.Some? then history.value
                else if p.previousSummary.Some? then p.previousSummary.value
                else "No prior history.";
    var body := if turnPrefix.None? then past
                else past + TURN_CONTEXT + turnPrefix.value;
    body + text.fileSections(p.readFiles, p.modifiedFiles)
  }

  /** The text starts with what stands for the past: the new answer, or else the earlier summary. */
  predicate StartsWithPast(p: CompactionPreparation, history: Option<string>, summary: string) {
    if history.Some? then history.value <= summary
    else if p.previousSummary.Some? then p.previousSummary.value <= summary
    else "No prior history." <= summary
  }

  predicate EndsWith(s: string, end: string) {
    |end| <= |s| && s[|s| - |end|..] == end
  }

  /** Which parts the stored text holds, and in which order. */
  lemma CombinedHolds(p: CompactionPreparation, history: Option<string>, turnPrefix: Option<string>, text: TextTools)
    ensures var s, files := CombineSummary(p, history, turnPrefix, text), text.fileSections(p.readFiles, p.modifiedFiles);
            && StartsWithPast(p, history, s)
            && EndsWith(s, if turnPrefix.Some? then TURN_CONTEXT + turnPrefix.value + files else files)
            && |s| == (if history.Some? then |history.value|
                       else if p.previousSummary.Some? then |p.previousSummary.value| else |"No prior history."|)
                    + (if turnPrefix.Some? then |TURN_CONTEXT| + |turnPrefix.value| else 0) + |files|
  {
    var past := if history.Some? then history.value
                else if p.previousSummary.Some? then p.previousSummary.value
                else "No prior history.";
    var files := text.fileSections(p.readFiles, p.modifiedFiles);
    if turnPrefix.Some? {
      assert CombineSummary(p, history, turnPrefix, text) == past + (TURN_CONTEXT + turnPrefix.value + files);
    }
  }

  /** Writes the text to store: past, split turn, file lists. */
  method CombineAnswers(p: CompactionPreparation, history: Option<string>, turnPrefix: Option<string>, text: TextTools)
    returns (summary: string)
    ensures summary == CombineSummary(p, history, turnPrefix, text) && StartsWithPast(p, history, summary)
  {
    CombinedHolds(p, history, turnPrefix, text);
    summary := "No prior history.";
    if history.Some? {
      summary := history.value;
    } else if p.previousSummary.Some? {
      summary := p.previousSummary.value;
    }
    if turnPrefix.Some? {
      summary := summary + TURN_CONTEXT + turnPrefix.value;
    }
    summary := summary + text.fileSections(p.readFiles, p.modifiedFiles);
  }

  /** Tokens known, or none. */
  function Known(count: Option<U64>): nat {
    if count.Some? then count.value else 0
  }

  /** The count is that of both, clamped to 64 bits, and missing only if both are. */
  predicate IsSum(a: Option<U64>, b: Option<U64>, sum: Option<U64>) {
    (sum.None? <==> a.None? && b.None?) && (sum.Some? ==> sum.value == ToU64(Known(a) + Known(b)))
  }

  /** The usage is that of both answers together, count by count. */
  predicate IsUsageOf(a: Option<ModelUsage>, b: Option<ModelUsage>, total: ModelUsage) {
    var first, second := if a.Some? then a.value else NO_USAGE, if b.Some? then b.value else NO_USAGE;
    && total.inputTokens == ToU64(first.inputTokens + second.inputTokens)
    && total.outputTokens == ToU64(first.outputTokens + second.outputTokens)
    && IsSum(first.cacheReadInputTokens, second.cacheReadInputTokens, total.cacheReadInputTokens)
    && IsSum(first.reasoningOutputTokens, second.reasoningOutputTokens, total.reasoningOutputTokens)
  }

  function AddOptional(a: Option<U64>, b: Option<U64>): Option<U64> {
    if a.None? then b else if b.None? then a else Some(SatAdd(a.value, b.value))
  }

  method CombineUsage(first: Option<ModelUsage>, second: Option<ModelUsage>) returns (total: ModelUsage)
    ensures IsUsageOf(first, second, total)
  {
    total := NO_USAGE;
    var reported := (if first.Some? then [first.value] else []) + (if second.Some? then [second.value] else []);
    for i := 0 to |reported|
      invariant i == 0 ==> total == NO_USAGE
      invariant i == 1 ==> total == reported[0]
      invariant i == 2 ==> IsUsageOf(Some(reported[0]), Some(reported[1]), total)
    {
      var usage := reported[i];
      total := ModelUsage(SatAdd(total.inputTokens, usage.inputTokens), SatAdd(total.outputTokens, usage.outputTokens),
                          AddOptional(total.cacheReadInputTokens, usage.cacheReadInputTokens),
                          AddOptional(total.reasoningOutputTokens, usage.reasoningOutputTokens));
    }
  }

  function KeepBudget(config: AgentConfig): EffectiveConfig {
    Effective(config.compaction, config.contextWindow, config.maxOutputTokens)
  }

  /** The log gained exactly the checkpoint of a preparation made from it. */
  ghost predicate Compacted(before: Log, after: Log, keep: U64, parse: PathParser) {
    exists p: CompactionPreparation, record: CompactionRecord
      {:trigger PreparedFrom(before, keep, parse, p), RecordOf(p, record)} ::
      PreparedFrom(before, keep, parse, p) && RecordOf(p, record) && after == before + [CompactionEntry(before, record)]
  }

  /** The answers that a checkpoint is made from. */
  datatype Summaries = Summaries(history: Option<CollectedResponse>, turnPrefix: Option<CollectedResponse>)

  function HistoryRequest(config: AgentConfig, p: CompactionPreparation): SummaryRequest {
    HistorySummary(p.history, p.previousSummary, KeepBudget(config).summaryOutput)
  }

  function TurnPrefixRequest(config: AgentConfig, p: CompactionPreparation): SummaryRequest {
    TurnPrefixSummary(p.turnPrefix, KeepBudget(config).turnPrefixOutput)
  }

  /** The `n`-th request of all asked for a summary, and this is what was answered. */
  ghost predicate GivenBy(replies: nat -> ModelReply, n: int, answer: Option<CollectedResponse>) {
    n >= 0 && answer.Some? && Yields(replies(n), answer.value) && !CallsTools(answer.value)
  }

  /** Summaries fail because cancellation was requested, or because the last request was given up. */
  ghost predicate SummaryFails<T>(world: World, retries: nat, was: Marks, now: Marks, r: Result<T, AgentError>) {
    && was.Leads(now)
    && (was.stops < now.stops ==> r == Err(Cancelled))
    && (r.Err? ==> (r.error == Cancelled && was.stops < now.stops) || Unanswered(world, now, retries, false, r.error))
  }

  /** Asks for a summary, if there is anything to summarize. */
  method SummarizePart(world: World, config: AgentConfig, wanted: bool, request: SummaryRequest)
    returns (r: Result<Option<CollectedResponse>, AgentError>)
    modifies world`summaries, world`polls, world`stops
    ensures old(world.summaries) <= world.summaries
    ensures |world.summaries| <= |old(world.summaries)| + config.maxModelRetries + 1
    ensures Asked(world.summaries, |old(world.summaries)|, |world.summaries|, request)
    ensures !wanted ==> r == Ok(None) && world.summaries == old(world.summaries)
    ensures r.Ok? && wanted ==> |old(world.summaries)| < |world.summaries|
    ensures r.Ok? && wanted ==> GivenBy(world.replies, |world.primary| + |world.summaries| - 1, r.value)
    ensures SummaryFails(world, config.maxModelRetries, old(MarksOf(world)), MarksOf(world), r)
  {
    if !wanted { return Ok(None); }
    var answer := RequestSummary(world, config, request);
    return if answer.Ok? then Ok(Some(answer.value)) else Err(answer.error);
  }

  /** The summary requests in `[from, to)` are all this one. */
  ghost predicate Asked(summaries: seq<SummaryRequest>, from: nat, to: nat, request: SummaryRequest) {
    to <= |summaries| && forall i | from <= i < to :: summaries[i] == request
  }

  lemma StillAsked(before: seq<SummaryRequest>, after: seq<SummaryRequest>, from: nat, to: nat, request: SummaryRequest)
    requires before <= after && Asked(before, from, to, request)
    ensures Asked(after, from, to, request)
  {
  }

  /** Asks for the summaries a preparation needs: first one for history, then one for a split turn. */
  method Summarize(world: World, config: AgentConfig, p: CompactionPreparation, first: SummaryRequest,
                   second: SummaryRequest)
    returns (r: Result<Summaries, AgentError>, ghost split: nat)
    modifies world`summaries, world`polls, world`stops
    ensures |world.summaries| <= |old(world.summaries)| + 2 * (config.maxModelRetries + 1)
    ensures old(world.summaries) <= world.summaries && |old(world.summaries)| <= split <= |world.summaries|
    ensures Asked(world.summaries, |old(world.summaries)|, split, first)
    ensures Asked(world.summaries, split, |world.summaries|, second)
    ensures r.Ok? ==> if p.history == [] then r.value.history.None?
                      else && |old(world.summaries)| < split
                           && GivenBy(world.replies, |world.primary| + split - 1, r.value.history)
    ensures r.Ok? ==> if p.turnPrefix == [] then r.value.turnPrefix.None?
                      else && split < |world.summaries|
                           && GivenBy(world.replies, |world.primary| + |world.summaries| - 1, r.value.turnPrefix)
    ensures SummaryFails(world, config.maxModelRetries, old(MarksOf(world)), MarksOf(world), r)
  {
    var history := SummarizePart(world, config, p.history != [], first);
    split := |world.summaries|;
    if history.Err? { return Err(history.error), split; }
    r := SummarizeTurn(world, config, p, history.value, first, second, |old(world.summaries)|);
  }

  /** The second half: the turn prefix, once the history is answered. */
  method SummarizeTurn(world: World, config: AgentConfig, p: CompactionPreparation, history: Option<CollectedResponse>,
                       ghost first: SummaryRequest, second: SummaryRequest, ghost from: nat)
    returns (r: Result<Summaries, AgentError>)
    requires Asked(world.summaries, from, |world.summaries|, first)
    modifies world`summaries, world`polls, world`stops
    ensures old(world.summaries) <= world.summaries
    ensures |world.summaries| <= |old(world.summaries)| + config.maxModelRetries + 1
    ensures Asked(world.summaries, from, |old(world.summaries)|, first)
    ensures Asked(world.summaries, |old(world.summaries)|, |world.summaries|, second)
    ensures r.Ok? ==> r.value.history == history
    ensures r.Ok? ==> if p.turnPrefix == [] then r.value.turnPrefix.None?
                      else && |old(world.summaries)| < |world.summaries|
                           && GivenBy(world.replies, |world.primary| + |world.summaries| - 1, r.value.turnPrefix)
    ensures SummaryFails(world, config.maxModelRetries, old(MarksOf(world)), MarksOf(world), r)
  {
    ghost var before := world.summaries;
    var turnPrefix := SummarizePart(world, config, p.turnPrefix != [], second);
    StillAsked(before, world.summaries, from, |before|, first);
    return if turnPrefix.Ok? then Ok(Summaries(history, turnPrefix.value)) else Err(turnPrefix.error);
  }

  /** What a checkpoint was made from; requests before `split` were about the history, the others about the prefix. */
  datatype Basis = Basis(p: CompactionPreparation, answers: Summaries, split: nat)

  /** Each part that is not empty was answered by the last reply to a request about it. */
  ghost predicate Given(replies: nat -> ModelReply, primary: nat, from: nat, to: nat, basis: Basis) {
    && (if basis.p.history == [] then basis.answers.history.None?
        else from < basis.split && GivenBy(replies, primary + basis.split - 1, basis.answers.history))
    && (if basis.p.turnPrefix == [] then basis.answers.turnPrefix.None?
        else basis.split < to && GivenBy(replies, primary + to - 1, basis.answers.turnPrefix))
  }

  /** First the history was asked about, with the earlier summary to update, then the turn prefix. */
  ghost predicate AskedAbout(summaries: seq<SummaryRequest>, from: nat, config: AgentConfig, basis: Basis) {
    && Asked(summaries, from, basis.split, HistoryRequest(config, basis.p))
    && Asked(summaries, basis.split, |summaries|, TurnPrefixRequest(config, basis.p))
  }

  function TextIn(response: Option<CollectedResponse>): Option<string> {
    if response.Some? then Some(response.value.message.content) else None
  }

  function UsageIn(response: Option<CollectedResponse>): Option<ModelUsage> {
    if response.Some? then response.value.message.usage else None
  }

  /** The record holds the combined answers and what the preparation found. */
  ghost predicate Summarizes(p: CompactionPreparation, a: Summaries, text: TextTools, record: CompactionRecord) {
    && RecordOf(p, record) && record.tokensBefore == p.tokensBefore
    && record.summary == CombineSummary(p, TextIn(a.history), TextIn(a.turnPrefix), text) && !Blank(record.summary)
    && IsUsageOf(UsageIn(a.history), UsageIn(a.turnPrefix), record.usage)
  }

  /** The log gained exactly the checkpoint that these answers about what is discarded make. */
  ghost predicate Checkpointed(before: Log, after: Log, config: AgentConfig, text: TextTools, basis: Basis,
                               record: CompactionRecord)
  {
    && PreparedFrom(before, KeepBudget(config).keepRecent, text.parse, basis.p)
    && Summarizes(basis.p, basis.answers, text, record)
    && after == before + [CompactionEntry(before, record)] && ValidLog(after)
    && record.estimatedTokensAfter == ToU64(EstimateMessages(EffectiveMessages(after)))
  }

  /** Nothing compacted earlier is dropped: its summary starts the new one, unless the history was asked about with it. */
  lemma EarlierSummaryCarriesOn(before: Log, after: Log, config: AgentConfig, text: TextTools, basis: Basis,
                                record: CompactionRecord, replies: nat -> ModelReply, primary: nat, from: nat, to: nat)
    requires Checkpointed(before, after, config, text, basis, record) && Given(replies, primary, from, to, basis)
    ensures forall s | EarlierSummary(basis.p) == [ContextSummary(s)] ::
              if basis.p.history == [] then s <= record.summary else HistoryRequest(config, basis.p).previous == Some(s)
  {
    forall s | EarlierSummary(basis.p) == [ContextSummary(s)]
      ensures if basis.p.history == [] then s <= record.summary else HistoryRequest(config, basis.p).previous == Some(s)
    {
      assert [ContextSummary(s)][0] == EarlierSummary(basis.p)[0];
      CombinedHolds(basis.p, TextIn(basis.answers.history), TextIn(basis.answers.turnPrefix), text);
    }
  }

  lemma CheckpointedIsCompacted(before: Log, after: Log, config: AgentConfig, text: TextTools, basis: Basis,
                                record: CompactionRecord)
    requires Checkpointed(before, after, config, text, basis, record)
    ensures Compacted(before, after, KeepBudget(config).keepRecent, text.parse)
  {
  }

  /** The answers about what would be discarded came to nothing but white space. */
  ghost predicate SaidNothing(world: World, config: AgentConfig, text: TextTools, log: Log, now: Marks) {
    exists from: nat, basis: Basis {:trigger Given(world.replies, now.primary, from, now.summaries, basis)} ::
      && PreparedFrom(log, KeepBudget(config).keepRecent, text.parse, basis.p)
      && Given(world.replies, now.primary, from, now.summaries, basis)
      && Blank(CombineSummary(basis.p, TextIn(basis.answers.history), TextIn(basis.answers.turnPrefix), text))
  }

  /** Why a compaction of a valid session fails. */
  ghost predicate CompactionFails(world: World, config: AgentConfig, text: TextTools, log: Log, was: Marks, now: Marks,
                                  error: AgentError)
  {
    || (error == Cancelled && was.stops < now.stops)
    || Unanswered(world, now, config.maxModelRetries, false, error)
    || (error == NothingToCompact && ValidLog(log) && NothingToDiscard(log, KeepBudget(config).keepRecent))
    || (error == InvalidModelStream && SaidNothing(world, config, text, log, now))
  }

  /** A compaction either appends exactly its checkpoint or leaves the session as it was. */
  method CompactSession(world: World, config: AgentConfig, text: TextTools, session: AgentSession, reason: CompactionReason)
    returns (r: Result<CompactionRecord, AgentError>, ghost basis: Basis)
    modifies session, world`summaries, world`polls, world`stops, world`compactions
    ensures |world.summaries| <= |old(world.summaries)| + 2 * (config.maxModelRetries + 1)
    ensures r.Ok? ==> Checkpointed(old(session.entries), session.entries, config, text, basis, r.value)
    ensures r.Ok? ==> Given(world.replies, |world.primary|, |old(world.summaries)|, |world.summaries|, basis)
    ensures r.Ok? ==> AskedAbout(world.summaries, |old(world.summaries)|, config, basis)
    ensures world.compactions == old(world.compactions) || world.compactions == old(world.compactions) + [reason]
    ensures ValidLog(old(session.entries)) ==>
              (world.compactions == old(world.compactions) <==>
                 world.cancelled(old(world.polls))
                 || NothingToDiscard(old(session.entries), KeepBudget(config).keepRecent))
    ensures r.Err? ==> session.entries == old(session.entries)
    ensures r.Ok? ==> world.compactions == old(world.compactions) + [reason]
    ensures old(MarksOf(world)).Leads(MarksOf(world))
    ensures r.Err? && ValidLog(old(session.entries)) ==>
              CompactionFails(world, config, text, old(session.entries), old(MarksOf(world)), MarksOf(world), r.error)
    ensures r == Err(NothingToCompact) ==> world.summaries == old(world.summaries)
  {
    basis := Basis(CompactionPreparation(0, [], [], None, 0, {}, {}), Summaries(None, None), 0);
    var planned := PlanCompaction(world, config, text, session);
    if planned.Err? { return Err(planned.error), basis; }
    world.compactions := world.compactions + [reason];
    r, basis := SummarizeAndStore(world, config, text, session, planned.value);
  }

  /** Polls, and prepares a compaction if there is anything to discard. */
  method PlanCompaction(world: World, config: AgentConfig, text: TextTools, session: AgentSession)
    returns (r: Result<CompactionPreparation, AgentError>)
    modifies world`polls, world`stops
    ensures r.Ok? ==> PreparedFrom(session.entries, KeepBudget(config).keepRecent, text.parse, r.value)
    ensures ValidLog(session.entries) ==>
              (r.Err? <==> || world.cancelled(old(world.polls))
                           || NothingToDiscard(session.entries, KeepBudget(config).keepRecent))
    ensures old(MarksOf(world)).Leads(MarksOf(world))
    ensures r.Err? && ValidLog(session.entries) ==>
              || (r.error == Cancelled && old(world.stops) < world.stops)
              || (r.error == NothingToCompact && NothingToDiscard(session.entries, KeepBudget(config).keepRecent))
  {
    var stop := world.IsCancelled();
    if stop { return Err(Cancelled); }
    var effective := Effective(config.compaction, config.contextWindow, config.maxOutputTokens);
    var prepared := PrepareCompaction(session, effective, text.parse);
    if prepared.Err? { return Err(InvalidSession(prepared.error)); }
    return if prepared.value.None? then Err(NothingToCompact) else Ok(prepared.value.value);
  }

  /** Summarizes what a preparation discards and appends the checkpoint. */
  method SummarizeAndStore(world: World, config: AgentConfig, text: TextTools, session: AgentSession,
                           p: CompactionPreparation)
    returns (r: Result<CompactionRecord, AgentError>, ghost basis: Basis)
    requires PreparedFrom(session.entries, KeepBudget(config).keepRecent, text.parse, p)
    modifies session, world`summaries, world`polls, world`stops
    ensures |world.summaries| <= |old(world.summaries)| + 2 * (config.maxModelRetries + 1)
    ensures r.Ok? ==> AskedAbout(world.summaries, |old(world.summaries)|, config, basis)
    ensures r.Err? ==> session.entries == old(session.entries)
    ensures r.Ok? ==> basis.p == p && Checkpointed(old(session.entries), session.entries, config, text, basis, r.value)
    ensures r.Ok? ==> Given(world.replies, |world.primary|, |old(world.summaries)|, |world.summaries|, basis)
    ensures old(MarksOf(world)).Leads(MarksOf(world))
    ensures r.Err? ==> CompactionFails(world, config, text, old(session.entries), old(MarksOf(world)), MarksOf(world), r.error)
    ensures r != Err(NothingToCompact)
  {
    var given;
    given, basis := AskForSummaries(world, config, p);
    if given.Err? { return Err(given.error), basis; }
    r := StoreSummary(session, config, text, p, given.value, basis);
  }

  method AskForSummaries(world: World, config: AgentConfig, p: CompactionPreparation)
    returns (r: Result<Summaries, AgentError>, ghost basis: Basis)
    modifies world`summaries, world`polls, world`stops
    ensures |world.summaries| <= |old(world.summaries)| + 2 * (config.maxModelRetries + 1)
    ensures r.Ok? ==> AskedAbout(world.summaries, |old(world.summaries)|, config, basis)
    ensures r.Ok? ==> basis.p == p && basis.answers == r.value
    ensures r.Ok? ==> Given(world.replies, |world.primary|, |old(world.summaries)|, |world.summaries|, basis)
    ensures SummaryFails(world, config.maxModelRetries, old(MarksOf(world)), MarksOf(world), r)
  {
    var effective := Effective(config.compaction, config.contextWindow, config.maxOutputTokens);
    var first := HistorySummary(p.history, p.previousSummary, effective.summaryOutput);
    var second := TurnPrefixSummary(p.turnPrefix, effective.turnPrefixOutput);
    ghost var split;
    r, split := Summarize(world, config, p, first, second);
    basis := Basis(p, if r.Ok? then r.value else Summaries(None, None), split);
  }

  /** Appends the checkpoint that the answers make, unless they say nothing. */
  method StoreSummary(session: AgentSession, ghost config: AgentConfig, text: TextTools, p: CompactionPreparation,
                      a: Summaries, ghost basis: Basis)
    returns (r: Result<CompactionRecord, AgentError>)
    requires PreparedFrom(session.entries, KeepBudget(config).keepRecent, text.parse, p)
    requires basis.p == p && basis.answers == a
    modifies session
    ensures r.Ok? <==> !Blank(CombineSummary(p, TextIn(a.history), TextIn(a.turnPrefix), text))
    ensures r.Err? ==> session.entries == old(session.entries) && r.error == InvalidModelStream
    ensures r.Ok? ==> Checkpointed(old(session.entries), session.entries, config, text, basis, r.value)
  {
    var history, turnPrefix, first, second := None, None, None, None;
    if a.history.Some? {
      history, first := Some(a.history.value.message.content), a.history.value.message.usage;
    }
    if a.turnPrefix.Some? {
      turnPrefix, second := Some(a.turnPrefix.value.message.content), a.turnPrefix.value.message.usage;
    }
    var summary := CombineAnswers(p, history, turnPrefix, text);
    if Blank(summary) { return Err(InvalidModelStream); }
    var usage := CombineUsage(first, second);
    r := AppendRecord(session, KeepBudget(config).keepRecent, text.parse, p,
                      CompactionRecord(summary, p.firstKept, p.tokensBefore, 0, usage, p.readFiles, p.modifiedFiles));
  }

  /** Estimates the compacted context on a copy of the session, then appends the record for good. */
  method AppendRecord(session: AgentSession, ghost keep: U64, ghost parse: PathParser, p: CompactionPreparation,
                      draft: CompactionRecord)
    returns (r: Result<CompactionRecord, AgentError>)
    requires PreparedFrom(session.entries, keep, parse, p) && RecordOf(p, draft)
    modifies session
    ensures r.Ok? && r.value.(estimatedTokensAfter := draft.estimatedTokensAfter) == draft
    ensures session.entries == old(session.entries) + [CompactionEntry(old(session.entries), r.value)]
    ensures ValidLog(session.entries)
    ensures r.value.estimatedTokensAfter == ToU64(EstimateMessages(EffectiveMessages(session.entries)))
  {
    ghost var log := session.entries;
    ValidIsContiguous(log);
    CompactionConserves(log, keep, p, draft);
    var projected := new AgentSession(session.entries);
    var appended := projected.AppendCompaction(draft);
    match appended { case Err(e) => return Err(InvalidSession(e)); case Ok(_) => }
    var context := projected.EffectiveContext();
    match context { case Err(e) => return Err(InvalidSession(e)); case Ok(_) => }
    var record := draft.(estimatedTokensAfter := ToU64(EstimateMessages(context.value)));
    CompactionConserves(log, keep, p, record);
    var stored := session.AppendCompaction(record);
    match stored { case Err(e) => return Err(InvalidSession(e)); case Ok(_) => }
    return Ok(record);
  }

  // ---- The invariant of a settled session -------------------------------

  /** Calls whose results are still missing from the log. */
  function Waiting(log: Log): Option<seq<ToolCall>> {
    Scan([], Messages(log))
  }

  /** Checkpoints cut before user or assistant messages, and every call has its results. */
  predicate Settled(log: Log) {
    ValidLog(log) && CutBoundaries(log) && Balanced(Messages(log))
  }

  /** Besides, checkpoints keep less and less, and their file lists are exact. */
  predicate Orderly(log: Log, parse: PathParser) {
    Settled(log) && Sound(log, parse)
  }

  /** What the checkpoints of the old log satisfy, those of the new one do too. */
  predicate Inherits(before: Log, after: Log, parse: PathParser) {
    && (CutBoundaries(before) ==> CutBoundaries(after))
    && (Sound(before, parse) ==> Sound(after, parse))
  }

  /** A valid log that goes on where the old one ended, with checkpoints no worse. */
  predicate Continued(before: Log, after: Log, parse: PathParser) {
    ValidLog(after) && before <= after && Messages(before) <= Messages(after) && Inherits(before, after, parse)
  }

  lemma CompactedInherits(before: Log, after: Log, keep: U64, parse: PathParser)
    requires Compacted(before, after, keep, parse)
    ensures ValidLog(after) && before <= after && Messages(after) == Messages(before)
    ensures Inherits(before, after, parse)
  {
    var p: CompactionPreparation, record: CompactionRecord
      :| PreparedFrom(before, keep, parse, p) && RecordOf(p, record)
         && after == before + [CompactionEntry(before, record)];
    CompactionConserves(before, keep, p, record);
    if CutBoundaries(before) {
      CutsStay(before, CompactionEntry(before, record));
    }
    if Sound(before, parse) {
      CompactionKeepsSound(before, keep, parse, p, record);
    }
  }

  /** Appends one message of a running conversation. */
  method AppendSessionMessage(session: AgentSession, ghost parse: PathParser, m: ModelMessage)
    requires ValidLog(session.entries) && (m.System? <==> session.entries == [])
    modifies session
    ensures session.entries == old(session.entries) + [MessageEntry(old(session.entries), m)]
    ensures ValidLog(session.entries)
    ensures Messages(session.entries) == Messages(old(session.entries)) + [m]
    ensures Inherits(old(session.entries), session.entries, parse)
    ensures Waiting(session.entries)
         == match Waiting(old(session.entries)) case None => None case Some(calls) => Advance(calls, m)
  {
    ghost var log := session.entries;
    ValidIsContiguous(log);
    MessageExtendsContext(log, m);
    MessagesSnoc(log, MessageEntry(log, m));
    ScanSnoc([], Messages(log), m);
    if CutBoundaries(log) {
      CutsStay(log, MessageEntry(log, m));
    }
    if Sound(log, parse) {
      MessageKeepsSound(log, parse, m);
    }
    var appended := session.AppendMessage(m);
  }

  /** The message records the call's output, or the message of its failure. */
  predicate Records(m: ModelMessage, call: ToolCall, outcome: ToolOutcome) {
    match outcome
    case Output(content) => m == Tool(call.id, call.name, content, false)
    case Failed(message) => m == Tool(call.id, call.name, message, true)
    case ToolCancelled => false
  }

  /** One result per call, in the order of the calls. */
  ghost predicate AreResults(ms: seq<ModelMessage>, calls: seq<ToolCall>, outcomes: nat -> ToolOutcome, from: nat) {
    |ms| == |calls| && forall i | 0 <= i < |ms| :: Records(ms[i], calls[i], outcomes(from + i))
  }

  lemma ResultsSnoc(ms: seq<ModelMessage>, m: ModelMessage, calls: seq<ToolCall>, k: nat,
                    outcomes: nat -> ToolOutcome, from: nat)
    requires k < |calls| && AreResults(ms, calls[..k], outcomes, from) && Records(m, calls[k], outcomes(from + k))
    ensures AreResults(ms + [m], calls[..k + 1], outcomes, from)
  {
  }

  /** Tool calls only fail by cancellation: a poll found it, or the last tool executed did. */
  ghost predicate ToolsFail(world: World, was: Marks, now: Marks, error: AgentError) {
    && error == Cancelled && was.Leads(now)
    && (was.stops < now.stops || (was.executed < now.executed && world.outcomes(now.executed - 1).ToolCancelled?))
  }

  /** Runs one call and records its output or its failure as the result. */
  method ExecuteToolCall(world: World, session: AgentSession, ghost parse: PathParser, call: ToolCall)
    returns (r: Result<ModelMessage, AgentError>)
    requires ValidLog(session.entries) && session.entries != []
    modifies session, world`executed, world`polls, world`stops
    ensures ValidLog(session.entries) && old(session.entries) <= session.entries
    ensures r.Err? ==> session.entries == old(session.entries)
    ensures Inherits(old(session.entries), session.entries, parse)
    ensures r.Ok? ==> world.executed == old(world.executed) + [call] && world.stops == old(world.stops)
    ensures r.Err? ==> ToolsFail(world, old(MarksOf(world)), MarksOf(world), r.error)
    ensures r.Ok? ==>
              && Messages(session.entries) == Messages(old(session.entries)) + [r.value]
              && Records(r.value, call, world.outcomes(|old(world.executed)|))
  {
    var stop := world.IsCancelled();
    if stop { return Err(Cancelled); }
    var outcome := world.Execute(call);
    var result;
    match outcome {
      case Output(content) => result := Tool(call.id, call.name, content, false);
      case Failed(message) => result := Tool(call.id, call.name, message, true);
      case ToolCancelled => return Err(Cancelled);
    }
    AppendSessionMessage(session, parse, result);
    return Ok(result);
  }

  /** Runs the calls of one response in order, one result each. */
  method ExecuteToolCalls(world: World, session: AgentSession, ghost parse: PathParser, calls: seq<ToolCall>)
    returns (r: Result<(), AgentError>, ghost results: seq<ModelMessage>)
    requires ValidLog(session.entries) && session.entries != []
    modifies session, world`executed, world`polls, world`stops
    ensures ValidLog(session.entries) && old(session.entries) <= session.entries
    ensures Inherits(old(session.entries), session.entries, parse)
    ensures Messages(session.entries) == Messages(old(session.entries)) + results
    ensures r.Ok? ==> world.executed == old(world.executed) + calls && world.stops == old(world.stops)
    ensures r.Err? ==> ToolsFail(world, old(MarksOf(world)), MarksOf(world), r.error)
    ensures r.Ok? ==> AreResults(results, calls, world.outcomes, |old(world.executed)|)
    ensures r.Ok? && Waiting(old(session.entries)) == Some(calls) ==> Waiting(session.entries) == Some([])
  {
    var k := 0;
    ghost var log, was := session.entries, MarksOf(world);
    results := [];
    while k < |calls|
      invariant 0 <= k <= |calls| && Answered(log, session.entries, parse, results, calls[..k], world, was)
      invariant world.executed == old(world.executed) + calls[..k] && world.stops == was.stops
    {
      var answered;
      answered, results := AnswerNext(world, session, parse, calls, k, log, results, was);
      if answered.Err? { return Err(answered.error), results; }
      k := k + 1;
    }
    assert calls[..k] == calls;
    ScanConcat([], Messages(log), results);
    AnswersSettle(calls, results);
    return Ok(()), results;
  }

  /** The log gained these results, one for each of the calls. */
  ghost predicate Answered(before: Log, after: Log, parse: PathParser, results: seq<ModelMessage>, calls: seq<ToolCall>,
                           world: World, was: Marks)
  {
    && ValidLog(after) && before <= after && after != [] && Inherits(before, after, parse)
    && Messages(after) == Messages(before) + results && AreResults(results, calls, world.outcomes, was.executed)
  }

  /** Answers the next of the calls. */
  method AnswerNext(world: World, session: AgentSession, ghost parse: PathParser, calls: seq<ToolCall>, k: nat,
                    ghost log: Log, ghost results: seq<ModelMessage>, ghost was: Marks)
    returns (r: Result<(), AgentError>, ghost results': seq<ModelMessage>)
    requires k < |calls| && Answered(log, session.entries, parse, results, calls[..k], world, was)
    requires was.Leads(MarksOf(world)) && world.stops == was.stops && |world.executed| == was.executed + k
    modifies session, world`executed, world`polls, world`stops
    ensures r.Ok? ==> Answered(log, session.entries, parse, results', calls[..k + 1], world, was)
    ensures r.Ok? ==> world.executed == old(world.executed) + [calls[k]] && world.stops == was.stops
    ensures r.Ok? ==> calls[..k + 1] == calls[..k] + [calls[k]]
    ensures r.Err? ==> session.entries == old(session.entries) && results' == results
    ensures r.Err? ==> ToolsFail(world, was, MarksOf(world), r.error)
  {
    ghost var before := session.entries;
    var answered := ExecuteToolCall(world, session, parse, calls[k]);
    if answered.Err? { return Err(answered.error), results; }
    results' := results + [answered.value];
    AnsweredSnoc(log, before, session.entries, parse, results, answered.value, calls, k, world, was);
    return Ok(()), results';
  }

  lemma AnsweredSnoc(log: Log, before: Log, after: Log, parse: PathParser, results: seq<ModelMessage>, m: ModelMessage,
                     calls: seq<ToolCall>, k: nat, world: World, was: Marks)
    requires k < |calls| && Answered(log, before, parse, results, calls[..k], world, was)
    requires ValidLog(after) && before <= after && Inherits(before, after, parse)
    requires Messages(after) == Messages(before) + [m] && Records(m, calls[k], world.outcomes(was.executed + k))
    ensures Answered(log, after, parse, results + [m], calls[..k + 1], world, was)
  {
    assert Messages(log) + results + [m] == Messages(log) + (results + [m]);
    ResultsSnoc(results, m, calls, k, world.outcomes, was.executed);
  }

  // ---- Overflow recovery and the step loop ------------------------------

  ghost predicate AllPaired(requests: seq<ModelRequest>) {
    forall i | 0 <= i < |requests| :: Paired(requests[i].messages)
  }

  /** The request shows the effective context of the log. */
  predicate Shows(request: ModelRequest, log: Log, config: AgentConfig, tools: seq<ToolDefinition>) {
    ValidLog(log) && request == ModelRequest(EffectiveMessages(log), tools, config.maxOutputTokens)
  }

  /**
   * The requests from `from` on show these logs, each of which continues the
   * one before it; the first continues `base`, and `now` the last.
   */
  ghost predicate MadeFrom(requests: seq<ModelRequest>, from: nat, config: AgentConfig, tools: seq<ToolDefinition>,
                           logs: seq<Log>, base: Log, now: Log)
  {
    && from + |logs| == |requests| && base <= now
    && (forall i | 0 <= i < |logs| :: base <= logs[i] <= now && Shows(requests[from + i], logs[i], config, tools))
    && (forall i, j | 0 <= i < j < |logs| :: logs[i] <= logs[j])
  }

  predicate LastIs(logs: seq<Log>, log: Log) {
    logs != [] && logs[|logs| - 1] == log
  }

  lemma LogGrows(requests: seq<ModelRequest>, from: nat, config: AgentConfig, tools: seq<ToolDefinition>,
                 logs: seq<Log>, base: Log, before: Log, now: Log)
    requires MadeFrom(requests, from, config, tools, logs, base, before) && before <= now
    ensures MadeFrom(requests, from, config, tools, logs, base, now)
  {
  }

  /** Adds requests that all show the log as it is now. */
  lemma ShowMore(before: seq<ModelRequest>, after: seq<ModelRequest>, from: nat, config: AgentConfig,
                 tools: seq<ToolDefinition>, logs: seq<Log>, base: Log, now: Log)
    requires MadeFrom(before, from, config, tools, logs, base, now) && before <= after
    requires forall i | |before| <= i < |after| :: Shows(after[i], now, config, tools)
    ensures MadeFrom(after, from, config, tools, logs + seq(|after| - |before|, _ => now), base, now)
    ensures Settled(now) && AllPaired(before) ==> AllPaired(after)
  {
    if Settled(now) {
      ContextIsPaired(now);
    }
    var more := logs + seq(|after| - |before|, _ => now);
    forall i | 0 <= i < |more|
      ensures base <= more[i] <= now && Shows(after[from + i], more[i], config, tools)
    {
      if i < |logs| {
        assert after[from + i] == before[from + i];
      }
    }
  }

  /** Sends the effective context of the session. */
  method SendContext(world: World, config: AgentConfig, session: AgentSession, tools: seq<ToolDefinition>,
                     ghost from: nat, ghost base: Log, ghost logs: seq<Log>)
    returns (r: Result<CollectedResponse, AgentError>, ghost logs': seq<Log>)
    requires ValidLog(session.entries) && MadeFrom(world.primary, from, config, tools, logs, base, session.entries)
    modifies world`primary, world`polls, world`stops
    ensures |world.primary| <= |old(world.primary)| + config.maxModelRetries + 1
    ensures MadeFrom(world.primary, from, config, tools, logs', base, session.entries)
    ensures Settled(session.entries) && old(AllPaired(world.primary)) ==> AllPaired(world.primary)
    ensures old(world.primary) <= world.primary
    ensures r.Ok? ==> LastYields(world, MarksOf(world), r.value) && LastIs(logs', session.entries)
    ensures r.Ok? ==> |old(world.primary)| < |world.primary|
    ensures old(MarksOf(world)).Leads(MarksOf(world))
    ensures r.Err? ==> RequestFails(world, config.maxModelRetries, old(MarksOf(world)), MarksOf(world), r.error)
  {
    var context := session.EffectiveContext();
    match context { case Err(e) => return Err(InvalidSession(e)), logs; case Ok(_) => }
    r, logs' := SendMessages(world, config, context.value, tools, from, base, logs, session.entries);
  }

  /** A request and its retries; the last one decides. */
  method Request(world: World, config: AgentConfig, messages: seq<ModelMessage>, tools: seq<ToolDefinition>)
    returns (r: Result<CollectedResponse, AgentError>)
    modifies world`primary, world`polls, world`stops
    ensures |world.primary| <= |old(world.primary)| + config.maxModelRetries + 1
    ensures old(world.primary) <= world.primary
    ensures forall i | |old(world.primary)| <= i < |world.primary| ::
              world.primary[i] == ModelRequest(messages, tools, config.maxOutputTokens)
    ensures r.Ok? ==> LastYields(world, MarksOf(world), r.value) && |old(world.primary)| < |world.primary|
    ensures old(MarksOf(world)).Leads(MarksOf(world))
    ensures r.Err? ==> RequestFails(world, config.maxModelRetries, old(MarksOf(world)), MarksOf(world), r.error)
  {
    r := RequestModel(world, config, messages, tools);
  }

  method SendMessages(world: World, config: AgentConfig, messages: seq<ModelMessage>, tools: seq<ToolDefinition>,
                      ghost from: nat, ghost base: Log, ghost logs: seq<Log>, ghost log: Log)
    returns (r: Result<CollectedResponse, AgentError>, ghost logs': seq<Log>)
    requires ValidLog(log) && messages == EffectiveMessages(log)
    requires MadeFrom(world.primary, from, config, tools, logs, base, log)
    modifies world`primary, world`polls, world`stops
    ensures |world.primary| <= |old(world.primary)| + config.maxModelRetries + 1
    ensures MadeFrom(world.primary, from, config, tools, logs', base, log)
    ensures Settled(log) && old(AllPaired(world.primary)) ==> AllPaired(world.primary)
    ensures old(world.primary) <= world.primary
    ensures r.Ok? ==> LastYields(world, MarksOf(world), r.value) && LastIs(logs', log)
    ensures r.Ok? ==> |old(world.primary)| < |world.primary|
    ensures old(MarksOf(world)).Leads(MarksOf(world))
    ensures r.Err? ==> RequestFails(world, config.maxModelRetries, old(MarksOf(world)), MarksOf(world), r.error)
  {
    ghost var before := world.primary;
    r := Request(world, config, messages, tools);
    ShowMore(before, world.primary, from, config, tools, logs, base, log);
    logs' := logs + seq(|world.primary| - |before|, _ => log);
  }

  /** The last of all requests was answered with this response. */
  ghost predicate LastYields(world: World, now: Marks, response: CollectedResponse) {
    now.Requests() > 0 && Yields(world.replies(now.Requests() - 1), response)
  }

  /** A primary request fails because cancellation was requested, or because it was given up. */
  ghost predicate RequestFails(world: World, retries: nat, was: Marks, now: Marks, error: AgentError) {
    (error == Cancelled && was.stops < now.stops) || Unanswered(world, now, retries, true, error)
  }

  /** Why the recovery from an overflow fails. */
  ghost predicate RecoveryFails(world: World, config: AgentConfig, text: TextTools, log: Log, was: Marks, now: Marks,
                                error: AgentError)
  {
    && config.compaction.enabled && CompactionFails(world, config, text, log, was, now, error)
    && (error == NothingToCompact ==> Unanswered(world, now, config.maxModelRetries, true, ContextOverflowed))
  }

  /** Why a request fails although an overflow is recovered from: itself, or the recovery. */
  ghost predicate ContactFails(world: World, config: AgentConfig, text: TextTools, log: Log, was: Marks, now: Marks,
                               error: AgentError)
  {
    || RequestFails(world, config.maxModelRetries, was, now, error)
    || RecoveryFails(world, config, text, log, was, now, error)
  }

  /** Requests once, and once more after compacting if the provider rejects the context as too large. */
  method RequestWithOverflowRecovery(world: World, config: AgentConfig, text: TextTools, session: AgentSession,
                                     tools: seq<ToolDefinition>, attempted: bool,
                                     ghost from: nat, ghost base: Log, ghost logs: seq<Log>)
    returns (r: Result<CollectedResponse, AgentError>, attempted': bool, ghost logs': seq<Log>)
    requires ValidLog(session.entries) && MadeFrom(world.primary, from, config, tools, logs, base, session.entries)
    modifies session, world`primary, world`summaries, world`polls, world`stops, world`compactions
    ensures ValidLog(session.entries) && old(session.entries) <= session.entries
    ensures Messages(session.entries) == Messages(old(session.entries))
    ensures attempted ==> attempted'
    ensures attempted' && !attempted ==>
              && |world.primary| <= |old(world.primary)| + 2 * (config.maxModelRetries + 1)
              && |world.summaries| <= |old(world.summaries)| + 2 * (config.maxModelRetries + 1)
              && (world.compactions == old(world.compactions)
                  || world.compactions == old(world.compactions) + [Overflow])
    ensures attempted' == attempted ==>
              && |world.primary| <= |old(world.primary)| + config.maxModelRetries + 1
              && world.summaries == old(world.summaries) && world.compactions == old(world.compactions)
              && session.entries == old(session.entries)
    ensures !config.compaction.enabled ==> attempted' == attempted
    ensures r == Err(ContextOverflowed) ==> !config.compaction.enabled || attempted'
    ensures Inherits(old(session.entries), session.entries, text.parse)
    ensures Settled(old(session.entries)) && old(AllPaired(world.primary)) ==> AllPaired(world.primary)
    ensures MadeFrom(world.primary, from, config, tools, logs', base, session.entries)
    ensures old(world.primary) <= world.primary
    ensures r.Ok? ==> LastYields(world, MarksOf(world), r.value) && LastIs(logs', session.entries)
    ensures r.Ok? ==> |old(world.primary)| < |world.primary|
    ensures old(MarksOf(world)).Leads(MarksOf(world))
    ensures r.Err? ==> ContactFails(world, config, text, session.entries, old(MarksOf(world)), MarksOf(world), r.error)
  {
    ghost var log, conversation, was := session.entries, Messages(session.entries), MarksOf(world);
    ghost var paired := Settled(log) && AllPaired(world.primary);
    attempted', logs' := attempted, logs;
    while true
      invariant ValidLog(session.entries) && log <= session.entries
      invariant Messages(session.entries) == conversation && Inherits(log, session.entries, text.parse)
      invariant attempted ==> attempted'
      invariant attempted' != attempted ==> config.compaction.enabled
      invariant attempted' == attempted ==>
                  && world.primary == old(world.primary)
                  && world.summaries == old(world.summaries) && world.compactions == old(world.compactions)
                  && session.entries == old(session.entries)
      invariant attempted' && !attempted ==>
                  && |world.primary| <= |old(world.primary)| + config.maxModelRetries + 1
                  && |world.summaries| <= |old(world.summaries)| + 2 * (config.maxModelRetries + 1)
                  && world.compactions == old(world.compactions) + [Overflow]
      invariant paired ==> AllPaired(world.primary)
      invariant old(world.primary) <= world.primary
      invariant MadeFrom(world.primary, from, config, tools, logs', base, session.entries) && was.Leads(MarksOf(world))
      decreases !attempted'
    {
      r, logs' := SendContext(world, config, session, tools, from, base, logs');
      if r.Ok? || !r.error.ContextOverflowed? || !config.compaction.enabled || attempted' {
        return;
      }
      attempted' := true;
      ghost var before := session.entries;
      var problem := Recover(world, config, text, session, was);
      LogGrows(world.primary, from, config, tools, logs', base, before, session.entries);
      if problem.Some? {
        return Err(problem.value), true, logs';
      }
    }
  }

  /** Compacts a session whose context overflowed. */
  method Recover(world: World, config: AgentConfig, text: TextTools, session: AgentSession, ghost was: Marks)
    returns (problem: Option<AgentError>)
    requires ValidLog(session.entries) && config.compaction.enabled && was.Leads(MarksOf(world))
    requires Unanswered(world, MarksOf(world), config.maxModelRetries, true, ContextOverflowed)
    modifies session, world`summaries, world`polls, world`stops, world`compactions
    ensures ValidLog(session.entries) && old(session.entries) <= session.entries
    ensures Messages(session.entries) == Messages(old(session.entries))
    ensures |world.summaries| <= |old(world.summaries)| + 2 * (config.maxModelRetries + 1)
    ensures problem.None? ==> world.compactions == old(world.compactions) + [Overflow]
    ensures world.compactions == old(world.compactions) || world.compactions == old(world.compactions) + [Overflow]
    ensures Inherits(old(session.entries), session.entries, text.parse) && was.Leads(MarksOf(world))
    ensures problem.Some? ==>
              ContactFails(world, config, text, session.entries, was, MarksOf(world), problem.value)
  {
    ghost var middle := MarksOf(world);
    var compacted := CompactConversation(world, config, text, session, Overflow);
    if compacted.Ok? { return None; }
    assert CompactionFails(world, config, text, session.entries, was, MarksOf(world), compacted.error);
    return Some(compacted.error);
  }

  /** Compacts a valid session, which keeps its conversation whatever comes of it. */
  method CompactConversation(world: World, config: AgentConfig, text: TextTools, session: AgentSession,
                             reason: CompactionReason)
    returns (r: Result<CompactionRecord, AgentError>)
    requires ValidLog(session.entries)
    modifies session, world`summaries, world`polls, world`stops, world`compactions
    ensures ValidLog(session.entries) && old(session.entries) <= session.entries
    ensures Messages(session.entries) == Messages(old(session.entries))
    ensures |world.summaries| <= |old(world.summaries)| + 2 * (config.maxModelRetries + 1)
    ensures world.compactions == old(world.compactions) || world.compactions == old(world.compactions) + [reason]
    ensures r.Ok? ==> world.compactions == old(world.compactions) + [reason]
    ensures world.compactions == old(world.compactions) <==>
              || world.cancelled(old(world.polls))
              || NothingToDiscard(old(session.entries), KeepBudget(config).keepRecent)
    ensures r.Err? ==> session.entries == old(session.entries)
    ensures Inherits(old(session.entries), session.entries, text.parse)
    ensures old(MarksOf(world)).Leads(MarksOf(world))
    ensures r.Err? ==> CompactionFails(world, config, text, session.entries, old(MarksOf(world)), MarksOf(world), r.error)
    ensures r == Err(NothingToCompact) ==> world.summaries == old(world.summaries)
  {
    ghost var before := session.entries;
    ghost var basis;
    r, basis := CompactSession(world, config, text, session, reason);
    if r.Ok? {
      CheckpointedIsCompacted(before, session.entries, config, text, basis, r.value);
      CompactedInherits(before, session.entries, KeepBudget(config).keepRecent, text.parse);
    }
  }

  /** After the final answer, compacts if the context crossed the threshold; a failure is only reported. */
  method CompactCompletedSession(world: World, config: AgentConfig, text: TextTools, session: AgentSession,
                                 tools: seq<ToolDefinition>)
    requires ValidLog(session.entries)
    modifies session, world`summaries, world`polls, world`stops, world`compactions
    ensures ValidLog(session.entries) && old(session.entries) <= session.entries
    ensures Messages(session.entries) == Messages(old(session.entries))
    ensures |world.summaries| <= |old(world.summaries)| + 2 * (config.maxModelRetries + 1)
    ensures world.compactions == old(world.compactions) || world.compactions == old(world.compactions) + [Threshold]
    ensures world.compactions == old(world.compactions) ==> session.entries == old(session.entries)
    ensures world.compactions != old(world.compactions) <==>
              && config.compaction.enabled && ShouldCompact(old(session.entries), tools, KeepBudget(config))
              && !world.cancelled(old(world.polls))
              && !NothingToDiscard(old(session.entries), KeepBudget(config).keepRecent)
    ensures Inherits(old(session.entries), session.entries, text.parse) && old(MarksOf(world)).Leads(MarksOf(world))
  {
    if !config.compaction.enabled { return; }
    var effective := Effective(config.compaction, config.contextWindow, config.maxOutputTokens);
    if !ShouldCompact(session.entries, tools, effective) { return; }
    var _ := CompactConversation(world, config, text, session, Threshold);
  }

  /** What a run starts with: the system prompt of a new session, then the user's prompt. */
  function Opening(initial: Log, systemPrompt: string, prompt: string): seq<ModelMessage> {
    (if initial == [] then [System(systemPrompt)] else []) + [User(prompt)]
  }

  /** The conversation ends with an assistant message that calls no tool. */
  predicate Concluded(ms: seq<ModelMessage>) {
    ms != [] && ms[|ms| - 1].Assistant? && ms[|ms| - 1].message.toolCalls == []
  }

  /** At most one overflow compaction, then at most one threshold compaction. */
  predicate CompactionsOfOneRun(before: seq<CompactionReason>, after: seq<CompactionReason>) {
    || after == before || after == before + [Overflow]
    || after == before + [Threshold] || after == before + [Overflow] + [Threshold]
  }

  /** Why a run does not even start. */
  predicate CannotOpen(initial: Log, systemPrompt: Result<string, AgentError>, error: AgentError) {
    if initial == [] then systemPrompt == Err(error) else error.InvalidSession? && !ValidLog(initial)
  }

  method OpenRun(session: AgentSession, ghost parse: PathParser, systemPrompt: Result<string, AgentError>, prompt: string)
    returns (r: Result<(), AgentError>)
    modifies session
    ensures r.Ok? ==> ValidLog(session.entries) && old(session.entries) < session.entries
    ensures r.Ok? ==> ValidLog(old(session.entries)) && (old(session.entries) == [] ==> systemPrompt.Ok?)
    ensures r.Ok? ==> Messages(session.entries)
                      == Messages(old(session.entries))
                         + Opening(old(session.entries), if systemPrompt.Ok? then systemPrompt.value else "", prompt)
    ensures r.Ok? ==> Inherits(old(session.entries), session.entries, parse)
    ensures r.Ok? && Settled(old(session.entries)) ==> Settled(session.entries)
    ensures r.Err? ==> session.entries == old(session.entries) && CannotOpen(old(session.entries), systemPrompt, r.error)
  {
    if session.entries == [] {
      if systemPrompt.Err? { return Err(systemPrompt.error); }
      AppendSessionMessage(session, parse, System(systemPrompt.value));
    } else {
      var context := session.EffectiveContext();
      if context.Err? { return Err(InvalidSession(context.error)); }
    }
    AppendSessionMessage(session, parse, User(prompt));
    return Ok(());
  }

  /** What was asked of the model so far. */
  datatype Tally = Tally(primary: nat, summaries: nat, compactions: seq<CompactionReason>)

  ghost function TallyOf(world: World): Tally
    reads world`primary, world`summaries, world`compactions
  {
    Tally(|world.primary|, |world.summaries|, world.compactions)
  }

  /** What one step may spend: twice as much when it takes the one overflow recovery. */
  predicate StepSpends(budget: nat, recovered: bool, done: bool, before: Tally, after: Tally) {
    && after.primary - before.primary <= (if recovered then 2 * budget else budget)
    && after.summaries - before.summaries <= (if recovered then 2 * budget else 0) + (if done then 2 * budget else 0)
    && StepCompacts(recovered, done, before.compactions, after.compactions)
  }

  predicate StepCompacts(recovered: bool, done: bool, before: seq<CompactionReason>, after: seq<CompactionReason>) {
    || after == before
    || (recovered && after == before + [Overflow])
    || (done && after == before + [Threshold])
    || (recovered && done && after == before + [Overflow] + [Threshold])
  }

  /** The bounds of a whole run. */
  predicate WithinRun(config: AgentConfig, before: Tally, after: Tally) {
    && after.primary <= before.primary + (config.maxSteps + 1) * (config.maxModelRetries + 1)
    && after.summaries <= before.summaries + 4 * (config.maxModelRetries + 1)
    && CompactionsOfOneRun(before.compactions, after.compactions)
  }

  /** The bounds after some steps of an unfinished run. */
  predicate Running(config: AgentConfig, steps: nat, attempted: bool, began: Tally, now: Tally) {
    var budget := config.maxModelRetries + 1;
    && now.primary <= began.primary + Allowed(steps + (if attempted then 1 else 0), budget)
    && now.summaries <= began.summaries + (if attempted then 2 * budget else 0)
    && (now.compactions == began.compactions || (attempted && now.compactions == began.compactions + [Overflow]))
  }

  lemma RunningIsWithin(config: AgentConfig, steps: nat, attempted: bool, began: Tally, now: Tally)
    requires steps <= config.maxSteps && Running(config, steps, attempted, began, now)
    ensures WithinRun(config, began, now)
  {
    var used, budget := steps + (if attempted then 1 else 0), config.maxModelRetries + 1;
    AllowedGrows(used, config.maxSteps + 1, budget);
    AllowedIsProduct(config.maxSteps + 1, budget);
  }

  lemma StepTallies(config: AgentConfig, step: nat, attempted: bool, attempted': bool, done: bool, began: Tally,
                    before: Tally, after: Tally)
    requires step < config.maxSteps && Running(config, step, attempted, began, before) && (attempted ==> attempted')
    requires StepSpends(config.maxModelRetries + 1, attempted' != attempted, done, before, after)
    ensures WithinRun(config, began, after)
    ensures !done ==> Running(config, step + 1, attempted', began, after)
  {
    var used, budget := step + 1 + (if attempted' then 1 else 0), config.maxModelRetries + 1;
    AllowedGrows(used, config.maxSteps + 1, budget);
    AllowedIsProduct(config.maxSteps + 1, budget);
  }

  /** The response ends for tools but calls none, or was cut off while calling some. */
  predicate Unusable(response: CollectedResponse) {
    if response.message.toolCalls == [] then response.finishReason.ToolCalls? else response.finishReason.Length?
  }

  /**
   * Why a step fails: cancellation, seen by a poll, a tool or the provider; a
   * request that was given up; a response that no one can act on; or a recovery
   * from overflow that came to nothing.
   */
  ghost predicate StepFails(world: World, config: AgentConfig, text: TextTools, log: Log, was: Marks, now: Marks,
                            error: AgentError)
  {
    || ToolsFail(world, was, now, error)
    || (error == InvalidModelStream && exists response :: Unusable(response) && LastYields(world, now, response))
    || ContactFails(world, config, text, log, was, now, error)
  }

  // ---- What a run records -----------------------------------------------

  /**
   * One response of a run: how many requests the model had been sent by then,
   * the log that the last of them showed, the number of its reply among all
   * replies, how many tools had been executed before, and the results of the
   * calls it makes.
   */
  datatype Exchange = Exchange(requests: nat, shown: Log, asked: nat, response: CollectedResponse, executed: nat,
                               results: seq<ModelMessage>)

  /** The exchanges of a run, in order. */
  datatype Dialogue = Silence | Reply(earlier: Dialogue, last: Exchange)

  /** The conversation that the exchanges make: each response, and right after it the results of its calls. */
  function Spoken(d: Dialogue): seq<ModelMessage> {
    match d
    case Silence => []
    case Reply(earlier, x) => Spoken(earlier) + [Assistant(x.response.message)] + x.results
  }

  /** The calls that the exchanges make, in order. */
  function Called(d: Dialogue): seq<ToolCall> {
    match d
    case Silence => []
    case Reply(earlier, x) => Called(earlier) + x.response.message.toolCalls
  }

  /** The response is what that reply spells out, and the request showed the conversation before it. */
  ghost predicate Heard(world: World, primary: seq<ModelRequest>, config: AgentConfig, tools: seq<ToolDefinition>,
                        x: Exchange, before: seq<ModelMessage>)
  {
    && Yields(world.replies(x.asked), x.response)
    && 0 < x.requests <= |primary| && Shows(primary[x.requests - 1], x.shown, config, tools)
    && Messages(x.shown) == before
  }

  /** The conversation grew by the response and its results, and exactly its calls were executed. */
  ghost predicate Took(world: World, x: Exchange, before: seq<ModelMessage>, after: seq<ModelMessage>,
                       executed: seq<ToolCall>, executed': seq<ToolCall>)
  {
    && after == before + [Assistant(x.response.message)] + x.results
    && x.executed == |executed| && AreResults(x.results, x.response.message.toolCalls, world.outcomes, x.executed)
    && executed' == executed + x.response.message.toolCalls
  }

  /** The response was heard between these numbers of requests, and taken into the conversation. */
  ghost predicate Exchanged(world: World, primary: seq<ModelRequest>, config: AgentConfig, tools: seq<ToolDefinition>,
                            x: Exchange, before: seq<ModelMessage>, after: seq<ModelMessage>,
                            executed: seq<ToolCall>, executed': seq<ToolCall>, first: nat, requests: nat)
  {
    && first <= x.asked < requests
    && Heard(world, primary, config, tools, x, before) && Took(world, x, before, after, executed, executed')
  }

  lemma IsHeard(world: World, primary: seq<ModelRequest>, config: AgentConfig, tools: seq<ToolDefinition>,
                from: nat, base: Log, logs: seq<Log>, x: Exchange, middle: Marks)
    requires MadeFrom(primary, from, config, tools, logs, base, x.shown) && LastIs(logs, x.shown)
    requires LastYields(world, middle, x.response) && x.requests == |primary| && x.asked == middle.Requests() - 1
    ensures Heard(world, primary, config, tools, x, Messages(x.shown))
  {
    var last := |logs| - 1;
    assert Shows(primary[from + last], logs[last], config, tools);
  }

  /**
   * Each response is the reply to a later request than the one before it, and
   * to one that showed all that was said before it; each call has its result.
   */
  ghost predicate Recounts(world: World, primary: seq<ModelRequest>, config: AgentConfig, tools: seq<ToolDefinition>,
                           base: seq<ModelMessage>, d: Dialogue, executed: nat, first: nat, requests: nat)
  {
    match d
    case Silence => first <= requests
    case Reply(earlier, x) =>
      && x.asked < requests
      && Heard(world, primary, config, tools, x, base + Spoken(earlier))
      && x.executed == executed + |Called(earlier)|
      && AreResults(x.results, x.response.message.toolCalls, world.outcomes, x.executed)
      && Recounts(world, primary, config, tools, base, earlier, executed, first, x.asked)
  }

  lemma {:induction false} RecountsOn(world: World, primary: seq<ModelRequest>, primary': seq<ModelRequest>,
                                      config: AgentConfig, tools: seq<ToolDefinition>, base: seq<ModelMessage>,
                                      d: Dialogue, executed: nat, first: nat, requests: nat, requests': nat)
    requires Recounts(world, primary, config, tools, base, d, executed, first, requests)
    requires primary <= primary' && requests <= requests'
    ensures Recounts(world, primary', config, tools, base, d, executed, first, requests')
    decreases d
  {
    if d.Reply? {
      RecountsOn(world, primary, primary', config, tools, base, d.earlier, executed, first, d.last.asked, d.last.asked);
      assert primary'[d.last.requests - 1] == primary[d.last.requests - 1];
    }
  }

  /** The log of a run so far, and the tools it executed, are what the exchanges say. */
  ghost predicate Recounted(world: World, primary: seq<ModelRequest>, config: AgentConfig, tools: seq<ToolDefinition>,
                            base: seq<ModelMessage>, now: seq<ModelMessage>, d: Dialogue,
                            executed: seq<ToolCall>, executed': seq<ToolCall>, first: nat, requests: nat)
  {
    && Recounts(world, primary, config, tools, base, d, |executed|, first, requests)
    && now == base + Spoken(d) && executed' == executed + Called(d)
  }

  lemma RecountNext(world: World, primary: seq<ModelRequest>, primary': seq<ModelRequest>, config: AgentConfig,
                    tools: seq<ToolDefinition>, base: seq<ModelMessage>, before: seq<ModelMessage>,
                    after: seq<ModelMessage>, d: Dialogue, x: Exchange, executed: seq<ToolCall>,
                    executed': seq<ToolCall>, executed'': seq<ToolCall>, first: nat, requests: nat, requests': nat)
    requires Recounted(world, primary, config, tools, base, before, d, executed, executed', first, requests)
    requires primary <= primary' && requests <= x.asked < requests'
    requires Heard(world, primary', config, tools, x, before) && Took(world, x, before, after, executed', executed'')
    ensures Recounted(world, primary', config, tools, base, after, Reply(d, x), executed, executed'', first, requests')
  {
    RecountsOn(world, primary, primary', config, tools, base, d, |executed|, first, requests, x.asked);
    assert |executed'| == |executed| + |Called(d)|;
    RecountsReply(world, primary', config, tools, base, d, x, |executed|, first, requests');
    assert after == base + Spoken(Reply(d, x)) by {
      JoinLast(base, Spoken(d), [Assistant(x.response.message)], x.results);
    }
    assert executed'' == executed + Called(Reply(d, x)) by {
      JoinTwo(executed, Called(d), x.response.message.toolCalls);
    }
  }

  lemma RecountsReply(world: World, primary: seq<ModelRequest>, config: AgentConfig, tools: seq<ToolDefinition>,
                      base: seq<ModelMessage>, d: Dialogue, x: Exchange, executed: nat, first: nat, requests: nat)
    requires Recounts(world, primary, config, tools, base, d, executed, first, x.asked) && x.asked < requests
    requires Heard(world, primary, config, tools, x, base + Spoken(d))
    requires x.executed == executed + |Called(d)|
    requires AreResults(x.results, x.response.message.toolCalls, world.outcomes, x.executed)
    ensures Recounts(world, primary, config, tools, base, Reply(d, x), executed, first, requests)
  {
  }

  lemma JoinLast<T>(a: seq<T>, b: seq<T>, c: seq<T>, d: seq<T>)
    ensures a + (b + c + d) == a + b + c + d
  {
  }

  lemma JoinTwo<T>(a: seq<T>, b: seq<T>, c: seq<T>)
    ensures a + (b + c) == a + b + c
  {
  }

  /** A response without calls concludes the conversation, one with calls is a round more. */
  lemma TookMeans(world: World, x: Exchange, before: seq<ModelMessage>, after: seq<ModelMessage>,
                  executed: seq<ToolCall>, executed': seq<ToolCall>)
    requires Took(world, x, before, after, executed, executed')
    ensures x.response.message.toolCalls == [] ==> Concluded(after)
    ensures x.response.message.toolCalls != [] ==> Rounds(after) == Rounds(before) + 1
  {
    if x.response.message.toolCalls != [] {
      OneRound(before, x.response.message, x.results, x.response.message.toolCalls, world.outcomes, x.executed);
    }
  }

  /** One model response and what it asks for; `Ok(true)` when it was the final answer. */
  method RunStep(world: World, config: AgentConfig, text: TextTools, session: AgentSession,
                 tools: seq<ToolDefinition>, attempted: bool, ghost from: nat, ghost base: Log, ghost logs: seq<Log>)
    returns (r: Result<bool, AgentError>, attempted': bool, ghost logs': seq<Log>, ghost x: Exchange)
    requires ValidLog(session.entries) && session.entries != []
    requires MadeFrom(world.primary, from, config, tools, logs, base, session.entries)
    modifies session, world
    ensures Continued(old(session.entries), session.entries, text.parse)
    ensures r.Ok? ==> Exchanged(world, world.primary, config, tools, x, Messages(old(session.entries)),
                                Messages(session.entries), old(world.executed), world.executed,
                                old(MarksOf(world)).Requests(), MarksOf(world).Requests())
    ensures r.Ok? ==> r.value == (x.response.message.toolCalls == [])
    ensures old(world.primary) <= world.primary
    ensures attempted ==> attempted'
    ensures StepSpends(config.maxModelRetries + 1, attempted' != attempted, r == Ok(true),
                       old(TallyOf(world)), TallyOf(world))
    ensures r.Ok? && Settled(old(session.entries)) ==> Settled(session.entries)
    ensures Settled(old(session.entries)) && old(AllPaired(world.primary)) ==> AllPaired(world.primary)
    ensures MadeFrom(world.primary, from, config, tools, logs', base, session.entries)
    ensures old(MarksOf(world)).Leads(MarksOf(world))
    ensures r.Err? ==> StepFails(world, config, text, session.entries, old(MarksOf(world)), MarksOf(world), r.error)
  {
    logs' := logs;
    ghost var then' := Moment(session.entries, MarksOf(world), TallyOf(world), world.executed);
    x := Exchange(0, [], 0, CollectedResponse(AssistantMessage("", "", [], None), Stop), 0, []);
    var response;
    response, attempted', logs' := Consult(world, config, text, session, tools, attempted, from, base, logs);
    if response.Err? { return Err(response.error), attempted', logs', x; }
    r, x := Absorb(world, config, text, session, tools, response.value, attempted' != attempted, then', from, base, logs');
  }

  /** Where a step began. */
  datatype Moment = Moment(log: Log, marks: Marks, tally: Tally, executed: seq<ToolCall>)

  /** The second half of a step: the response is taken in. */
  method Absorb(world: World, config: AgentConfig, text: TextTools, session: AgentSession, tools: seq<ToolDefinition>,
                response: CollectedResponse, ghost recovered: bool, ghost start: Moment, ghost from: nat,
                ghost base: Log, ghost logs: seq<Log>)
    returns (r: Result<bool, AgentError>, ghost x: Exchange)
    requires Continued(start.log, session.entries, text.parse) && session.entries != []
    requires Messages(session.entries) == Messages(start.log) && world.executed == start.executed
    requires MadeFrom(world.primary, from, config, tools, logs, base, session.entries) && LastIs(logs, session.entries)
    requires LastYields(world, MarksOf(world), response)
    requires start.marks.Leads(MarksOf(world)) && start.marks.Requests() < MarksOf(world).Requests()
    requires StepSpends(config.maxModelRetries + 1, recovered, false, start.tally, TallyOf(world))
    modifies session, world`summaries, world`polls, world`stops, world`compactions, world`executed
    ensures Continued(start.log, session.entries, text.parse)
    ensures r.Ok? ==> Exchanged(world, world.primary, config, tools, x, Messages(start.log), Messages(session.entries),
                                start.executed, world.executed, start.marks.Requests(), MarksOf(world).Requests())
    ensures r.Ok? ==> r.value == (x.response.message.toolCalls == [])
    ensures StepSpends(config.maxModelRetries + 1, recovered, r == Ok(true), start.tally, TallyOf(world))
    ensures r.Ok? && Settled(start.log) ==> Settled(session.entries)
    ensures MadeFrom(world.primary, from, config, tools, logs, base, session.entries)
    ensures start.marks.Leads(MarksOf(world))
    ensures r.Err? ==> StepFails(world, config, text, session.entries, start.marks, MarksOf(world), r.error)
  {
    ghost var log, middle, spent := session.entries, MarksOf(world), TallyOf(world);
    r, x := TakeResponse(world, config, text, session, tools, response, middle.Requests() - 1);
    SpentTogether(config.maxModelRetries + 1, recovered, r == Ok(true), start.tally, spent, TallyOf(world));
    if r.Ok? {
      IsHeard(world, world.primary, config, tools, from, base, logs, x, middle);
    } else {
      ResponseFails(world, config, text, session.entries, response, start.marks, middle, MarksOf(world), r.error);
    }
    LogGrows(world.primary, from, config, tools, logs, base, log, session.entries);
  }

  /** The first half of a step: a poll, and a response. */
  method Consult(world: World, config: AgentConfig, text: TextTools, session: AgentSession, tools: seq<ToolDefinition>,
                 attempted: bool, ghost from: nat, ghost base: Log, ghost logs: seq<Log>)
    returns (r: Result<CollectedResponse, AgentError>, attempted': bool, ghost logs': seq<Log>)
    requires ValidLog(session.entries) && MadeFrom(world.primary, from, config, tools, logs, base, session.entries)
    modifies session, world`primary, world`summaries, world`polls, world`stops, world`compactions
    ensures Continued(old(session.entries), session.entries, text.parse)
    ensures Messages(session.entries) == Messages(old(session.entries)) && (attempted ==> attempted')
    ensures old(world.primary) <= world.primary
    ensures StepSpends(config.maxModelRetries + 1, attempted' != attempted, false, old(TallyOf(world)), TallyOf(world))
    ensures Settled(old(session.entries)) && old(AllPaired(world.primary)) ==> AllPaired(world.primary)
    ensures MadeFrom(world.primary, from, config, tools, logs', base, session.entries)
    ensures old(MarksOf(world)).Leads(MarksOf(world))
    ensures r.Ok? ==> LastYields(world, MarksOf(world), r.value) && LastIs(logs', session.entries)
    ensures r.Ok? ==> old(MarksOf(world)).Requests() < MarksOf(world).Requests()
    ensures r.Err? ==> StepFails(world, config, text, session.entries, old(MarksOf(world)), MarksOf(world), r.error)
  {
    logs' := logs;
    var stop := world.IsCancelled();
    if stop { return Err(Cancelled), attempted, logs; }
    r, attempted', logs' :=
      RequestWithOverflowRecovery(world, config, text, session, tools, attempted, from, base, logs);
  }

  lemma SpentTogether(budget: nat, recovered: bool, done: bool, a: Tally, b: Tally, c: Tally)
    requires StepSpends(budget, recovered, false, a, b) && StepSpends(budget, false, done, b, c) && b.primary == c.primary
    ensures StepSpends(budget, recovered, done, a, c)
  {
  }

  lemma ResponseFails(world: World, config: AgentConfig, text: TextTools, log: Log, response: CollectedResponse,
                      was: Marks, middle: Marks, now: Marks, error: AgentError)
    requires was.Leads(middle) && middle.Leads(now) && middle.Requests() == now.Requests()
    requires LastYields(world, middle, response)
    requires (error == InvalidModelStream && Unusable(response)) || ToolsFail(world, middle, now, error)
    ensures StepFails(world, config, text, log, was, now, error)
  {
    assert LastYields(world, now, response);
  }

  /** Messages that call tools. */
  function Rounds(ms: seq<ModelMessage>): nat {
    if ms == [] then 0
    else
      var last := ms[|ms| - 1];
      Rounds(ms[..|ms| - 1]) + if last.Assistant? && last.message.toolCalls != [] then 1 else 0
  }

  lemma {:induction false} ResultsAreNoRound(ms: seq<ModelMessage>, results: seq<ModelMessage>)
    requires forall i | 0 <= i < |results| :: results[i].Tool?
    ensures Rounds(ms + results) == Rounds(ms)
    decreases |results|
  {
    if results == [] {
      assert ms + results == ms;
    } else {
      var n := |results| - 1;
      assert (ms + results)[..|ms| + n] == ms + results[..n];
      ResultsAreNoRound(ms, results[..n]);
    }
  }

  lemma OneRound(ms: seq<ModelMessage>, message: AssistantMessage, results: seq<ModelMessage>, calls: seq<ToolCall>,
                 outcomes: nat -> ToolOutcome, from: nat)
    requires message.toolCalls != [] && AreResults(results, calls, outcomes, from)
    ensures Rounds(ms + [Assistant(message)] + results) == Rounds(ms) + 1
  {
    forall i | 0 <= i < |results|
      ensures results[i].Tool?
    {
      assert Records(results[i], calls[i], outcomes(from + i));
    }
    ResultsAreNoRound(ms + [Assistant(message)], results);
    assert (ms + [Assistant(message)])[..|ms|] == ms;
  }

  /** Appends the response, then runs the tools it calls, or ends the run if it calls none. */
  method TakeResponse(world: World, config: AgentConfig, text: TextTools, session: AgentSession,
                      tools: seq<ToolDefinition>, response: CollectedResponse, ghost asked: nat)
    returns (r: Result<bool, AgentError>, ghost x: Exchange)
    requires ValidLog(session.entries) && session.entries != []
    modifies session, world`summaries, world`polls, world`stops, world`compactions, world`executed
    ensures Continued(old(session.entries), session.entries, text.parse)
    ensures r.Ok? ==> r.value == (response.message.toolCalls == [])
    ensures x == Exchange(|world.primary|, old(session.entries), asked, response, |old(world.executed)|, x.results)
    ensures r.Ok? ==> Took(world, x, Messages(old(session.entries)), Messages(session.entries), old(world.executed), world.executed)
    ensures StepSpends(config.maxModelRetries + 1, false, r == Ok(true), old(TallyOf(world)), TallyOf(world))
    ensures r.Ok? && Settled(old(session.entries)) ==> Settled(session.entries)
    ensures old(MarksOf(world)).Leads(MarksOf(world))
    ensures r.Err? ==> world.summaries == old(world.summaries)
    ensures r.Err? ==> || (r.error == InvalidModelStream && Unusable(response))
                       || ToolsFail(world, old(MarksOf(world)), MarksOf(world), r.error)
  {
    ghost var before := Messages(session.entries);
    x := Exchange(|world.primary|, session.entries, asked, response, |world.executed|, []);
    var message := response.message;
    if response.finishReason.ToolCalls? && message.toolCalls == [] {
      return Err(InvalidModelStream), x;
    }
    AppendSessionMessage(session, text.parse, Assistant(message));
    if message.toolCalls == [] {
      CompactCompletedSession(world, config, text, session, tools);
      assert before + [Assistant(message)] + [] == before + [Assistant(message)];
      return Ok(true), x;
    }
    if response.finishReason.Length? { return Err(InvalidModelStream), x; }
    var problem;
    problem, x := MakeCalls(world, session, text, response, x, before);
    return if problem.None? then Ok(false) else Err(problem.value), x;
  }

  /** Executes the calls of a response that was just appended. */
  method MakeCalls(world: World, session: AgentSession, text: TextTools, response: CollectedResponse, ghost x: Exchange,
                   ghost before: seq<ModelMessage>)
    returns (problem: Option<AgentError>, ghost x': Exchange)
    requires ValidLog(session.entries) && session.entries != [] && x.response == response
    requires x.executed == |world.executed| && Messages(session.entries) == before + [Assistant(response.message)]
    modifies session, world`executed, world`polls, world`stops
    ensures Continued(old(session.entries), session.entries, text.parse)
    ensures x' == x.(results := x'.results)
    ensures problem.None? ==> Took(world, x', before, Messages(session.entries), old(world.executed), world.executed)
    ensures problem.None? && Waiting(old(session.entries)) == Some(response.message.toolCalls) ==>
              Waiting(session.entries) == Some([])
    ensures old(MarksOf(world)).Leads(MarksOf(world))
    ensures problem.Some? ==> ToolsFail(world, old(MarksOf(world)), MarksOf(world), problem.value)
  {
    var executed;
    ghost var results;
    executed, results := ExecuteToolCalls(world, session, text.parse, response.message.toolCalls);
    x' := x.(results := results);
    return if executed.Ok? then None else Some(executed.error), x';
  }

  /** Why a run that started fails: a step did, or every step allowed was spent on a round of tool calls. */
  ghost predicate RunFails(world: World, config: AgentConfig, text: TextTools, base: Log, last: Log, was: Marks,
                           now: Marks, error: AgentError)
  {
    || StepFails(world, config, text, last, was, now, error)
    || (error == StepLimit(config.maxSteps) && Rounds(Messages(last)) == Rounds(Messages(base)) + config.maxSteps)
  }

  /** A cause within a step is one within the run. */
  lemma FailsSince(world: World, config: AgentConfig, text: TextTools, log: Log, began: Marks, was: Marks, now: Marks,
                   error: AgentError)
    requires began.Leads(was) && was.Leads(now) && StepFails(world, config, text, log, was, now, error)
    ensures StepFails(world, config, text, log, began, now, error)
  {
  }

  /** Takes steps until one gives the final answer. */
  method RunSteps(world: World, config: AgentConfig, text: TextTools, session: AgentSession, tools: seq<ToolDefinition>)
    returns (r: Result<(), AgentError>, ghost logs: seq<Log>, ghost dialogue: Dialogue)
    requires ValidLog(session.entries) && session.entries != []
    modifies session, world
    ensures WithinRun(config, old(TallyOf(world)), TallyOf(world))
    ensures Continued(old(session.entries), session.entries, text.parse)
    ensures r.Ok? ==> Concluded(Messages(session.entries))
    ensures r.Ok? && Settled(old(session.entries)) ==> Settled(session.entries)
    ensures Settled(old(session.entries)) && old(AllPaired(world.primary)) ==> AllPaired(world.primary)
    ensures MadeFrom(world.primary, |old(world.primary)|, config, tools, logs, old(session.entries), session.entries)
    ensures old(world.primary) <= world.primary
    ensures r.Ok? ==> Recounted(world, world.primary, config, tools, Messages(old(session.entries)),
                                Messages(session.entries), dialogue, old(world.executed), world.executed,
                                old(MarksOf(world)).Requests(), MarksOf(world).Requests())
    ensures r.Err? ==> RunFails(world, config, text, old(session.entries), session.entries, old(MarksOf(world)),
                                MarksOf(world), r.error)
  {
    ghost var start := Moment(session.entries, MarksOf(world), TallyOf(world), world.executed);
    ghost var settled := Settled(session.entries);
    ghost var paired := settled && AllPaired(world.primary);
    var attempted := false;
    logs, dialogue := [], Silence;
    assert Messages(start.log) + [] == Messages(start.log) && start.executed + [] == start.executed;
    for step := 0 to config.maxSteps
      invariant Underway(world, config, text, tools, start, session.entries, world.primary, MarksOf(world), TallyOf(world),
                         world.executed, logs, dialogue, step, attempted)
      invariant settled ==> Settled(session.entries)
      invariant paired ==> AllPaired(world.primary)
      invariant old(world.primary) <= world.primary
    {
      var done;
      done, attempted, logs, dialogue := TakeStep(world, config, text, session, tools, start, logs, dialogue, step, attempted);
      if done.Err? { return Err(done.error), logs, dialogue; }
      if done.value { return Ok(()), logs, dialogue; }
    }
    RunningIsWithin(config, config.maxSteps, attempted, start.tally, TallyOf(world));
    return Err(StepLimit(config.maxSteps)), logs, dialogue;
  }

  /** A run after some steps that all called tools: where it stands, and what it said, sent and spent so far. */
  ghost predicate Underway(world: World, config: AgentConfig, text: TextTools, tools: seq<ToolDefinition>, start: Moment,
                           log: Log, primary: seq<ModelRequest>, marks: Marks, tally: Tally, executed: seq<ToolCall>,
                           logs: seq<Log>, dialogue: Dialogue, step: nat, attempted: bool)
  {
    && Continued(start.log, log, text.parse) && log != []
    && Rounds(Messages(log)) == Rounds(Messages(start.log)) + step
    && Running(config, step, attempted, start.tally, tally) && start.marks.Leads(marks)
    && MadeFrom(primary, start.marks.primary, config, tools, logs, start.log, log)
    && Recounted(world, primary, config, tools, Messages(start.log), Messages(log), dialogue, start.executed, executed,
                 start.marks.Requests(), marks.Requests())
  }

  /** One step of a run that is under way. */
  method TakeStep(world: World, config: AgentConfig, text: TextTools, session: AgentSession, tools: seq<ToolDefinition>,
                  ghost start: Moment, ghost logs: seq<Log>, ghost dialogue: Dialogue, ghost step: nat, attempted: bool)
    returns (done: Result<bool, AgentError>, attempted': bool, ghost logs': seq<Log>, ghost dialogue': Dialogue)
    requires step < config.maxSteps
    requires Underway(world, config, text, tools, start, session.entries, world.primary, MarksOf(world), TallyOf(world),
                      world.executed, logs, dialogue, step, attempted)
    modifies session, world
    ensures done == Ok(false) ==>
              Underway(world, config, text, tools, start, session.entries, world.primary, MarksOf(world), TallyOf(world),
                       world.executed, logs', dialogue', step + 1, attempted')
    ensures WithinRun(config, start.tally, TallyOf(world))
    ensures Continued(start.log, session.entries, text.parse)
    ensures MadeFrom(world.primary, start.marks.primary, config, tools, logs', start.log, session.entries)
    ensures done == Ok(true) ==> Concluded(Messages(session.entries))
    ensures done.Ok? ==> Recounted(world, world.primary, config, tools, Messages(start.log), Messages(session.entries),
                                   dialogue', start.executed, world.executed, start.marks.Requests(),
                                   MarksOf(world).Requests())
    ensures done.Err? ==>
              StepFails(world, config, text, session.entries, start.marks, MarksOf(world), done.error)
    ensures old(world.primary) <= world.primary
    ensures done.Ok? && Settled(old(session.entries)) ==> Settled(session.entries)
    ensures Settled(old(session.entries)) && old(AllPaired(world.primary)) ==> AllPaired(world.primary)
  {
    ghost var before := Moment(session.entries, MarksOf(world), TallyOf(world), world.executed);
    ghost var primary := world.primary;
    ghost var x;
    dialogue' := dialogue;
    done, attempted', logs', x :=
      RunStep(world, config, text, session, tools, attempted, start.marks.primary, start.log, logs);
    StepTallies(config, step, attempted, attempted', done == Ok(true), start.tally, before.tally, TallyOf(world));
    if done.Err? {
      FailsSince(world, config, text, session.entries, start.marks, before.marks, MarksOf(world), done.error);
    } else {
      RecountNext(world, primary, world.primary, config, tools, Messages(start.log), Messages(before.log),
                  Messages(session.entries), dialogue, x, start.executed, before.executed, world.executed,
                  start.marks.Requests(), before.marks.Requests(), MarksOf(world).Requests());
      TookMeans(world, x, Messages(before.log), Messages(session.entries), before.executed, world.executed);
      dialogue' := Reply(dialogue, x);
    }
  }

  /** What a run went through: its log after the opening, the logs its requests show, its exchanges, and where it ended. */
  datatype Course = Course(base: Log, logs: seq<Log>, dialogue: Dialogue, last: Log)

  /**
   * One prompt, run to its final answer. The caller's log is a value: a run
   * that fails leaves it as it was.
   */
  method RunInner(world: World, config: AgentConfig, text: TextTools, tools: seq<ToolDefinition>,
                  systemPrompt: Result<string, AgentError>, initial: Log, prompt: string)
    returns (r: Result<Log, AgentError>, ghost course: Course)
    modifies world
    ensures WithinRun(config, old(TallyOf(world)), TallyOf(world))
    ensures Settled(initial) && old(AllPaired(world.primary)) ==> AllPaired(world.primary)
    ensures MadeFrom(world.primary, |old(world.primary)|, config, tools, course.logs, course.base, course.last)
    ensures old(world.primary) <= world.primary
    ensures r.Ok? ==> ValidLog(initial) && ValidLog(r.value) && initial < r.value == course.last
    ensures initial <= course.base
    ensures initial < course.base ==>
              Messages(course.base)
              == Messages(initial) + Opening(initial, if systemPrompt.Ok? then systemPrompt.value else "", prompt)
    ensures r.Ok? ==> initial < course.base
    ensures r.Ok? ==> Recounted(world, world.primary, config, tools, Messages(course.base), Messages(r.value),
                                course.dialogue, old(world.executed), world.executed,
                                old(MarksOf(world)).Requests(), MarksOf(world).Requests())
    ensures r.Ok? ==> Concluded(Messages(r.value))
    ensures r.Ok? ==> Inherits(initial, r.value, text.parse) && (Settled(initial) ==> Settled(r.value))
    ensures r.Err? ==> || (course.last == initial && CannotOpen(initial, systemPrompt, r.error))
                       || RunFails(world, config, text, course.base, course.last, old(MarksOf(world)),
                                   MarksOf(world), r.error)
  {
    var session := new AgentSession(initial);
    var begun := OpenRun(session, text.parse, systemPrompt, prompt);
    course := Course(session.entries, [], Silence, session.entries);
    if begun.Err? { return Err(begun.error), course; }
    var finished;
    ghost var logs, dialogue;
    finished, logs, dialogue := RunSteps(world, config, text, session, tools);
    course := Course(course.base, logs, dialogue, session.entries);
    if finished.Err? { return Err(finished.error), course; }
    return Ok(session.entries), course;
  }

  /** Primary requests allowed for by `steps` finished steps, the overflow recovery counting as one more. */
  function Allowed(steps: nat, budget: nat): nat {
    if steps == 0 then 0 else Allowed(steps - 1, budget) + budget
  }

  lemma {:induction false} AllowedIsProduct(steps: nat, budget: nat)
    ensures Allowed(steps, budget) == steps * budget
  {
    if steps > 0 {
      AllowedIsProduct(steps - 1, budget);
      assert (steps - 1) * budget + budget == steps * budget;
    }
  }

  lemma {:induction false} AllowedGrows(a: nat, b: nat, budget: nat)
    requires a <= b
    ensures Allowed(a, budget) <= Allowed(b, budget)
    decreases b
  {
    if a < b {
      AllowedGrows(a, b - 1, budget);
    }
  }

  /** A compaction asked for by the user, on an idle session. */
  method RunCompaction(world: World, config: AgentConfig, text: TextTools, initial: Log)
    returns (r: Result<Log, AgentError>)
    modifies world`summaries, world`polls, world`stops, world`compactions
    ensures |world.summaries| <= |old(world.summaries)| + 2 * (config.maxModelRetries + 1)
    ensures world.compactions == old(world.compactions) || world.compactions == old(world.compactions) + [Manual]
    ensures r.Ok? ==> Compacted(initial, r.value, KeepBudget(config).keepRecent, text.parse)
    ensures r.Ok? ==> ValidLog(r.value) && initial < r.value && Messages(r.value) == Messages(initial)
    ensures r.Ok? ==> Inherits(initial, r.value, text.parse) && (Settled(initial) ==> Settled(r.value))
    ensures r.Err? && ValidLog(initial) ==> CompactionFails(world, config, text, initial, old(MarksOf(world)), MarksOf(world), r.error)
  {
    var session := new AgentSession(initial);
    var compacted;
    ghost var basis;
    compacted, basis := CompactSession(world, config, text, session, Manual);
    if compacted.Err? { return Err(compacted.error); }
    CheckpointedIsCompacted(initial, session.entries, config, text, basis, compacted.value);
    CompactedInherits(initial, session.entries, KeepBudget(config).keepRecent, text.parse);
    return Ok(session.entries);
  }
}
