/**
 * Token accounting, cut-point selection and compaction preparation
 * (crates/libs/tascarrel-agent/src/compaction.rs).
 */
module Compaction {
  import opened Foundation
  import opened Model
  import opened Session
  import opened Transcript

  // ---- Budgets ----------------------------------------------------------

  datatype CompactionConfig = CompactionConfig(enabled: bool, reserveTokens: U64, keepRecentTokens: U64)

  datatype EffectiveConfig = EffectiveConfig(
    threshold: Option<U64>,
    keepRecent: U64,
    summaryOutput: U64,
    turnPrefixOutput: U64)

  const SUMMARY_OUTPUT_PERCENT: U64 := 80
  const TURN_PREFIX_OUTPUT_PERCENT: U64 := 50

  function OutputShare(reserve: U64, percent: U64, maxOutput: Option<U64>): U64 {
    Min(Max(SatMul(reserve, percent) / 100, 1), if maxOutput.Some? then maxOutput.value else U64_MAX)
  }

  function Effective(config: CompactionConfig, window: Option<U64>, maxOutput: Option<U64>): EffectiveConfig {
    var desired: U64 := Max(config.reserveTokens, if maxOutput.Some? then maxOutput.value else 0);
    var reserve: U64 := if window.Some? then Min(desired, Max(window.value / 2, 1)) else desired;
    var threshold := if window.Some? then Some(SatSub(window.value, reserve)) else None;
    var summary := OutputShare(reserve, SUMMARY_OUTPUT_PERCENT, maxOutput);
    var keepLimit: U64 := if threshold.Some? then Max(SatSub(threshold.value, summary), 1) else U64_MAX;
    EffectiveConfig(threshold, Min(config.keepRecentTokens, keepLimit), summary,
                    OutputShare(reserve, TURN_PREFIX_OUTPUT_PERCENT, maxOutput))
  }

  /** The share of the reserve, rounded down, but at least one token and within the output limit. */
  predicate IsShare(share: U64, reserve: U64, percent: U64, maxOutput: Option<U64>) {
    var whole := reserve * percent;
    && (maxOutput.Some? ==> share <= maxOutput.value)
    && (share == 0 ==> maxOutput == Some(0))
    && (maxOutput.None? || share < maxOutput.value ==>
          if whole > U64_MAX then share == U64_MAX / 100
          else if whole < 100 then share == 1
          else 100 * share <= whole < 100 * (share + 1))
  }

  /**
   * What the configuration comes to: the reserve is the larger of its own and
   * the output limit, but no more than half the window, and the threshold is
   * what it leaves of the window; summaries get their shares of the reserve,
   * and what is kept leaves room for the larger one.
   */
  lemma EffectiveMeans(config: CompactionConfig, window: Option<U64>, maxOutput: Option<U64>)
    ensures var e := Effective(config, window, maxOutput);
            var desired: U64 := if maxOutput.Some? && maxOutput.value > config.reserveTokens then maxOutput.value
                                else config.reserveTokens;
            var reserve: U64 := if window.Some? && desired > 1 && desired > window.value / 2 then Max(window.value / 2, 1)
                                else desired;
            && (e.threshold.Some? <==> window.Some?)
            && (window.Some? && window.value > 0 ==> e.threshold.value + reserve == window.value)
            && (window == Some(0) ==> e.threshold == Some(0))
            && e.summaryOutput == OutputShare(reserve, 80, maxOutput)
            && e.turnPrefixOutput == OutputShare(reserve, 50, maxOutput)
            && e.keepRecent <= config.keepRecentTokens
            && (e.keepRecent < config.keepRecentTokens ==>
                  && e.threshold.Some?
                  && e.keepRecent == Max(e.threshold.value - e.summaryOutput, 1))
            && (e.threshold.Some? && e.keepRecent > 1 ==> e.keepRecent + e.summaryOutput <= e.threshold.value)
  {
  }

  lemma ShareMeans(reserve: U64, percent: U64, maxOutput: Option<U64>)
    requires percent <= 100
    ensures IsShare(OutputShare(reserve, percent, maxOutput), reserve, percent, maxOutput)
  {
  }

  /** A verbatim tail plus a full-size summary stays under the threshold. */
  predicate Fits(e: EffectiveConfig, tail: nat)
    requires e.threshold.Some?
  {
    tail + e.summaryOutput < e.threshold.value
  }

  /** Every tail below the keep budget fits. */
  ghost predicate TailFits(e: EffectiveConfig)
    requires e.threshold.Some?
  {
    forall tail: nat | tail < e.keepRecent :: Fits(e, tail)
  }

  /** What configuration, window and output limit must satisfy for every kept tail to leave room. */
  predicate LeavesRoom(config: CompactionConfig, window: U64, maxOutput: Option<U64>) {
    || config.keepRecentTokens == 0
    || window >= 3
    || (window == 2 && (maxOutput == Some(0) || (maxOutput.None? && config.reserveTokens == 0)))
    || (window == 1 && maxOutput == Some(0) && config.reserveTokens == 0)
  }

  /** A tail leaves room if and only if the caller's settings say so, with no look at the result. */
  lemma TailFitsIff(config: CompactionConfig, window: U64, maxOutput: Option<U64>)
    ensures TailFits(Effective(config, Some(window), maxOutput)) <==> LeavesRoom(config, window, maxOutput)
  {
    var e := Effective(config, Some(window), maxOutput);
    if TailFits(e) && e.keepRecent > 0 {
      assert Fits(e, 0);
    }
  }

  /** Every window of at least three tokens leaves room; a window of two need not. */
  lemma TailFitsForWindows(config: CompactionConfig, window: U64, maxOutput: Option<U64>)
    ensures window >= 3 ==> TailFits(Effective(config, Some(window), maxOutput))
    ensures !TailFits(Effective(CompactionConfig(true, 16_384, 20_000), Some(2), None))
  {
    TailFitsIff(config, window, maxOutput);
    TailFitsIff(CompactionConfig(true, 16_384, 20_000), 2, None);
  }

  // ---- Estimates --------------------------------------------------------

  function CallCharacters(calls: seq<ToolCall>, total: U64): U64 {
    if calls == [] then total
    else CallCharacters(calls[1..], SatAdd(SatAdd(total, ToU64(Utf8Len(calls[0].name))),
                                           ToU64(Utf8Len(calls[0].arguments))))
  }

  function MessageCharacters(m: ModelMessage): U64 {
    match m
    case Assistant(a) =>
      CallCharacters(a.toolCalls, SatAdd(ToU64(Utf8Len(a.reasoning)), ToU64(Utf8Len(a.content))))
    case Tool(_, name, content, _) => SatAdd(ToU64(Utf8Len(name)), ToU64(Utf8Len(content)))
    case _ => ToU64(Utf8Len(m.content))
  }

  /** Four characters a token, rounded up, and four tokens of overhead. */
  function EstimateMessage(m: ModelMessage): U64 {
    SatAdd(SatAdd(MessageCharacters(m), 3) / 4, 4)
  }

  /** The texts of a message that count towards its size. */
  function Parts(m: ModelMessage): seq<string> {
    match m
    case Assistant(a) => [a.reasoning, a.content] + CallParts(a.toolCalls)
    case Tool(_, name, content, _) => [name, content]
    case _ => [m.content]
  }

  function CallParts(calls: seq<ToolCall>): seq<string> {
    if calls == [] then [] else [calls[0].name, calls[0].arguments] + CallParts(calls[1..])
  }

  /** Bytes of all the texts together. */
  function Size(parts: seq<string>): nat {
    if parts == [] then 0 else Utf8Len(parts[0]) + Size(parts[1..])
  }

  lemma SizeOfTwo(a: string, b: string, rest: seq<string>)
    ensures Size([a, b] + rest) == Utf8Len(a) + Utf8Len(b) + Size(rest)
  {
    assert ([a, b] + rest)[1..] == [b] + rest && ([b] + rest)[1..] == rest;
  }

  lemma {:induction false} CallCharactersAreSize(calls: seq<ToolCall>, total: nat)
    ensures CallCharacters(calls, ToU64(total)) == ToU64(total + Size(CallParts(calls)))
    decreases |calls|
  {
    if calls != [] {
      var name, arguments := Utf8Len(calls[0].name), Utf8Len(calls[0].arguments);
      SizeOfTwo(calls[0].name, calls[0].arguments, CallParts(calls[1..]));
      assert SatAdd(SatAdd(ToU64(total), ToU64(name)), ToU64(arguments)) == ToU64(total + name + arguments);
      CallCharactersAreSize(calls[1..], total + name + arguments);
    }
  }

  lemma AssistantCharactersAreSize(a: AssistantMessage)
    ensures CallCharacters(a.toolCalls, SatAdd(ToU64(Utf8Len(a.reasoning)), ToU64(Utf8Len(a.content))))
         == ToU64(Size([a.reasoning, a.content] + CallParts(a.toolCalls)))
  {
    var reasoning, content := Utf8Len(a.reasoning), Utf8Len(a.content);
    SizeOfTwo(a.reasoning, a.content, CallParts(a.toolCalls));
    assert SatAdd(ToU64(reasoning), ToU64(content)) == ToU64(reasoning + content);
    CallCharactersAreSize(a.toolCalls, reasoning + content);
  }

  lemma CharactersAreSize(m: ModelMessage)
    ensures MessageCharacters(m) == ToU64(Size(Parts(m)))
  {
    match m {
      case Assistant(a) =>
        AssistantCharactersAreSize(a);
      case Tool(_, name, content, _) =>
        SizeOfTwo(name, content, []);
        assert [name, content] + [] == [name, content];
      case _ =>
        assert [m.content][1..] == [];
    }
  }

  /** Tokens for a size: four bytes each, rounded up, and as many as fit once the size itself no longer does. */
  predicate IsTokens(tokens: int, size: nat) {
    if size + 3 <= U64_MAX then 4 * tokens - 4 < size <= 4 * tokens else tokens == U64_MAX / 4
  }

  /** A message counts four tokens and one for every four bytes of its texts. */
  lemma EstimateMeans(m: ModelMessage)
    ensures IsTokens(EstimateMessage(m) - 4, Size(Parts(m)))
  {
    CharactersAreSize(m);
  }

  function EstimateMessages(ms: seq<ModelMessage>): nat {
    if ms == [] then 0 else EstimateMessage(ms[0]) + EstimateMessages(ms[1..])
  }

  datatype ContextEstimate = ContextEstimate(tokens: U64, hasProviderUsage: bool, isEstimated: bool)

  /** The message carries provider usage of at least one token. */
  predicate ReportsUsage(e: SessionEntry) {
    && e.value.Message? && e.value.message.Assistant?
    && e.value.message.message.usage.Some?
    && e.value.message.message.usage.value.TotalTokens() > 0
  }

  /** Newest entry from `from` on that carries provider usage. */
  function UsageIndex(log: Log, from: nat, end: nat): (r: Option<nat>)
    requires end <= |log|
    ensures r.Some? ==> from <= r.value < end && ReportsUsage(log[r.value])
    ensures forall i | (if r.Some? then r.value + 1 else from) <= i < end :: !ReportsUsage(log[i])
    decreases end
  {
    if end <= from then None
    else if ReportsUsage(log[end - 1]) then Some(end - 1)
    else UsageIndex(log, from, end - 1)
  }

  /** Newest entry since the newest checkpoint that carries provider usage. */
  function UsageEntry(log: Log): (r: Option<nat>)
    ensures r.Some? ==> r.value < |log| && ReportsUsage(log[r.value])
  {
    UsageIndex(log, match LatestCompaction(log) case None => 0 case Some(k) => k + 1, |log|)
  }

  function EstimateContext(log: Log): ContextEstimate
    requires ValidLog(log)
  {
    match UsageEntry(log)
    case None => ContextEstimate(ToU64(EstimateMessages(EffectiveMessages(log))), false, true)
    case Some(u) =>
      var trailing := ToU64(EstimateMessages(Messages(log[u + 1..])));
      ContextEstimate(SatAdd(log[u].value.message.message.usage.value.TotalTokens(), trailing), true, trailing > 0)
  }

  function ToolCharacters(tools: seq<ToolDefinition>, total: U64): U64 {
    if tools == [] then total
    else ToolCharacters(tools[1..],
                        SatAdd(SatAdd(SatAdd(total, ToU64(Utf8Len(tools[0].name))),
                                      ToU64(Utf8Len(tools[0].description))),
                               ToU64(Utf8Len(tools[0].inputSchema))))
  }

  function EstimateTools(tools: seq<ToolDefinition>): U64 {
    SatAdd(ToolCharacters(tools, 0), 3) / 4
  }

  /** The context has crossed the configured threshold. */
  predicate ShouldCompact(log: Log, tools: seq<ToolDefinition>, config: EffectiveConfig)
    requires ValidLog(log)
  {
    config.threshold.Some? &&
    var estimate := EstimateContext(log);
    (if estimate.hasProviderUsage then estimate.tokens else SatAdd(estimate.tokens, EstimateTools(tools)))
      > config.threshold.value
  }

  function ToolParts(tools: seq<ToolDefinition>): seq<string> {
    if tools == [] then [] else [tools[0].name, tools[0].description, tools[0].inputSchema] + ToolParts(tools[1..])
  }

  lemma {:induction false} ToolCharactersAreSize(tools: seq<ToolDefinition>, total: nat)
    ensures ToolCharacters(tools, ToU64(total)) == ToU64(total + Size(ToolParts(tools)))
    decreases |tools|
  {
    if tools != [] {
      var a, b, c := Utf8Len(tools[0].name), Utf8Len(tools[0].description), Utf8Len(tools[0].inputSchema);
      SizeOfThree(tools[0].name, tools[0].description, tools[0].inputSchema, ToolParts(tools[1..]));
      SaturatesOnce(total, a, b, c);
      ToolCharactersAreSize(tools[1..], total + a + b + c);
    }
  }

  lemma SizeOfThree(a: string, b: string, c: string, rest: seq<string>)
    ensures Size([a, b, c] + rest) == Utf8Len(a) + Utf8Len(b) + Utf8Len(c) + Size(rest)
  {
    assert [a, b, c] + rest == [a, b] + ([c] + rest);
    SizeOfTwo(a, b, [c] + rest);
    assert ([c] + rest)[1..] == rest;
  }

  lemma SaturatesOnce(total: nat, a: nat, b: nat, c: nat)
    ensures SatAdd(SatAdd(SatAdd(ToU64(total), ToU64(a)), ToU64(b)), ToU64(c)) == ToU64(total + a + b + c)
  {
  }

  /** Tool definitions count one token for every four bytes. */
  lemma ToolEstimateMeans(tools: seq<ToolDefinition>)
    ensures IsTokens(EstimateTools(tools), Size(ToolParts(tools)))
  {
    ToolCharactersAreSize(tools, 0);
  }

  /** The newest message with provider usage, if no checkpoint came after it. */
  ghost predicate NewestUsage(log: Log, u: nat) {
    && u < |log| && ReportsUsage(log[u])
    && forall i | u < i < |log| :: !ReportsUsage(log[i]) && !log[i].value.Compaction?
  }

  lemma UsageEntryIff(log: Log, u: nat)
    ensures UsageEntry(log) == Some(u) <==> NewestUsage(log, u)
  {
    if NewestUsage(log, u) {
      assert UsageEntry(log).Some?;
    }
  }

  /** The saturating sum exceeds a bound exactly if the sum does, unless nothing could. */
  lemma SumExceeds(a: nat, b: nat, bound: U64)
    ensures SatAdd(ToU64(a), ToU64(b)) > bound <==> bound < U64_MAX && a + b > bound
  {
  }

  /** After a usage report the threshold is crossed by the usage and the estimates of all messages since. */
  lemma CrossedAfterUsage(log: Log, tools: seq<ToolDefinition>, config: EffectiveConfig, u: nat)
    requires ValidLog(log) && NewestUsage(log, u)
    ensures var usage := log[u].value.message.message.usage.value;
            ShouldCompact(log, tools, config) <==>
              && config.threshold.Some? && config.threshold.value < U64_MAX
              && config.threshold.value < usage.inputTokens + usage.outputTokens
                                          + EstimateMessages(Messages(log[u + 1..]))
  {
    UsageEntryIff(log, u);
    if config.threshold.Some? {
      var usage := log[u].value.message.message.usage.value;
      SumExceeds(usage.inputTokens + usage.outputTokens, EstimateMessages(Messages(log[u + 1..])), config.threshold.value);
    }
  }

  /** Without one since the newest checkpoint, by the estimates of the whole context and of the tools. */
  lemma CrossedWithoutUsage(log: Log, tools: seq<ToolDefinition>, config: EffectiveConfig)
    requires ValidLog(log) && forall u: nat :: !NewestUsage(log, u)
    ensures ShouldCompact(log, tools, config) <==>
              && config.threshold.Some? && config.threshold.value < U64_MAX
              && config.threshold.value < EstimateMessages(EffectiveMessages(log)) + EstimateTools(tools)
  {
    if UsageEntry(log).Some? {
      UsageEntryIff(log, UsageEntry(log).value);
    } else if config.threshold.Some? {
      SumExceeds(EstimateMessages(EffectiveMessages(log)), EstimateTools(tools), config.threshold.value);
    }
  }

  lemma {:induction false} EstimateSnoc(ms: seq<ModelMessage>, m: ModelMessage)
    ensures EstimateMessages(ms + [m]) == EstimateMessages(ms) + EstimateMessage(m)
  {
    var all := ms + [m];
    if ms == [] {
      assert all == [m] && [m][1..] == [];
    } else {
      assert all[0] == ms[0] && all[1..] == ms[1..] + [m];
      EstimateSnoc(ms[1..], m);
    }
  }

  lemma {:induction false} UsageIndexInPrefix(log: Log, e: SessionEntry, from: nat, end: nat)
    requires end <= |log|
    ensures UsageIndex(log + [e], from, end) == UsageIndex(log, from, end)
    decreases end
  {
    if end > from && !ReportsUsage(log[end - 1]) {
      UsageIndexInPrefix(log, e, from, end - 1);
    }
  }

  /**
   * A message with provider usage replaces the estimate; any other raises it
   * by its own estimate, whatever the estimate was based on.
   */
  lemma MessageRaisesEstimate(log: Log, m: ModelMessage)
    requires ValidLog(log) && (m.System? <==> log == [])
    ensures ValidLog(log + [MessageEntry(log, m)])
    ensures var before, after := EstimateContext(log), EstimateContext(log + [MessageEntry(log, m)]);
            if ReportsUsage(MessageEntry(log, m))
            then after == ContextEstimate(ToU64(m.message.usage.value.inputTokens + m.message.usage.value.outputTokens),
                                          true, false)
            else after == ContextEstimate(SatAdd(before.tokens, EstimateMessage(m)), before.hasProviderUsage, true)
  {
    MessageStaysValid(log, m);
    if ReportsUsage(MessageEntry(log, m)) {
      UsageReplacesEstimate(log, m);
    } else if UsageEntry(log).None? {
      RaisesBareEstimate(log, m);
    } else {
      RaisesTrailingEstimate(log, m, UsageEntry(log).value);
    }
  }

  lemma MessageStaysValid(log: Log, m: ModelMessage)
    requires ValidLog(log) && (m.System? <==> log == [])
    ensures ValidLog(log + [MessageEntry(log, m)])
  {
    MessageExtendsContext(log, m);
  }

  lemma UsageReplacesEstimate(log: Log, m: ModelMessage)
    requires ValidLog(log + [MessageEntry(log, m)]) && ReportsUsage(MessageEntry(log, m))
    ensures EstimateContext(log + [MessageEntry(log, m)])
         == ContextEstimate(m.message.usage.value.TotalTokens(), true, false)
  {
    var e := MessageEntry(log, m);
    UsageEntrySnoc(log, e);
    assert Messages((log + [e])[|log| + 1..]) == [];
  }

  lemma RaisesBareEstimate(log: Log, m: ModelMessage)
    requires ValidLog(log) && (m.System? <==> log == []) && ValidLog(log + [MessageEntry(log, m)])
    requires UsageEntry(log).None? && !ReportsUsage(MessageEntry(log, m))
    ensures EstimateContext(log + [MessageEntry(log, m)])
         == ContextEstimate(SatAdd(EstimateContext(log).tokens, EstimateMessage(m)), false, true)
  {
    UsageEntrySnoc(log, MessageEntry(log, m));
    MessageExtendsContext(log, m);
    EstimateSnoc(EffectiveMessages(log), m);
  }

  lemma RaisesTrailingEstimate(log: Log, m: ModelMessage, u: nat)
    requires ValidLog(log) && ValidLog(log + [MessageEntry(log, m)])
    requires UsageEntry(log) == Some(u) && !ReportsUsage(MessageEntry(log, m))
    ensures EstimateContext(log + [MessageEntry(log, m)])
         == ContextEstimate(SatAdd(EstimateContext(log).tokens, EstimateMessage(m)), true, true)
  {
    var e := MessageEntry(log, m);
    assert UsageEntry(log + [e]) == Some(u) && (log + [e])[u] == log[u] by {
      UsageEntrySnoc(log, e);
    }
    TrailingSnoc(log, m, u);
    SaturatingSum(log[u].value.message.message.usage.value.TotalTokens(), EstimateMessages(Messages(log[u + 1..])),
                  EstimateMessage(m));
  }

  lemma SaturatingSum(a: U64, b: nat, c: U64)
    ensures SatAdd(a, ToU64(b + c)) == SatAdd(SatAdd(a, ToU64(b)), c)
  {
  }

  lemma UsageEntrySnoc(log: Log, e: SessionEntry)
    requires e.value.Message?
    ensures UsageEntry(log + [e]) == if ReportsUsage(e) then Some(|log|) else UsageEntry(log)
  {
    var log' := log + [e];
    assert LatestCompaction(log') == LatestCompaction(log) by {
      assert log'[..|log|] == log;
    }
    var from := match LatestCompaction(log) case None => 0 case Some(k) => k + 1;
    UsageIndexInPrefix(log, e, from, |log|);
  }

  lemma TrailingSnoc(log: Log, m: ModelMessage, u: nat)
    requires u < |log|
    ensures EstimateMessages(Messages((log + [MessageEntry(log, m)])[u + 1..]))
         == EstimateMessages(Messages(log[u + 1..])) + EstimateMessage(m)
  {
    var e := MessageEntry(log, m);
    assert (log + [e])[u + 1..] == log[u + 1..] + [e];
    MessagesSnoc(log[u + 1..], e);
    EstimateSnoc(Messages(log[u + 1..]), m);
  }

  /** After a checkpoint no earlier usage counts, not even that of a kept message. */
  lemma CheckpointResetsEstimate(log: Log, record: CompactionRecord)
    requires ValidLog(log) && BoundaryIn(log, record.firstKept)
    ensures var log' := log + [CompactionEntry(log, record)];
            && ValidLog(log')
            && EstimateContext(log') == ContextEstimate(ToU64(EstimateMessages(EffectiveMessages(log'))), false, true)
  {
    CheckpointReplacesContext(log, record);
  }

  /** Between usage reports, a crossed threshold stays crossed. */
  lemma ThresholdStaysCrossed(log: Log, m: ModelMessage, tools: seq<ToolDefinition>, config: EffectiveConfig)
    requires ValidLog(log) && (m.System? <==> log == []) && !ReportsUsage(MessageEntry(log, m))
    ensures ValidLog(log + [MessageEntry(log, m)])
    ensures ShouldCompact(log, tools, config) ==> ShouldCompact(log + [MessageEntry(log, m)], tools, config)
  {
    MessageRaisesEstimate(log, m);
  }

  // ---- Cut points -------------------------------------------------------

  predicate CutMessage(m: ModelMessage) {
    m.User? || m.Assistant?
  }

  predicate CutAt(log: Log, i: int) {
    0 <= i < |log| && log[i].value.Message? && CutMessage(log[i].value.message)
  }

  predicate UserAt(log: Log, i: int) {
    0 <= i < |log| && log[i].value.Message? && log[i].value.message.User?
  }

  function EntryTokens(e: SessionEntry): U64 {
    if e.value.Message? then EstimateMessage(e.value.message) else 0
  }

  /** Estimated size of the entries in `[i, end)`. */
  function TailTokens(log: Log, i: nat, end: nat): U64
    requires end <= |log|
    decreases end - i
  {
    if end <= i then 0 else SatAdd(TailTokens(log, i + 1, end), EntryTokens(log[i]))
  }

  lemma {:induction false} TailShrinks(log: Log, i: nat, j: nat, end: nat)
    requires i <= j && end <= |log|
    ensures TailTokens(log, j, end) <= TailTokens(log, i, end)
    decreases end - i
  {
    if i < j && i < end {
      TailShrinks(log, i + 1, j, end);
    }
  }

  /** What follows cut point `p` is below the budget. */
  predicate Affordable(log: Log, p: nat, end: nat, keep: U64)
    requires end <= |log|
  {
    TailTokens(log, p + 1, end) < keep
  }

  /** The earliest affordable cut point, or the last cut point when none is affordable. */
  ghost predicate BestCut(log: Log, start: nat, end: nat, keep: U64, p: nat)
    requires end <= |log|
  {
    && start <= p < end && CutAt(log, p)
    && (if exists q | start <= q < end :: CutAt(log, q) && Affordable(log, q, end, keep)
        then Affordable(log, p, end, keep)
             && forall q | start <= q < p && CutAt(log, q) :: !Affordable(log, q, end, keep)
        else forall q | start <= q < end && CutAt(log, q) :: q <= p)
  }

  /** The messages after the cut and a full-size summary stay under the threshold, unless no cut is affordable. */
  lemma CutLeavesRoom(log: Log, start: nat, end: nat, config: CompactionConfig, window: U64, maxOutput: Option<U64>,
                      p: nat)
    requires end <= |log| && LeavesRoom(config, window, maxOutput)
    requires BestCut(log, start, end, Effective(config, Some(window), maxOutput).keepRecent, p)
    ensures var e := Effective(config, Some(window), maxOutput);
            (exists q | start <= q < end :: CutAt(log, q) && Affordable(log, q, end, e.keepRecent)) ==>
              TailTokens(log, p + 1, end) + e.summaryOutput < e.threshold.value
  {
    var e := Effective(config, Some(window), maxOutput);
    TailFitsIff(config, window, maxOutput);
    if exists q | start <= q < end :: CutAt(log, q) && Affordable(log, q, end, e.keepRecent) {
      assert Fits(e, TailTokens(log, p + 1, end));
    }
  }

  datatype CutPoint = CutPoint(firstKept: nat, turnStart: Option<nat>)

  /** The last user message in `[start, end)`. */
  ghost predicate LastUser(log: Log, start: nat, end: nat, r: Option<nat>) {
    match r
    case Some(t) => start <= t < end && UserAt(log, t) && forall i | t < i < end :: !UserAt(log, i)
    case None => forall i | start <= i < end :: !UserAt(log, i)
  }

  /** The turn that the cut splits, if it splits one. */
  ghost predicate SplitTurn(log: Log, start: nat, cut: CutPoint) {
    if UserAt(log, cut.firstKept) then cut.turnStart.None?
    else LastUser(log, start, cut.firstKept + 1, cut.turnStart)
  }

  method CutPoints(log: Log, start: nat, end: nat) returns (points: seq<nat>)
    requires start <= end <= |log|
    ensures forall i | 0 <= i < |points| :: start <= points[i] < end && CutAt(log, points[i])
    ensures forall i, j | 0 <= i < j < |points| :: points[i] < points[j]
    ensures forall p | start <= p < end && CutAt(log, p) :: p in points
    ensures forall p | start <= p < end ::
              p in points <==> && log[p].value.Message?
                               && (log[p].value.message.User? || log[p].value.message.Assistant?)
  {
    points := [];
    for index := start to end
      invariant forall i | 0 <= i < |points| :: start <= points[i] < index && CutAt(log, points[i])
      invariant forall i, j | 0 <= i < j < |points| :: points[i] < points[j]
      invariant forall p | start <= p < index && CutAt(log, p) :: p in points
    {
      var value := log[index].value;
      if value.Message? && (value.message.User? || value.message.Assistant?) {
        ghost var before := points;
        points := points + [index];
        assert forall p | p in before :: p in points;
        assert points[|before|] == index;
      }
    }
  }

  /** First point at or after `index`, else the last point before it. */
  method NearestPoint(points: seq<nat>, index: nat) returns (point: Option<nat>)
    requires forall i, j | 0 <= i < j < |points| :: points[i] < points[j]
    ensures point.None? <==> points == []
    ensures point.Some? ==> point.value in points
    ensures point.Some? && point.value >= index ==> forall p | p in points && p >= index :: point.value <= p
    ensures point.Some? && point.value < index ==> forall p | p in points :: p <= point.value
  {
    var i := 0;
    while i < |points|
      invariant 0 <= i <= |points|
      invariant forall k | 0 <= k < i :: points[k] < index
    {
      if points[i] >= index {
        return Some(points[i]);
      }
      i := i + 1;
    }
    return if points == [] then None else Some(points[|points| - 1]);
  }

  /** The backward token scan. */
  method FindCutPoint(log: Log, start: nat, end: nat, keep: U64) returns (r: Option<CutPoint>)
    requires start <= end <= |log|
    ensures r.None? <==> forall i | start <= i < end :: !CutAt(log, i)
    ensures r.Some? ==> BestCut(log, start, end, keep, r.value.firstKept)
    ensures r.Some? ==> SplitTurn(log, start, r.value)
  {
    var points := CutPoints(log, start, end);
    if points == [] {
      return None;
    }
    var cut := points[0];
    assert CutAt(log, cut);
    var accumulated: U64 := 0;
    var index := end;
    while index > start
      invariant start <= index <= end
      invariant accumulated == TailTokens(log, index, end)
      invariant index < end ==> accumulated < keep
      invariant cut == points[0]
    {
      index := index - 1;
      if log[index].value.Message? {
        accumulated := SatAdd(accumulated, EstimateMessage(log[index].value.message));
      }
      if accumulated >= keep {
        var point := NearestPoint(points, index);
        cut := point.value;
        BestCutAtCrossing(log, start, end, keep, points, index, cut);
        break;
      }
    }
    if accumulated < keep {
      BestCutWithoutCrossing(log, start, end, keep, points, accumulated);
    }
    var turnStart := None;
    if !log[cut].value.message.User? {
      turnStart := FindLastUser(log, start, cut + 1);
    }
    return Some(CutPoint(cut, turnStart));
  }

  lemma BestCutAtCrossing(log: Log, start: nat, end: nat, keep: U64, points: seq<nat>, index: nat, cut: nat)
    requires start <= index < end <= |log|
    requires forall p | p in points :: start <= p < end && CutAt(log, p)
    requires forall p | start <= p < end && CutAt(log, p) :: p in points
    requires TailTokens(log, index, end) >= keep
    requires index + 1 < end ==> TailTokens(log, index + 1, end) < keep
    requires cut in points
    requires cut >= index ==> forall p | p in points && p >= index :: cut <= p
    requires cut < index ==> forall p | p in points :: p <= cut
    ensures BestCut(log, start, end, keep, cut)
  {
    forall q | start <= q < end
      ensures Affordable(log, q, end, keep) <==> q >= index && keep > 0
    {
      if q >= index {
        TailShrinks(log, index + 1, q + 1, end);
      } else {
        TailShrinks(log, q + 1, index, end);
      }
    }
  }

  lemma BestCutWithoutCrossing(log: Log, start: nat, end: nat, keep: U64, points: seq<nat>, total: U64)
    requires start < end <= |log| && points != []
    requires forall i | 0 <= i < |points| :: start <= points[i] < end && CutAt(log, points[i])
    requires forall i, j | 0 <= i < j < |points| :: points[i] < points[j]
    requires forall p | start <= p < end && CutAt(log, p) :: p in points
    requires total == TailTokens(log, start, end) && total < keep
    ensures BestCut(log, start, end, keep, points[0])
  {
    forall q | start <= q < end
      ensures Affordable(log, q, end, keep)
    {
      TailShrinks(log, start, q + 1, end);
    }
    assert CutAt(log, points[0]);
  }

  method FindLastUser(log: Log, start: nat, end: nat) returns (r: Option<nat>)
    requires start <= end <= |log|
    ensures LastUser(log, start, end, r)
  {
    var i := end;
    while i > start
      invariant start <= i <= end
      invariant forall k | i <= k < end :: !UserAt(log, k)
    {
      i := i - 1;
      if log[i].value.Message? && log[i].value.message.User? {
        return Some(i);
      }
    }
    return None;
  }

  // ---- File lists -------------------------------------------------------

  /** Reads the `path` field of tool arguments; the JSON decoder itself is a parameter. */
  type PathParser = string -> Option<string>

  const READ_TOOLS := {"read"}
  const MODIFY_TOOLS := {"write", "edit"}

  function CallPath(call: ToolCall, parse: PathParser, tools: set<string>): set<string> {
    if call.name in tools && parse(call.arguments).Some? then {parse(call.arguments).value} else {}
  }

  function CallPaths(calls: seq<ToolCall>, parse: PathParser, tools: set<string>): set<string> {
    if calls == [] then {} else CallPath(calls[0], parse, tools) + CallPaths(calls[1..], parse, tools)
  }

  /** Paths named by calls of `tools` anywhere in a conversation, in one pass. */
  function PathsIn(ms: seq<ModelMessage>, parse: PathParser, tools: set<string>): set<string> {
    if ms == [] then {} else CallPaths(CallsOf(ms[0]), parse, tools) + PathsIn(ms[1..], parse, tools)
  }

  lemma {:induction false} CallPathsConcat(a: seq<ToolCall>, b: seq<ToolCall>, parse: PathParser, tools: set<string>)
    ensures CallPaths(a + b, parse, tools) == CallPaths(a, parse, tools) + CallPaths(b, parse, tools)
  {
    var ab := a + b;
    if a == [] {
      assert ab == b;
    } else {
      assert ab[1..] == a[1..] + b;
      CallPathsConcat(a[1..], b, parse, tools);
    }
  }

  lemma {:induction false} PathsConcat(a: seq<ModelMessage>, b: seq<ModelMessage>, parse: PathParser, tools: set<string>)
    ensures PathsIn(a + b, parse, tools) == PathsIn(a, parse, tools) + PathsIn(b, parse, tools)
  {
    var ab := a + b;
    if a == [] {
      assert ab == b;
    } else {
      assert ab[1..] == a[1..] + b;
      PathsConcat(a[1..], b, parse, tools);
    }
  }

  lemma PathsSnoc(ms: seq<ModelMessage>, m: ModelMessage, parse: PathParser, tools: set<string>)
    ensures PathsIn(ms + [m], parse, tools) == PathsIn(ms, parse, tools) + CallPaths(CallsOf(m), parse, tools)
  {
    PathsConcat(ms, [m], parse, tools);
    assert [m][1..] == [];
  }

  lemma CallPathsSnoc(calls: seq<ToolCall>, call: ToolCall, parse: PathParser, tools: set<string>)
    ensures CallPaths(calls + [call], parse, tools) == CallPaths(calls, parse, tools) + CallPath(call, parse, tools)
  {
    CallPathsConcat(calls, [call], parse, tools);
    assert [call][1..] == [];
  }

  datatype FileOperations = FileOperations(read: set<string>, modified: set<string>)

  method CollectFileOperations(m: ModelMessage, parse: PathParser, files: FileOperations)
    returns (r: FileOperations)
    ensures r.read == files.read + CallPaths(CallsOf(m), parse, READ_TOOLS)
    ensures r.modified == files.modified + CallPaths(CallsOf(m), parse, MODIFY_TOOLS)
  {
    r := files;
    if !m.Assistant? {
      return;
    }
    var calls := m.message.toolCalls;
    var i := 0;
    while i < |calls|
      invariant 0 <= i <= |calls|
      invariant r.read == files.read + CallPaths(calls[..i], parse, READ_TOOLS)
      invariant r.modified == files.modified + CallPaths(calls[..i], parse, MODIFY_TOOLS)
    {
      var call := calls[i];
      CallPathsSnoc(calls[..i], call, parse, READ_TOOLS);
      CallPathsSnoc(calls[..i], call, parse, MODIFY_TOOLS);
      assert calls[..i + 1] == calls[..i] + [call];
      i := i + 1;
      if call.name !in {"read", "write", "edit"} {
        continue;
      }
      var path := parse(call.arguments);
      if path.None? {
        continue;
      }
      if call.name == "read" {
        r := r.(read := r.read + {path.value});
      } else {
        r := r.(modified := r.modified + {path.value});
      }
    }
    assert calls[..i] == calls;
  }

  method CollectAllFileOperations(ms: seq<ModelMessage>, parse: PathParser, files: FileOperations)
    returns (r: FileOperations)
    ensures r.read == files.read + PathsIn(ms, parse, READ_TOOLS)
    ensures r.modified == files.modified + PathsIn(ms, parse, MODIFY_TOOLS)
  {
    r := files;
    for i := 0 to |ms|
      invariant r.read == files.read + PathsIn(ms[..i], parse, READ_TOOLS)
      invariant r.modified == files.modified + PathsIn(ms[..i], parse, MODIFY_TOOLS)
    {
      PathsSnoc(ms[..i], ms[i], parse, READ_TOOLS);
      PathsSnoc(ms[..i], ms[i], parse, MODIFY_TOOLS);
      assert ms[..i + 1] == ms[..i] + [ms[i]];
      r := CollectFileOperations(ms[i], parse, r);
    }
    assert ms[..|ms|] == ms;
  }

  // ---- Preparation ------------------------------------------------------

  datatype CompactionPreparation = CompactionPreparation(
    firstKept: nat,
    history: seq<ModelMessage>,
    turnPrefix: seq<ModelMessage>,
    previousSummary: Option<string>,
    tokensBefore: U64,
    readFiles: set<string>,
    modifiedFiles: set<string>)

  function PreviousFiles(log: Log): FileOperations {
    match LatestCompaction(log)
    case None => FileOperations({}, {})
    case Some(k) => FileOperations(log[k].value.record.readFiles, log[k].value.record.modifiedFiles)
  }

  function PreviousSummary(log: Log): Option<string> {
    match LatestCompaction(log)
    case None => None
    case Some(k) => Some(log[k].value.record.summary)
  }

  /** The messages that the next compaction discards, when it cuts at `cut`. */
  function Discarded(log: Log, cut: nat): seq<ModelMessage>
    requires ValidLog(log) && log != [] && SuffixStart(log) <= cut <= |log|
  {
    Messages(log[SuffixStart(log)..cut])
  }

  /** The turn prefix is the discarded part of the turn that the cut splits. */
  ghost predicate SplitsTurn(log: Log, start: nat, cut: nat, turnPrefix: seq<ModelMessage>)
    requires start <= cut < |log|
  {
    exists t: Option<nat> {:trigger SplitTurn(log, start, CutPoint(cut, t))} ::
      && SplitTurn(log, start, CutPoint(cut, t))
      && turnPrefix == if t.Some? then Messages(log[t.value..cut]) else []
  }

  /** The cut is the best one and discards something, split without loss into history and turn prefix. */
  ghost predicate SplitFrom(log: Log, keep: U64, p: CompactionPreparation) {
    && ValidLog(log) && log != []
    && SuffixStart(log) < p.firstKept
    && BestCut(log, SuffixStart(log), |log|, keep, p.firstKept)
    && p.history + p.turnPrefix == Discarded(log, p.firstKept)
    && SplitsTurn(log, SuffixStart(log), p.firstKept, p.turnPrefix)
    && p.previousSummary == PreviousSummary(log)
  }

  /** The file lists add the discarded segment to the previous record. */
  predicate FilesFrom(log: Log, discarded: seq<ModelMessage>, parse: PathParser, p: CompactionPreparation) {
    var files := PreviousFiles(log);
    && p.modifiedFiles == files.modified + PathsIn(discarded, parse, MODIFY_TOOLS)
    && p.readFiles == files.read + PathsIn(discarded, parse, READ_TOOLS) - p.modifiedFiles
  }

  /** Everything a preparation promises about the log it was made from. */
  ghost predicate PreparedFrom(log: Log, keep: U64, parse: PathParser, p: CompactionPreparation) {
    && SplitFrom(log, keep, p)
    && FilesFrom(log, p.history + p.turnPrefix, parse, p)
    && p.tokensBefore == EstimateContext(log).tokens
  }

  /** The message that stands for everything compacted before, as the preparation knows it. */
  function EarlierSummary(p: CompactionPreparation): seq<ModelMessage> {
    if p.previousSummary.Some? then [ContextSummary(p.previousSummary.value)] else []
  }

  /** There is nothing the next compaction could discard. */
  ghost predicate NothingToDiscard(log: Log, keep: U64)
    requires ValidLog(log)
  {
    || |log| < 3
    || log[|log| - 1].value.Compaction?
    || (forall i | SuffixStart(log) <= i < |log| :: !CutAt(log, i))
    || BestCut(log, SuffixStart(log), |log|, keep, SuffixStart(log))
  }

  lemma BestCutUnique(log: Log, start: nat, end: nat, keep: U64, p: nat, q: nat)
    requires end <= |log| && BestCut(log, start, end, keep, p) && BestCut(log, start, end, keep, q)
    ensures p == q
  {
  }

  /** The suffix starts at a message, so discarding up to a later point discards something. */
  lemma DiscardsSomething(log: Log, cut: nat)
    requires ValidLog(log) && |log| >= 3 && SuffixStart(log) < cut <= |log|
    ensures Discarded(log, cut) != []
  {
    var start := SuffixStart(log);
    if LatestCompaction(log).Some? {
      assert ValidEntry(log, LatestCompaction(log).value);
    } else {
      assert ValidEntry(log, 1);
    }
    assert log[start..cut][0] == log[start];
  }

  /** Where the verbatim suffix starts, and the checkpoint to skip. */
  method LocateSuffix(session: AgentSession) returns (r: Result<(nat, Option<nat>), SessionError>)
    requires |session.entries| >= 3
    ensures r.Ok? ==> r.value.0 < |session.entries| && r.value.1 == LatestCompaction(session.entries)
    ensures ValidLog(session.entries) ==> r.Ok? && r.value.0 == SuffixStart(session.entries)
  {
    var log := session.entries;
    var newest := session.NewestCompaction();
    if newest.None? {
      return Ok((1, None));
    }
    var id := log[newest.value].value.record.firstKept;
    var found := EntryIndex(log, id);
    if ValidLog(log) {
      ValidIsContiguous(log);
      assert ValidEntry(log, newest.value);
    }
    if found.None? {
      return Err(MissingCompactionBoundary(id));
    }
    return Ok((found.value, newest));
  }

  /** Splits what a cut discards at the start of the turn it falls into. */
  method SplitDiscarded(log: Log, start: nat, newest: Option<nat>, cut: CutPoint)
    returns (history: seq<ModelMessage>, turnPrefix: seq<ModelMessage>)
    requires start <= cut.firstKept < |log| && CutAt(log, cut.firstKept) && SplitTurn(log, start, cut)
    requires newest == LatestCompaction(log)
    ensures ValidLog(log) && 0 < start ==> history + turnPrefix == Messages(log[start..cut.firstKept])
    ensures ValidLog(log) && 0 < start ==> SplitsTurn(log, start, cut.firstKept, turnPrefix)
  {
    var kept := cut.firstKept;
    var skipped := if newest.Some? then newest.value else |log|;
    var end := if cut.turnStart.Some? then cut.turnStart.value else kept;
    assert end <= kept;
    history := CollectMessages(log, start, end, skipped);
    turnPrefix := [];
    if cut.turnStart.Some? {
      turnPrefix := CollectMessages(log, end, kept, skipped);
    }
    if ValidLog(log) && 0 < start {
      assert Collectable(log, start, skipped) && Collectable(log, end, skipped);
      MessagesConcat(log[start..end], log[end..kept]);
      assert log[start..kept] == log[start..end] + log[end..kept];
      assert cut.turnStart.None? ==> log[end..kept] == [];
      assert SplitTurn(log, start, CutPoint(kept, cut.turnStart));
    }
  }

  /** What the newest checkpoint hands on: its file lists and its summary. */
  method PreviousRecord(log: Log, newest: Option<nat>) returns (files: FileOperations, summary: Option<string>)
    requires newest == LatestCompaction(log)
    ensures files == PreviousFiles(log) && summary == PreviousSummary(log)
  {
    if newest.None? {
      return FileOperations({}, {}), None;
    }
    var record := log[newest.value].value.record;
    return FileOperations(record.readFiles, record.modifiedFiles), Some(record.summary);
  }

  method PrepareCompaction(session: AgentSession, config: EffectiveConfig, parse: PathParser)
    returns (r: Result<Option<CompactionPreparation>, SessionError>)
    ensures ValidLog(session.entries) ==> r.Ok?
    ensures r.Ok? && r.value.Some? ==> PreparedFrom(session.entries, config.keepRecent, parse, r.value.value)
    ensures ValidLog(session.entries) ==>
              (r.value.None? <==> NothingToDiscard(session.entries, config.keepRecent))
  {
    var log := session.entries;
    if |log| < 3 || log[|log| - 1].value.Compaction? {
      return Ok(None);
    }
    var located := LocateSuffix(session);
    if located.Err? {
      return Err(located.error);
    }
    var (start, newest) := located.value;
    var cut := FindCutPoint(log, start, |log|, config.keepRecent);
    if cut.None? {
      return Ok(None);
    }
    var history, turnPrefix := SplitDiscarded(log, start, newest, cut.value);
    if ValidLog(log) {
      CutDecides(log, config.keepRecent, cut.value.firstKept);
    }
    if history == [] && turnPrefix == [] {
      return Ok(None);
    }
    var files, previousSummary := PreviousRecord(log, newest);
    files := CollectAllFileOperations(history + turnPrefix, parse, files);
    var checked := Validate(log);
    if checked.Err? {
      return Err(checked.error);
    }
    assert ValidEntry(log, cut.value.firstKept);
    var preparation := CompactionPreparation(
      log[cut.value.firstKept].id, history, turnPrefix, previousSummary,
      EstimateContext(log).tokens, files.read - files.modified, files.modified);
    return Ok(Some(preparation));
  }

  /** Nothing is discarded exactly when the best cut is where the suffix already starts. */
  lemma CutDecides(log: Log, keep: U64, cut: nat)
    requires ValidLog(log) && |log| >= 3 && log[|log| - 1].value.Message?
    requires BestCut(log, SuffixStart(log), |log|, keep, cut)
    ensures Discarded(log, cut) == [] <==> cut == SuffixStart(log)
    ensures Discarded(log, cut) == [] <==> NothingToDiscard(log, keep)
  {
    var start := SuffixStart(log);
    if cut == start {
      assert log[start..cut] == [];
    } else {
      DiscardsSomething(log, cut);
      if BestCut(log, start, |log|, keep, start) {
        BestCutUnique(log, start, |log|, keep, start, cut);
      }
    }
  }

  // ---- What successive compactions keep ---------------------------------

  /** Every checkpoint keeps the log from a user or assistant message on. */
  predicate CutBoundaries(log: Log) {
    forall k | 0 <= k < |log| && log[k].value.Compaction? :: CutAt(log, log[k].value.record.firstKept)
  }

  /** Later checkpoints keep strictly less. */
  predicate BoundariesIncrease(log: Log) {
    forall j, k | 0 <= j < k < |log| && log[j].value.Compaction? && log[k].value.Compaction? ::
      log[j].value.record.firstKept < log[k].value.record.firstKept
  }

  /** The file lists of checkpoint `k` are those of one pass over all it ever discarded. */
  predicate FilesFromScratch(log: Log, parse: PathParser, k: nat)
    requires ValidLog(log) && k < |log| && log[k].value.Compaction?
  {
    assert ValidEntry(log, k);
    var record := log[k].value.record;
    var all := Messages(log[1..record.firstKept]);
    && record.modifiedFiles == PathsIn(all, parse, MODIFY_TOOLS)
    && record.readFiles == PathsIn(all, parse, READ_TOOLS) - record.modifiedFiles
  }

  predicate FilesExact(log: Log, parse: PathParser)
    requires ValidLog(log)
  {
    forall k | 0 <= k < |log| && log[k].value.Compaction? :: FilesFromScratch(log, parse, k)
  }

  predicate Sound(log: Log, parse: PathParser) {
    ValidLog(log) && CutBoundaries(log) && BoundariesIncrease(log) && FilesExact(log, parse)
  }

  /** The record that a successful compaction stores. */
  ghost predicate RecordOf(p: CompactionPreparation, record: CompactionRecord) {
    && record.firstKept == p.firstKept
    && record.readFiles == p.readFiles
    && record.modifiedFiles == p.modifiedFiles
  }

  lemma MessageKeepsSound(log: Log, parse: PathParser, m: ModelMessage)
    requires Sound(log, parse) && (m.System? <==> log == [])
    ensures Sound(log + [MessageEntry(log, m)], parse)
  {
    var log' := log + [MessageEntry(log, m)];
    MessageExtendsContext(log, m);
    forall k | 0 <= k < |log'| && log'[k].value.Compaction?
      ensures FilesFromScratch(log', parse, k) && CutAt(log', log'[k].value.record.firstKept)
    {
      OldCheckpointUnchanged(log, MessageEntry(log, m), parse, k);
    }
  }

  /** For the cuts alone nothing need be known of file lists, or of how boundaries are ordered. */
  lemma CutsStay(log: Log, e: SessionEntry)
    requires CutBoundaries(log) && (e.value.Compaction? ==> CutAt(log, e.value.record.firstKept))
    ensures CutBoundaries(log + [e])
  {
    forall k | 0 <= k < |log + [e]| && (log + [e])[k].value.Compaction?
      ensures CutAt(log + [e], (log + [e])[k].value.record.firstKept)
    {
      assert k < |log| ==> CutAt(log, log[k].value.record.firstKept);
    }
  }

  lemma OldCheckpointUnchanged(log: Log, e: SessionEntry, parse: PathParser, k: nat)
    requires ValidLog(log) && ValidLog(log + [e]) && k < |log| && log[k].value.Compaction?
    requires FilesFromScratch(log, parse, k) && CutAt(log, log[k].value.record.firstKept)
    ensures FilesFromScratch(log + [e], parse, k) && CutAt(log + [e], log[k].value.record.firstKept)
  {
    assert ValidEntry(log, k);
    var b := log[k].value.record.firstKept;
    assert (log + [e])[1..b] == log[1..b];
  }

  lemma CompactionKeepsSound(log: Log, keep: U64, parse: PathParser, p: CompactionPreparation, record: CompactionRecord)
    requires Sound(log, parse) && PreparedFrom(log, keep, parse, p) && RecordOf(p, record)
    ensures Sound(log + [CompactionEntry(log, record)], parse)
  {
    var e := CompactionEntry(log, record);
    var log' := log + [e];
    assert BoundaryIn(log, record.firstKept);
    ExtendValid(log, e);
    NewFilesExact(log, parse, p, record);
    forall k | 0 <= k < |log'| && log'[k].value.Compaction?
      ensures FilesFromScratch(log', parse, k) && CutAt(log', log'[k].value.record.firstKept)
    {
      if k < |log| {
        OldCheckpointUnchanged(log, e, parse, k);
      }
    }
    assert BoundariesIncrease(log') by {
      NewBoundaryIsLargest(log, record.firstKept);
    }
  }

  lemma NewBoundaryIsLargest(log: Log, boundary: nat)
    requires ValidLog(log) && BoundariesIncrease(log) && log != [] && SuffixStart(log) < boundary
    ensures forall k | 0 <= k < |log| && log[k].value.Compaction? :: log[k].value.record.firstKept < boundary
  {
    forall k | 0 <= k < |log| && log[k].value.Compaction?
      ensures log[k].value.record.firstKept < boundary
    {
      var newest := LatestCompaction(log).value;
      assert k <= newest;
    }
  }

  /** Though each compaction sees only the new segment and the previous record. */
  lemma NewFilesExact(log: Log, parse: PathParser, p: CompactionPreparation, record: CompactionRecord)
    requires ValidLog(log) && log != [] && FilesExact(log, parse) && RecordOf(p, record)
    requires SuffixStart(log) < p.firstKept < |log| && log[p.firstKept].value.Message?
    requires FilesFrom(log, Discarded(log, p.firstKept), parse, p)
    requires ValidLog(log + [CompactionEntry(log, record)])
    ensures FilesFromScratch(log + [CompactionEntry(log, record)], parse, |log|)
  {
    var start, cut := SuffixStart(log), p.firstKept;
    var log' := log + [CompactionEntry(log, record)];
    var before, segment := Messages(log[1..start]), Discarded(log, cut);
    assert Messages(log'[1..cut]) == before + segment by {
      assert log'[1..cut] == log[1..start] + log[start..cut];
      MessagesConcat(log[1..start], log[start..cut]);
    }
    PathsConcat(before, segment, parse, MODIFY_TOOLS);
    PathsConcat(before, segment, parse, READ_TOOLS);
    PreviousFilesExact(log, parse);
  }

  lemma PreviousFilesExact(log: Log, parse: PathParser)
    requires ValidLog(log) && log != [] && FilesExact(log, parse)
    ensures var all := Messages(log[1..SuffixStart(log)]);
            && PreviousFiles(log).modified == PathsIn(all, parse, MODIFY_TOOLS)
            && PreviousFiles(log).read == PathsIn(all, parse, READ_TOOLS) - PreviousFiles(log).modified
  {
    match LatestCompaction(log) {
      case Some(k) =>
        assert FilesFromScratch(log, parse, k);
      case None =>
        assert log[1..1] == [];
    }
  }

  /** The old context is the discarded part and the suffix behind prompt and checkpoint. */
  lemma ContextSplits(log: Log, cut: nat)
    requires ValidLog(log) && log != [] && SuffixStart(log) <= cut <= |log|
    ensures EffectiveMessages(log)
         == [SystemPrompt(log)] + Checkpoint(log) + (Discarded(log, cut) + Messages(log[cut..]))
  {
    MessagesSplit(log, SuffixStart(log), cut);
  }

  /**
   * Conservation: preparation splits the old context without loss or
   * repetition, the new context is the same suffix behind the new checkpoint,
   * and the full log of messages does not change.
   */
  lemma CompactionConserves(log: Log, keep: U64, p: CompactionPreparation, record: CompactionRecord)
    requires SplitFrom(log, keep, p) && RecordOf(p, record)
    ensures ValidLog(log + [CompactionEntry(log, record)])
    ensures EffectiveMessages(log)
         == [SystemPrompt(log)] + EarlierSummary(p) + p.history + p.turnPrefix + Messages(log[p.firstKept..])
    ensures EffectiveMessages(log + [CompactionEntry(log, record)])
         == [SystemPrompt(log), ContextSummary(record.summary)] + Messages(log[p.firstKept..])
    ensures Messages(log + [CompactionEntry(log, record)]) == Messages(log)
  {
    assert BoundaryIn(log, record.firstKept);
    CheckpointReplacesContext(log, record);
    ContextSplits(log, p.firstKept);
    assert Checkpoint(log) == EarlierSummary(p);
    Regroup([SystemPrompt(log)] + Checkpoint(log), p.history, p.turnPrefix, Messages(log[p.firstKept..]));
  }

  lemma Regroup<T>(a: seq<T>, b: seq<T>, c: seq<T>, d: seq<T>)
    ensures a + ((b + c) + d) == a + b + c + d
  {
  }

  /** Whatever was compacted away, the projected context pairs every call with its results. */
  lemma ContextIsPaired(log: Log)
    requires ValidLog(log) && CutBoundaries(log) && Balanced(Messages(log))
    ensures Balanced(EffectiveMessages(log)) && Paired(EffectiveMessages(log))
  {
    if log != [] {
      var start := SuffixStart(log);
      var head := [SystemPrompt(log)] + Checkpoint(log);
      var suffix := Messages(log[start..]);
      SuffixIsBalanced(log);
      assert Balanced(head) by {
        HeadIsBalanced(log);
      }
      JoinIsBalanced(head, suffix);
    }
    BalancedIffPaired(EffectiveMessages(log));
  }

  lemma HeadIsBalanced(log: Log)
    requires ValidLog(log) && log != []
    ensures Balanced([SystemPrompt(log)] + Checkpoint(log))
  {
    assert ValidEntry(log, 0);
    var system, checkpoint := [SystemPrompt(log)], Checkpoint(log);
    assert system[1..] == [];
    assert checkpoint != [] ==> checkpoint[1..] == [];
    JoinIsBalanced(system, checkpoint);
  }

  lemma SuffixIsBalanced(log: Log)
    requires log != [] && ValidLog(log) && CutBoundaries(log) && Balanced(Messages(log))
    ensures Balanced(Messages(log[SuffixStart(log)..]))
  {
    match LatestCompaction(log) {
      case Some(k) =>
        assert ValidEntry(log, k);
        BalancedFromCut(log, SuffixStart(log));
      case None =>
        assert ValidEntry(log, 0);
        BalancedAfterPrompt(log);
    }
  }

  lemma {:induction false} BalancedFromCut(log: Log, cut: nat)
    requires CutAt(log, cut) && Balanced(Messages(log))
    ensures Balanced(Messages(log[cut..]))
  {
    var suffix := log[cut..];
    assert log == log[..cut] + suffix;
    MessagesConcat(log[..cut], suffix);
    assert Messages(suffix)[0] == log[cut].value.message by {
      assert suffix == [log[cut]] + log[cut + 1..];
      MessagesConcat([log[cut]], log[cut + 1..]);
      OneMessage(log[cut]);
    }
    CutIsBalanced(Messages(log[..cut]), Messages(suffix));
  }

  lemma {:induction false} BalancedAfterPrompt(log: Log)
    requires log != [] && IsSystem(log[0]) && Balanced(Messages(log))
    ensures Balanced(Messages(log[1..]))
  {
    var prompt := log[0].value.message;
    assert log == [log[0]] + log[1..];
    MessagesConcat([log[0]], log[1..]);
    OneMessage(log[0]);
    ScanConcat([], [prompt], Messages(log[1..]));
    assert [prompt][1..] == [];
  }

  lemma OneMessage(e: SessionEntry)
    requires e.value.Message?
    ensures Messages([e]) == [e.value.message]
  {
    assert [] + [e] == [e];
    MessagesSnoc([], e);
  }
}
