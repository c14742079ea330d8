# Tascarrel: a verified model of its agent core

This project models the parts of Tascarrel in which state has to survive
something going wrong, and proves what those parts promise over every input,
every run or every reachable state:

- the agent's session log and its projection into a model context, context
  compaction, and the loop of requests, retries, tool calls and compactions
  (`Session`, `Transcript`, `Compaction`, `StreamCollection`, `Agent`);
- the crash-recoverable session journal and the harness process that drives
  the agent and commits before it acknowledges (`Journal`, `Harness`);
- the revision-aware file workspace: which bytes were read, bounded reads of
  UTF-8 text, edit application and staged batches (`Coverage`, `Paging`,
  `Edits`, `Workspace`);
- three protocol state machines: the credit-windowed browser connection, the
  bounded ring of process output and the reassembly of chunked chat snapshots
  (`ControlConnection`, `ProcessOutput`, `ChatBootstrap`).

`Foundation` holds result types, bytes and 64-bit saturating arithmetic, `Model` the
provider-neutral messages, `Sorting` the stable sort that edits and coverage
rely on.

Code that changes state is modelled in place: sessions, accumulators, stores,
the journal file, observations, the connection and the output ring are
classes, and loops stay loops. Everything outside (model replies, tool
outcomes, cancellation, failing file operations, other processes, protocol
input) is fixed in advance but arbitrary, as functions of how many operations
came before, so that each method speaks about every environment.

`dafny verify dfyconfig.toml` checks the whole project.

## The main results

- **Crash atomicity.** From a created journal, whatever sequence of persists,
  interrupted writes, power losses at any byte past the last synchronization,
  exits, reopens and interrupted reopens follows, `open` never fails and
  returns one of the sessions that were handed to the journal, at least the
  one last made safe (`CrashAtomicity`, `OneAttemptInFlight`). The store itself
  takes the steps of these histories, faults included, so the same holds of
  the file it works on (`Operate`). Which files are accepted at all is stated
  over their lines (`DecodesIff`), and decoding what is kept of one gives the
  same result (`RecoveryIsStable`).
- **A durability gap, with its exact condition.** `persist` acknowledges an
  unchanged session without synchronizing. After `open` kept a whole tail that
  was never synchronized, such an acknowledgement does not survive every power
  loss (`UnchangedPersistCanBeLost`); it does if and only if the file was
  fully synchronized (`UnchangedPersistDurableIff`). `persist` is described as
  a durable append (crates/libs/tascarrel-agent/src/session_store.rs:146); the
  model follows the code.
- **Harness consistency.** At every point where a harness with a persistent
  session accepts a command, the session in memory is what the journal decodes
  to. From one such point to the next the session moves on exactly by an
  acknowledgement, which is for the later session, strictly extends the
  earlier one and was durable when it was written (`RunHarness`,
  `AcknowledgedTurns`).
- **No acknowledged session is ever lost.** Over any number of processes,
  power losses between them, failed creations and failed opens, every process that restores
  the journal starts from a session that extends all that was acknowledged
  before, and so would the next (`Lifetime`).
- **Tool pairing over whole runs.** Every request of every run, also after
  overflow, threshold and manual compactions and across restarts, has each
  assistant message with calls followed at once by exactly its results in
  order, and no other results (`RunInner`, `RunHarness`, `BalancedIffPaired`).
  The requests of a run show the effective contexts of logs that grow from the
  opened session to the final one (`RunInner`).
- **What a run records is what was said.** The conversation of a run is its
  opening followed by each response exactly as the reply to its request spells
  it out, and the results of exactly its calls, executed in that order
  (`RunInner`, `YieldsIff`, `CollectSucceedsIff`). An acknowledged turn of the
  harness holds the prompt it was given, and a compaction adds no message
  (`HandleCommand`, `RunHarness`).
- **Every failure has a cause.** A run that could be opened fails only because
  cancellation was found by a poll, a tool or the provider, the last request
  was given up with no retry left or allowed, a response or summary was
  unusable, an overflowing context had nothing to discard, or every step
  allowed went into a round of tool calls (`RunInner`, `CompactSession`).
- **Compaction.** Nothing of a context is lost or repeated by a split, the new
  context is the new summary and the same suffix, the conversation itself is
  unchanged, boundaries strictly increase, and incremental file lists equal a
  pass over everything discarded so far (`CompactionConserves`,
  `CompactionKeepsSound`). No earlier summary is dropped
  (`EarlierSummaryCarriesOn`). The cut point is the best one (`FindCutPoint`), and
  the messages after it leave room for the summary (`CutLeavesRoom`): for every
  window of three tokens or more, but not for every window of two, with the
  exact condition on the caller's settings (`TailFitsForWindows`, `TailFitsIff`).
- **Bounds.** A prompt makes at most (max_steps + 1) x (retries + 1) primary
  and 4 x (retries + 1) summary requests, one overflow and one threshold
  compaction (`RunInner`).
- **Streams.** Collection succeeds exactly on the streams of a declarative
  grammar, with each call's arguments the concatenation of its own fragments,
  and does not depend on how text is split (`CollectSucceedsIff`,
  `ResplitInvariant`).
- **Files.** Reading a file that nobody else touches, page after page from the
  first cursor and with any limits, ends, returns the file byte for byte and
  leaves it completely observed (`ReadToEnd`), so that it may then be rewritten
  (`ReadThenRewrite`). Coverage is exactly the set of bytes read
  (`ObserveAll`). Edits do not depend on their order and equal replacing from
  the right (`EditOrderIrrelevant`, `EditsMean`). A batch changes nothing
  unless every target was reread and found as observed and every poll found no
  cancellation: one before each staged file, one after them, and a last one
  after the rereading (`CommitMutations`). Targets changed by a batch that failed
  midway are refused as stale (`EditText`). Where no operation fails, no poll
  finds cancellation and nobody else touches the targets, a write or an edit
  succeeds if and only if what was read allows it (`WriteText`, `EditText`).
- **Protocols.** Under every interleaving a subscription's unhandled events
  stay within its window, ids and subscriptions agree one to one, retired ids
  earn no credit and no invocation is sent or settled twice (`Interleave`,
  `Continue`). A polling client's record is the process output with gaps exactly
  where it was told (`RunsAreFaithful`); `Exited` is final but `Failed` is not
  (`ExitedWithoutMoreIsComplete`, `FailedIsNotFinal`), a reported end is final
  if and only if the stderr reader has stopped (`FinalIff`), and which one is
  reported is decided by how child and readers ended (`ReportsIff`). A chat snapshot is
  projected if and only if it is an interleaving of in-order ranges with one
  stamp and the declared counts (`ProjectsIffSnapshot`).

## Model

| member | source | states |
|---|---|---|
| `Session.LatestCompaction` | crates/libs/tascarrel-agent/src/session.rs:146-152 | the newest checkpoint, with only messages after it, or none at all |
| `Session.AgentSession.NewestCompaction` | crates/libs/tascarrel-agent/src/session.rs:146-152 | the backward search finds that checkpoint |
| `Session.EntryIndex` | crates/libs/tascarrel-agent/src/session.rs:154-158 | the binary search answers only with an entry of that id, finds every id of an ascending log, and on contiguous logs the right position; on others it may miss |
| `Session.Validate` | crates/libs/tascarrel-agent/src/session.rs:168-213 | accepts exactly the valid logs although it searches by id before all ids are checked; every error names what is wrong, and a missing and an invalid boundary are told apart |
| `Session.AgentSession.EffectiveContext` | crates/libs/tascarrel-agent/src/session.rs:68-102 | succeeds exactly on valid logs and gives system prompt, newest checkpoint and the messages from its boundary on |
| `Session.AgentSession.AppendMessage` | crates/libs/tascarrel-agent/src/session.rs:110-122 | system messages first and only first; otherwise the session stays as it was |
| `Session.AgentSession.AppendCompaction` | crates/libs/tascarrel-agent/src/session.rs:124-144 | accepted exactly when the boundary is an original message that is not the system prompt, with the right error otherwise |
| `Session.AgentSession.Append` | crates/libs/tascarrel-agent/src/session.rs:160-166 | the id follows the last one and the entry is added at the end |
| `Session.BuildByAppends` | crates/libs/tascarrel-agent/src/session.rs:110-166 | whatever appends are tried, in whatever order, the session validates |
| `Session.PrefixIsValid` | crates/libs/tascarrel-agent/src/session.rs:168-213 | every prefix of a valid log is valid |
| `Session.MessageExtendsContext` | crates/libs/tascarrel-agent/src/session.rs:68-122 | appending a message extends the effective context by exactly that message |
| `Session.CheckpointReplacesContext` | crates/libs/tascarrel-agent/src/session.rs:68-144 | a checkpoint replaces everything before its boundary and nothing after it, and no message is lost from the log |
| `Transcript.ScanIffPaired` | crates/libs/tascarrel-agent/src/agent.rs:468-550 | the left-to-right scan with calls still waiting agrees with the declarative pairing of what follows |
| `Transcript.BalancedIffPaired` | crates/libs/tascarrel-agent/src/agent.rs:468-550 | a conversation scans to nothing waiting exactly when every call is answered at once, in order, and no result stands elsewhere |
| `Transcript.CutIsBalanced` | crates/libs/tascarrel-agent/src/compaction.rs:480-485 | cutting before anything but a tool result leaves two paired parts |
| `Compaction.TailFitsIff` | crates/libs/tascarrel-agent/src/compaction.rs:137-170 | every tail below the keep budget leaves room for the summary under the threshold if and only if configuration, window and output limit satisfy a condition stated over them alone |
| `Compaction.CutLeavesRoom` | crates/libs/tascarrel-agent/src/compaction.rs:428-478 | under that condition, the messages after the chosen cut plus a full-size summary stay under the threshold whenever some cut is affordable |
| `Compaction.TailFitsForWindows` | crates/libs/tascarrel-agent/src/compaction.rs:137-170 | it does for every configuration from windows of three tokens on, and fails for the default configuration with a window of two |
| `Compaction.EffectiveMeans` | crates/libs/tascarrel-agent/src/compaction.rs:137-170 | reserve, threshold and keep budget over configuration, window and output limit; summaries get four fifths and half of the reserve |
| `Compaction.ShareMeans` | crates/libs/tascarrel-agent/src/compaction.rs:149-160 | a share of the reserve, rounded down, at least one token and within the output limit |
| `Compaction.EstimateMeans` | crates/libs/tascarrel-agent/src/compaction.rs:387-414 | a message counts four tokens and one for every four bytes of its texts, rounded up |
| `Compaction.ToolEstimateMeans` | crates/libs/tascarrel-agent/src/compaction.rs:416-426 | tool definitions count one token for every four bytes of name, description and schema |
| `Compaction.CrossedAfterUsage` | crates/libs/tascarrel-agent/src/compaction.rs:188-203 | after a usage report the threshold is crossed exactly by the reported tokens and the estimates of all messages since |
| `Compaction.CrossedWithoutUsage` | crates/libs/tascarrel-agent/src/compaction.rs:188-203 | without one since the newest checkpoint, exactly by the estimates of the whole context and of the tools |
| `Compaction.MessageRaisesEstimate` | crates/libs/tascarrel-agent/src/compaction.rs:348-414 | a message with provider usage replaces the context estimate by its input and output tokens, any other raises it by its own estimate, saturating |
| `Compaction.CheckpointResetsEstimate` | crates/libs/tascarrel-agent/src/compaction.rs:352-385 | after a checkpoint no earlier provider usage counts, not even that of kept messages |
| `Compaction.ThresholdStaysCrossed` | crates/libs/tascarrel-agent/src/compaction.rs:188-203 | between usage reports a crossed threshold stays crossed |
| `Compaction.TailShrinks` | crates/libs/tascarrel-agent/src/compaction.rs:441-448 | the backward sum never decreases as it goes back, saturation included |
| `Compaction.CutPoints` | crates/libs/tascarrel-agent/src/compaction.rs:434-440 | exactly the user and assistant entries of the segment, in order |
| `Compaction.FindCutPoint` | crates/libs/tascarrel-agent/src/compaction.rs:428-478 | the earliest user or assistant entry with less than the budget strictly after it, or the last one if none qualifies; none exactly if there is no such entry; and the last user entry before a split turn |
| `Compaction.FindLastUser` | crates/libs/tascarrel-agent/src/compaction.rs:466-473 | the newest user entry of the segment |
| `Compaction.BestCutUnique` | crates/libs/tascarrel-agent/src/compaction.rs:428-478 | the cut that the definition describes is unique |
| `Compaction.CollectFileOperations` | crates/libs/tascarrel-agent/src/compaction.rs:554-586 | adds the paths of the message's read and its write or edit calls to the two sets, and nothing else |
| `Compaction.LocateSuffix` | crates/libs/tascarrel-agent/src/compaction.rs:217-231 | where the kept suffix of a valid session starts |
| `Compaction.SplitDiscarded` | crates/libs/tascarrel-agent/src/compaction.rs:234-252 | history and turn prefix are together exactly the discarded messages, split at the last user message |
| `Compaction.PrepareCompaction` | crates/libs/tascarrel-agent/src/compaction.rs:205-273 | succeeds on every valid session, prepares nothing exactly if nothing would be discarded, and otherwise cuts at the best point with conserved parts, cumulative file lists and the summary of the newest checkpoint |
| `Compaction.CutDecides` | crates/libs/tascarrel-agent/src/compaction.rs:209-252 | nothing is discarded exactly when the best cut is the start of the suffix |
| `Compaction.CompactionConserves` | crates/libs/tascarrel-agent/src/compaction.rs:205-273 | the old context is system, the summary that the preparation hands on, history, turn prefix and suffix; the new one is system, new summary and the same suffix; the conversation is unchanged |
| `Compaction.NewFilesExact` | crates/libs/tascarrel-agent/src/compaction.rs:217-271 | file lists made from the previous record and the new segment equal those of all messages discarded so far |
| `Compaction.CompactionKeepsSound` | crates/libs/tascarrel-agent/src/compaction.rs:205-273 | over any number of compactions boundaries are cut points and strictly increase, and every record's file lists are exact |
| `Compaction.MessageKeepsSound` | crates/libs/tascarrel-agent/src/session.rs:110-122 | appending messages keeps all of that |
| `Compaction.ContextIsPaired` | crates/libs/tascarrel-agent/src/compaction.rs:428-485 | if the conversation is paired, so is the effective context, whatever was compacted |
| `StreamCollection.FoldMeansGrammar` | crates/libs/tascarrel-agent/src/agent.rs:915-1036 | events are accepted exactly if they follow the grammar, and what is accumulated is what the events spell out |
| `StreamCollection.CollectSucceedsIff` | crates/libs/tascarrel-agent/src/agent.rs:894-1112 | collection succeeds exactly on grammatical streams with usable content; the response has the text, reasoning, usage and end of the events, and every started call, in order, with its own name and arguments |
| `StreamCollection.AcceptFollows` | crates/libs/tascarrel-agent/src/agent.rs:915-963 | one more event is accepted exactly if it may follow, and continues the content |
| `StreamCollection.ResplitInvariant` | crates/libs/tascarrel-agent/src/agent.rs:915-1015 | splitting a text, reasoning or argument fragment in two changes neither success nor the response |
| `StreamCollection.ResponseAccumulator.AcceptEvent` | crates/libs/tascarrel-agent/src/agent.rs:915-963 | the accumulator takes the step that the fold takes, or fails with its violation |
| `StreamCollection.ResponseAccumulator.StartToolCall` | crates/libs/tascarrel-agent/src/agent.rs:981-996 | rejects a second start, keeps the id index and the ordered calls in agreement |
| `StreamCollection.ResponseAccumulator.AppendToolArguments` | crates/libs/tascarrel-agent/src/agent.rs:998-1015 | extends the arguments of that open call only |
| `StreamCollection.ResponseAccumulator.CompleteToolCall` | crates/libs/tascarrel-agent/src/agent.rs:1017-1028 | completes that open call only, once |
| `StreamCollection.ResponseAccumulator.IndexFinds` | crates/libs/tascarrel-agent/src/agent.rs:894-901 | the id index finds what a search of the ordered calls finds |
| `StreamCollection.ResponseAccumulator.FinishResponse` | crates/libs/tascarrel-agent/src/agent.rs:965-979 | succeeds exactly with a terminal event, all calls complete and some content; every field and call of the response is what was accumulated |
| `Agent.CollectResponse` | crates/libs/tascarrel-agent/src/agent.rs:1039-1066 | the response the whole stream spells out; invalid only if no response exists, cancelled exactly if a poll found it requested, a provider error only if the stream holds it |
| `Agent.YieldsIff` | crates/libs/tascarrel-agent/src/agent.rs:1039-1092 | a reply yields a response exactly if it is an unbroken, grammatical, usable stream that spells it out |
| `Agent.RequestModel` | crates/libs/tascarrel-agent/src/agent.rs:392-466 | repeats one unchanged request, only after transport failures and at most once per allowed retry; fails with cancellation exactly as found by a poll, otherwise with the last error once no retry is left or allowed, and with an invalid stream only if the reply yields no response |
| `Agent.RequestSummary` | crates/libs/tascarrel-agent/src/agent.rs:645-711 | the same for summaries, whose answers call no tools |
| `Agent.Summarize` | crates/libs/tascarrel-agent/src/agent.rs:574-587 | asks about the history first and the turn prefix second, each only if it is not empty, and returns what the last reply to each said |
| `Agent.StoreSummary` | crates/libs/tascarrel-agent/src/agent.rs:590-623 | stores the combined answers and the sum of their usage unless they say nothing |
| `Agent.CombinedHolds` | crates/libs/tascarrel-agent/src/compaction.rs:317-333 | the text starts with the new or else the earlier summary of the past, ends with the file lists, and holds the split turn between them, and nothing else |
| `Agent.CombineUsage` | crates/libs/tascarrel-agent/src/compaction.rs:335-346 | every count is the sum of both answers, clamped to 64 bits, and missing only if both miss it |
| `Agent.EarlierSummaryCarriesOn` | crates/libs/tascarrel-agent/src/compaction.rs:275-333 | an earlier summary is never dropped: the new one starts with it, or the model was asked to update it |
| `Agent.AppendRecord` | crates/libs/tascarrel-agent/src/agent.rs:605-623 | the record appended is the draft with the estimate of the context that it leads to |
| `Agent.CompactSession` | crates/libs/tascarrel-agent/src/agent.rs:553-643 | appends exactly one checkpoint, which combines the last replies to requests about a preparation of this session, or leaves it as it was; starts unless cancelled or there is nothing to discard; at most two rounds of summary requests; fails only by cancellation, a request given up, nothing to discard or a blank summary |
| `Agent.AppendSessionMessage` | crates/libs/tascarrel-agent/src/agent.rs:1142-1147 | extends log and conversation by the message and keeps checkpoints sound |
| `Agent.ExecuteToolCall` | crates/libs/tascarrel-agent/src/agent.rs:468-550 | runs the call once and records its output or its failure as its result |
| `Agent.ExecuteToolCalls` | crates/libs/tascarrel-agent/src/agent.rs:468-550 | one result per call, in call order, each for its own call; then no call is left waiting; fails only by cancellation, found by a poll or by the last tool executed |
| `Agent.RequestWithOverflowRecovery` | crates/libs/tascarrel-agent/src/agent.rs:293-346 | one recovery per run, which keeps the conversation; an overflow is reported only without compaction or after the recovery; paired requests, each of which shows the log as it is then; fails only as its request or the recovery does |
| `Agent.CompactCompletedSession` | crates/libs/tascarrel-agent/src/agent.rs:348-390 | compacts exactly if enabled, over the threshold, not cancelled and with something to discard; never loses a message |
| `Agent.OpenRun` | crates/libs/tascarrel-agent/src/agent.rs:173-196 | a new session gets the system prompt, then the user's prompt follows |
| `Agent.TakeResponse` | crates/libs/tascarrel-agent/src/agent.rs:213-271 | the response as given and then exactly its results are appended, exactly its calls are executed, and the run ends exactly if it makes none |
| `Agent.StepTallies` | crates/libs/tascarrel-agent/src/agent.rs:197-271 | what steps may spend adds up to the bounds of a run |
| `Agent.RunStep` | crates/libs/tascarrel-agent/src/agent.rs:197-271 | the conversation grows by exactly what the last reply spells out and the results of its calls, which are what is executed; what a step may spend, that it keeps pairing, and why it fails |
| `Agent.RunInner` | crates/libs/tascarrel-agent/src/agent.rs:173-271 | bounds on requests and compactions of a run; the log only grows, holds the prompt and ends with an answer that calls no tool; from any session whose checkpoints cut before user or assistant messages and whose calls are answered, every request is paired; requests show growing logs between the opened session and the last; cuts, boundaries and file lists stay as good as they were; the conversation is the opening followed by each response, as spelled out by the reply to a request that showed all said before it, and its results; exactly their calls are executed, in order; every failure has its cause |
| `Agent.RunCompaction` | crates/libs/tascarrel-agent/src/agent.rs:138-170 | a manual compaction adds one checkpoint and no message |
| `Journal.LineEndIff` | crates/libs/tascarrel-agent/src/session_store.rs:335-399 | lines end at the first newline, or nowhere |
| `Journal.ReadTransaction` | crates/libs/tascarrel-agent/src/session_store.rs:157-190 | a whole transaction decodes to the session it was written for |
| `Journal.ReadTornTransaction` | crates/libs/tascarrel-agent/src/session_store.rs:335-399 | a transaction cut anywhere before its last byte adds nothing and is not an error |
| `Journal.ReadPrefix` | crates/libs/tascarrel-agent/src/session_store.rs:335-399 | any prefix of a journal that holds its header decodes to the newest whole session in it |
| `Journal.StepKeepsConsistent` | crates/libs/tascarrel-agent/src/session_store.rs:96-190 | every persist, interruption, crash and reopen keeps the file a prefix of what was written, with everything safe still in it |
| `Journal.CrashAtomicity` | crates/libs/tascarrel-agent/src/session_store.rs:96-190 | over every history reopening succeeds and recovers one of the sessions handed over, no older than the safe one |
| `Journal.OneAttemptInFlight` | crates/libs/tascarrel-agent/src/session_store.rs:157-190 | with one attempt since the last acknowledgement, recovery gives the acknowledged session or the attempted one |
| `Journal.UnchangedPersistDurableIff` | crates/libs/tascarrel-agent/src/session_store.rs:157-175 | an unchanged session, acknowledged without synchronizing, survives every power loss if and only if the file was fully synchronized, also for a journal whose creation never was |
| `Journal.UnchangedPersistCanBeLost` | crates/libs/tascarrel-agent/src/session_store.rs:118-175 | for every session there is a history in which it is acknowledged that way and can be lost |
| `Journal.StepKeepsTracked` | crates/libs/tascarrel-agent/src/session_store.rs:44-190 | the same accounting for journals whose creation was interrupted: nothing of them was acknowledged, and they open exactly if their header is whole |
| `Journal.AcknowledgedStays` | crates/libs/tascarrel-agent/src/session_store.rs:96-190 | no step gives up what was acknowledged, and a reopened session extends it |
| `Journal.Happen` | crates/libs/tascarrel-agent/src/session_store.rs:96-190 | one call of the store with any fault, a failing or interrupted open included, a power loss or an exit is one step of a history, or changes nothing |
| `Journal.Operate` | crates/libs/tascarrel-agent/src/session_store.rs:44-190 | through any sequence of such happenings the file can be opened and holds at least what was acknowledged |
| `Journal.RecoveryIsStable` | crates/libs/tascarrel-agent/src/session_store.rs:96-144 | for any accepted bytes, decoding the part that is kept gives the same entries and boundary |
| `Journal.ForeignOwnerRejected` | crates/libs/tascarrel-agent/src/session_store.rs:335-372 | a journal opens for no other session id or working directory |
| `Journal.DecodeSessionFile` | crates/libs/tascarrel-agent/src/session_store.rs:335-399 | the loop up to the last newline computes the recursive decoding of the whole file |
| `Journal.DecodesIff` | crates/libs/tascarrel-agent/src/session_store.rs:335-399 | a file decodes if and only if its whole lines are a header of this version and owner, then entries and commits that count all entries so far, one of them new; its session is the entries up to the last commit |
| `Journal.RawLinesAreLines` | crates/libs/tascarrel-agent/src/session_store.rs:340-346 | those lines are the file up to its last newline |
| `Journal.CheckSessionId` | crates/libs/tascarrel-agent/src/session_store.rs:322-332 | accepts exactly the identifiers of letters, digits, dots, dashes and underscores, within the length limit, that start and end with a letter or digit |
| `Journal.EncodeFrom` | crates/libs/tascarrel-agent/src/session_store.rs:166-175 | the lines of exactly the entries not yet persisted |
| `Journal.AgentSessionStore.Create` | crates/libs/tascarrel-agent/src/session_store.rs:44-84 | succeeds exactly for a valid id, no existing file and no fault, with the history of a new journal; never touches an existing file; a fault leaves a part of the header |
| `Journal.AgentSessionStore.Open` | crates/libs/tascarrel-agent/src/session_store.rs:96-144 | the session the file decodes to, truncated to its boundary; fails exactly if it does not decode or a fault strikes; whatever comes of it the next open finds the same; success is the reopening step of its history, failure an interrupted one or none |
| `Journal.AgentSessionStore.Persist` | crates/libs/tascarrel-agent/src/session_store.rs:157-190 | detects divergence exactly as the code does; otherwise the persisting or interrupted step of its history, synchronized on success |
| `Harness.FinishSuccessfulOperation` | crates/apps/tasci-exec/src/main.rs:512-548 | acknowledges the new session, with its durable image, exactly if persisting succeeded; else reports an error about the old one and stops |
| `Harness.Conclude` | crates/apps/tasci-exec/src/main.rs:289-332 | which event a turn or compaction ends with, about which session, with what on the medium, and which session it leaves, for success, storage failure, cancellation and error |
| `Harness.RunAgent` | crates/apps/tasci-exec/src/main.rs:239-263 | a prompt turn adds its own prompt, after the system prompt of a new session, and ends with an answer; a compaction adds exactly one checkpoint; otherwise there is a cause; requests follow the given configuration and are paired |
| `Harness.HarnessIo.Listen` | crates/apps/tasci-exec/src/main.rs:259-284 | anything said during an operation but interrupt and stop is an error; either cancels, and exactly a stop ends the harness |
| `Harness.RunOperation` | crates/apps/tasci-exec/src/main.rs:239-427 | one operation, whatever arrives meanwhile: it is acknowledged exactly if it succeeded and was stored, the session then serves the command and is durable, and is in step with the journal unless the harness stops; how it ends follows what was said meanwhile |
| `Harness.HandleCommand` | crates/apps/tasci-exec/src/main.rs:154-231 | each command's effect on session, configuration and events: a prompt adds its own message and an answer, a compaction one checkpoint and no message; failures have their cause; changing directory or servers and a second start are rejected |
| `Harness.TakeCommand` | crates/apps/tasci-exec/src/main.rs:154-231 | a command is read only with the session in step with the journal, and served, and leaves them in step or stops; requests follow the configuration it leaves in force |
| `Harness.CommandLoop` | crates/apps/tasci-exec/src/main.rs:154-231 | at every command read the session is what the journal decodes to; between them it moves only by acknowledged turns that serve the command; every turn uses the configuration in force by then |
| `Harness.AcknowledgedTurns` | crates/apps/tasci-exec/src/main.rs:154-231 | between two commands read, the session changes exactly if the later one was acknowledged, and then strictly extends the earlier by what the command asks for |
| `Harness.InitializeSession` | crates/apps/tasci-exec/src/main.rs:430-454 | for any file: a new journal exactly if none exists and nothing fails; an existing one exactly if it decodes for this owner and no fault strikes, and with which entries; from a journal of this program it is in step, extends what was acknowledged there, and belongs to the same session and directory |
| `Harness.RunHarness` | crates/apps/tasci-exec/src/main.rs:132-232 | over a whole process: in step at every command, which is served as given and in order, acknowledged only when durable, every turn with the configuration in force, restored sessions extend what was acknowledged before, every request paired, and a journal of which all that holds again |
| `Harness.Lifetime` | crates/apps/tasci-exec/src/main.rs:132-232 | over any number of processes, power losses, failed creations and failed opens, no acknowledged session is lost and every request is paired |
| `Coverage.ContainsIffCovered` | crates/libs/tascarrel-agent/src/file_workspace.rs:343-347 | one merged range spans a range exactly when every byte of it was observed |
| `Coverage.Merge` | crates/libs/tascarrel-agent/src/file_workspace.rs:328-340 | sorted, no empty range, strict gaps, and exactly the bytes of the input |
| `Coverage.FileObservation.Observe` | crates/libs/tascarrel-agent/src/file_workspace.rs:320-341 | adds exactly the range's bytes, and marks an empty file as observed |
| `Coverage.FileObservation.ContainsRange` | crates/libs/tascarrel-agent/src/file_workspace.rs:343-347 | whether some range spans the given one |
| `Coverage.ObserveAll` | crates/libs/tascarrel-agent/src/file_workspace.rs:305-355 | after any sequence of reads the coverage is their union, and complete exactly when every byte was read, or for an empty file when it was read at all |
| `Paging.TextLineRanges` | crates/libs/tascarrel-agent/src/file_workspace.rs:713-724 | each range ends after a newline or at the end of the text, with no newline before |
| `Paging.LinesTile` | crates/libs/tascarrel-agent/src/file_workspace.rs:713-724 | line ranges are nonempty, adjoin, cover the text and end at character boundaries |
| `Paging.LinesUnique` | crates/libs/tascarrel-agent/src/file_workspace.rs:713-724 | a text has only one list of line ranges |
| `Paging.ReadCursorForByte` | crates/libs/tascarrel-agent/src/file_workspace.rs:701-711 | every byte of the text has a cursor that reads on from it |
| `Paging.FloorBoundary` | crates/libs/tascarrel-agent/src/file_workspace.rs:668-671 | the last character boundary not after the limit |
| `Paging.PageEnd` | crates/libs/tascarrel-agent/src/file_workspace.rs:668-674 | the last character boundary within the byte and line limits, or one whole character if even that exceeds the bytes |
| `Paging.SelectText` | crates/libs/tascarrel-agent/src/file_workspace.rs:619-699 | succeeds exactly for readable cursors and positive limits; content, range, line numbers and next cursor of the page, which no later boundary within both limits could extend |
| `Paging.TextMatchBoundaries` | crates/libs/tascarrel-agent/src/file_workspace.rs:567-617 | text found inside text starts and ends at character boundaries |
| `Edits.OneMatchIff` | crates/libs/tascarrel-agent/src/file_workspace.rs:581-590 | exactly one match means a first occurrence and none that starts after it ends |
| `Edits.OverlapIsNotCounted` | crates/libs/tascarrel-agent/src/file_workspace.rs:581-590 | an overlapping second occurrence does not make a match ambiguous |
| `Edits.LocateMeans` | crates/libs/tascarrel-agent/src/file_workspace.rs:577-601 | an edit is located exactly if its text is not empty, matches once and was read in full |
| `Edits.ApplyEdits` | crates/libs/tascarrel-agent/src/file_workspace.rs:567-617 | succeeds exactly if there are edits, all are located and none overlap, with the spliced text |
| `Edits.SpliceAll` | crates/libs/tascarrel-agent/src/file_workspace.rs:608-616 | the cursor loop computes the one-pass splice |
| `Edits.EditOrderIrrelevant` | crates/libs/tascarrel-agent/src/file_workspace.rs:567-617 | whether edits apply and to what does not depend on their order |
| `Edits.OnePassEqualsFromTheRight` | crates/libs/tascarrel-agent/src/file_workspace.rs:608-616 | one pass equals replacing the matches one by one from the right |
| `Edits.EditsMean` | crates/libs/tascarrel-agent/src/file_workspace.rs:567-617 | every replaced range had been read, the result is the replacement from the right, and the length changes by new minus old |
| `Workspace.StageAll` | crates/libs/tascarrel-agent/src/file_workspace.rs:407-441 | every prepared content is staged under its own name, with one poll before each; cancelled exactly if a poll says so, an I/O failure only if an operation failed |
| `Workspace.ValidateAll` | crates/libs/tascarrel-agent/src/file_workspace.rs:443-466 | reads the targets in order and passes only if each was found as observed; refuses the first that was not, with its error, and otherwise only if a read failed |
| `Workspace.InstallAll` | crates/libs/tascarrel-agent/src/file_workspace.rs:468-498 | changes the targets in order, each to its content, and nothing else, up to the first failure, which is a failed operation or a new target that exists already; other processes may write in between |
| `Workspace.CommitMutations` | crates/libs/tascarrel-agent/src/file_workspace.rs:500-548 | no target changes unless all were reread and found as observed; cancelled, with nothing changed, exactly if one of the polls before the commit phase says so, the last of which comes after the last read; a failure midway is an I/O failure; on success all hold their content and count as read in full; an undisputed batch fails only by cancellation or a failed operation |
| `Workspace.FileWorkspace.ReadText` | crates/libs/tascarrel-agent/src/file_workspace.rs:74-102 | the page of the current file for that cursor and those limits, added exactly to what is known of this revision; fails only by cancellation, a failed operation, or a file or arguments that cannot be read |
| `Workspace.FileWorkspace.RequireCurrentObservation` | crates/libs/tascarrel-agent/src/file_workspace.rs:177-199 | refused as unread exactly if it was not read, as stale exactly if it changed, and as I/O failure exactly if the read failed or the file is gone |
| `Workspace.FileWorkspace.PrepareWrite` | crates/libs/tascarrel-agent/src/file_workspace.rs:114-130 | a new file, or one just found unchanged that was read in full; if no operation fails and nobody interferes, succeeds exactly for those |
| `Workspace.FileWorkspace.WriteText` | crates/libs/tascarrel-agent/src/file_workspace.rs:105-131 | one change on success and none on failure; cancelled exactly if a poll says so; if no operation fails, none does and nobody interferes, succeeds exactly for a new file or an unchanged one that was read in full |
| `Workspace.FileWorkspace.PrepareEdit` | crates/libs/tascarrel-agent/src/file_workspace.rs:150-172 | the content the edits make of the observed revision, still text; succeeds exactly if the file is current and the edits apply, unless an operation fails or somebody interferes |
| `Workspace.FileWorkspace.EditText` | crates/libs/tascarrel-agent/src/file_workspace.rs:134-175 | all files are prepared before one changes, and reread before that; exactly the files with new content are described; cancelled exactly if a poll says so; any error but an I/O failure changes none; after a failure midway the changed ones are stale until read again; with no failing operation, no cancellation and no interference it succeeds exactly if every file is current, named once and its edits apply |
| `Workspace.FileWorkspace.ReadToEnd` | crates/libs/tascarrel-agent/src/file_workspace.rs:74-102 | on a file that nobody else touches, following next cursors with any positive limits terminates, returns the file in pieces and leaves it current and completely observed, empty files included; succeeds exactly if the file exists, is text, no operation fails and no poll says to stop |
| `Workspace.FileWorkspace.ReadThenRewrite` | crates/libs/tascarrel-agent/src/file_workspace.rs:74-131 | after such a read the file may be rewritten, unless an operation fails or cancellation is requested |
| `Workspace.EditedIsText` | crates/libs/tascarrel-agent/src/file_workspace.rs:567-617 | editing text with text gives text |
| `ProcessOutput.RetainedFrom` | crates/libs/tascarrel-agent/src/process_runtime.rs:476-485 | the last bytes up to the limit are retained, and no fewer once anything was dropped |
| `ProcessOutput.ProcessShared.Append` | crates/libs/tascarrel-agent/src/process_runtime.rs:476-485 | the buffer stays the retained end of everything ever appended |
| `ProcessOutput.ProcessShared.Observe` | crates/libs/tascarrel-agent/src/process_runtime.rs:444-474 | the bytes of the stream from the cursor or the oldest retained one on, with truncation and more-output flags exact |
| `ProcessOutput.RunsAreFaithful` | crates/libs/tascarrel-agent/src/process_runtime.rs:444-583 | over every interleaving of readers, supervisor and polls, the client's pieces are the stream with gaps exactly where flagged |
| `ProcessOutput.PollIsObserve` | crates/libs/tascarrel-agent/src/process_runtime.rs:444-474 | the client's record grows by what an observation at its cursor returns |
| `ProcessOutput.ReportsIff` | crates/libs/tascarrel-agent/src/process_runtime.rs:511-553 | over every run and its actions alone: exited with a code if and only if the supervisor finished with it, waiting succeeded and both readers ended well; failed whenever it finished otherwise |
| `ProcessOutput.FinishesIff` | crates/libs/tascarrel-agent/src/process_runtime.rs:523-583 | the supervisor finishes exactly once the child has ended and the readers are joined, stdout first |
| `ProcessOutput.StreamIsWritten` | crates/libs/tascarrel-agent/src/process_runtime.rs:555-570 | the stream is what both readers read, in order |
| `ProcessOutput.ExitedIsFinal` | crates/libs/tascarrel-agent/src/process_runtime.rs:511-583 | once exited is reported nothing more is written, whatever follows |
| `ProcessOutput.ExitedWithoutMoreIsComplete` | crates/libs/tascarrel-agent/src/process_runtime.rs:444-583 | a poll with exited and no more output has reached the end for good |
| `ProcessOutput.FailedIsNotFinal` | crates/libs/tascarrel-agent/src/process_runtime.rs:511-583 | failed can be reported while the stderr reader still writes |
| `ProcessOutput.FinalIff` | crates/libs/tascarrel-agent/src/process_runtime.rs:511-583 | over every run that reports an end: nothing more is ever written if and only if the stderr reader has stopped, which it can only not have after the stdout reader failed |
| `ChatBootstrap.CollectingIff` | crates/apps/tascarrel-podctl/src/main.rs:422-563 | a projection is under way exactly after a start and in-order ranges with its stamp within its counts |
| `ChatBootstrap.ProjectsIffSnapshot` | crates/apps/tascarrel-podctl/src/main.rs:521-617 | a sequence projects to a chat if and only if it is that chat's snapshot, in any interleaving |
| `ChatBootstrap.ChatProjection.Accept` | crates/apps/tascarrel-podctl/src/main.rs:521-572 | the optional accumulator takes the step of the specification, or its error |
| `ChatBootstrap.ShowChat` | crates/apps/tascarrel-podctl/src/main.rs:521-563 | returns the chat of whichever prefix is a snapshot, and a chat only after a snapshot of it |
| `ControlConnection.Connection.SendControl` | frontend/src/api/client.ts:463-467 | sends only on an open socket |
| `ControlConnection.Connection.StartSubscription` | frontend/src/api/client.ts:393-407 | subscribes under a fresh id and grants exactly one window, or does nothing |
| `ControlConnection.Connection.StopSubscription` | frontend/src/api/client.ts:409-425 | ends it for good and frees its id; the message goes out only if asked for and possible |
| `ControlConnection.Connection.HandleEvent` | frontend/src/api/client.ts:299-306 | joins the queue of the id's owner; other connections' and retired ids' events change nothing |
| `ControlConnection.Connection.CompleteHandler` | frontend/src/api/client.ts:305-315 | one credit if the event's id is still current, the end of the subscription on failure |
| `ControlConnection.Connection.HandleCompleted` | frontend/src/api/client.ts:319-328 | the id is retired; the subscription waits for a restart or ends |
| `ControlConnection.Connection.HandleFailed` | frontend/src/api/client.ts:316-318 | the id is retired and its subscription ends for good, without a message |
| `ControlConnection.Connection.RestartFired` | frontend/src/api/client.ts:427-443 | the subscription starts under a fresh id, waits for its queue, or waits for a connection; no other changes and no retired id earns credit |
| `ControlConnection.Connection.AddSubscription` | frontend/src/api/client.ts:202-227 | a new subscription with its window and restart choice, started at once under a fresh id on an open socket and otherwise waiting |
| `ControlConnection.Connection.Connect` | frontend/src/api/client.ts:234-254 | a new connecting socket, or every registered invocation fails and a retry is pending if anything is active |
| `ControlConnection.Connection.HandleOpen` | frontend/src/api/client.ts:256-271 | every registered invocation has been sent, every active subscription runs under a fresh id of its own with a full window or waits for its queue, and nothing else goes out; another socket changes nothing |
| `ControlConnection.Connection.HandleClose` | frontend/src/api/client.ts:338-359 | no id stays current and no invocation open; only for the current socket |
| `ControlConnection.Connection.HandleError` | frontend/src/api/client.ts:331-336 | fails all invocations, for the current socket only |
| `ControlConnection.Connection.ScheduleReconnect` | frontend/src/api/client.ts:361-373 | a retry is pending exactly if it was, or if there is no socket and an active subscription |
| `ControlConnection.Connection.ExecuteInvocation` | frontend/src/api/client.ts:163-200 | a fresh invocation, registered or settled, sent at once on an open socket; one that is aborted already is never sent |
| `ControlConnection.Connection.SendInvocation` | frontend/src/api/client.ts:375-378 | sends a registered invocation at most once |
| `ControlConnection.Connection.FinishInvocation` | frontend/src/api/client.ts:380-385 | settles a registered invocation and forgets it |
| `ControlConnection.Connection.FailInvocations` | frontend/src/api/client.ts:387-391 | settles all of them |
| `ControlConnection.Connection.HandleRpc` | frontend/src/api/client.ts:283-297 | settles that invocation once, for the current socket only |
| `ControlConnection.Turn` | frontend/src/api/client.ts:154-468 | every turn of the event loop keeps the invariant; a retired id does not come back and its credit does not change |
| `ControlConnection.Continue` | frontend/src/api/client.ts:154-468 | from any state, over any number of turns in any order, ids retired at the start stay retired and earn nothing |
| `ControlConnection.Interleave` | frontend/src/api/client.ts:154-468 | after any number of turns in any order: unhandled events within the window, ids one to one, invocations sent and settled at most once |

## Left out

- Tracing, agent events for user interfaces, prompt and error wording, JSON text: the record codec is a parameter that round-trips and writes no raw newline, as section 7 of RFC 8259 and a compact serializer ensure.
- The parsing of tool arguments into paths and the rendering of file sections in summaries are parameters; file lists are sets, not ordered lists.
- Entry ids are unbounded, since a vector cannot reach 2^63 entries; token counts are 64 bits and saturate; `.sum()` over estimates is modelled as a sum that is then clamped to 64 bits.
- Temporary file names and random subscription and invocation ids are taken not to repeat, SHA-256 revisions not to collide.
- Paths are opaque names: canonicalisation, symbolic links, directories, permissions, file modes and unified diffs are not part of this model.
- Workspace.FileSystem: other processes act before every operation on files, but not while the token is polled or staged files are removed; parent directories of new files are not modelled.
- Workspace.StageAll: does not claim that staged files are removed, because cancellation inside the loop leaves them.
- Paging.TextMatchBoundaries: UTF-8 is the octet structure of section 3 of RFC 3629; overlong forms and surrogates are not excluded, so the texts considered include all those of Rust.
- Journal.AgentSessionStore.Persist: what the file holds afterwards is stated for sessions that extend the persisted one, because the code compares only lengths and one id and trusts its caller for the rest.
- Journal.AgentSessionStore.Create: a fault leaves the file behind, as the code does; failing to encode a record is not modelled.
- ControlConnection.Interleave: safety only; heartbeats, delays, state callbacks and whether a reconnect ever happens are not modelled, and user callbacks are taken not to call back into the connection.
- ProcessOutput.RunsAreFaithful: exact for bytes; the lossy decoding of a slice, waiting, signals and saturation of 64-bit cursors are not modelled.
- Agent.RunInner: a tool call ends once it is executed; timeouts and the delay before a retry are points at which cancellation is looked at.
- Harness.RunHarness: for journals that this program wrote, torn and half-created ones included; other files that happen to decode are covered only up to opening them (`InitializeSession`). A process is killed at the points where it reads, writes or persists.
- Harness.RunOperation: commands that arrive during an operation are read after it in the model; when exactly they take effect in the agent is covered by its arbitrary cancellation.
- `run_once`, provider HTTP and MCP clients, tool implementations other than file access, process control, guestd, podd, install, service, git, registries, certificates, the rest of the frontend: mostly wiring or easy members.
