/**
 * The command loop around one agent session: it rolls the session back on
 * failure and commits before it acknowledges
 * (crates/apps/tasci-exec/src/main.rs).
 */
module Harness {
  import opened Foundation
  import opened Model
  import opened Session
  import opened Compaction
  import opened Agent
  import opened Journal

  datatype Configuration = Configuration(workingDirectory: string, mcpServers: seq<string>, agent: AgentConfig)

  datatype SessionRequest = CreateSession(sessionId: string) | ResumeSession(sessionId: string)

  datatype Command =
    | StartCommand(configuration: Configuration, session: Option<SessionRequest>)
    | PromptCommand(prompt: string, change: Option<Configuration>)
    | CompactCommand
    | InterruptCommand
    | StopCommand

  datatype Input = Line(command: Command) | Malformed

  datatype HarnessEvent =
    | Started
    | TurnFinished(failed: bool, cancelled: bool)
    | Stopped
    | InitializationFailed

  datatype HarnessError = ProtocolInput | ProtocolWrite

  /** Error-free and not cancelled: the caller may rely on the turn. */
  predicate Acknowledges(event: HarnessEvent) {
    event == TurnFinished(false, false)
  }

  /** An event as it was written: what was on the medium by then, and which session it was about. */
  datatype Said = Said(event: HarnessEvent, durable: Bytes, session: Log)

  /**
   * A point where the loop accepts a new command: the session, the journal
   * file, how many events and requests came before, which line it read, and
   * the command in it.
   */
  datatype Head = Head(session: Log, journal: Bytes, at: nat, requests: nat, line: nat, command: Option<Command>)

  /** What a power loss leaves for certain. */
  ghost function Durable(store: AgentSessionStore?): Bytes
    reads store, if store == null then {} else {store.file}
  {
    if store == null || store.file.synced > |store.file.bytes| then [] else store.file.bytes[..store.file.synced]
  }

  ghost function JournalOf(store: AgentSessionStore?): Bytes
    reads store, if store == null then {} else {store.file}
  {
    if store == null then [] else store.file.bytes
  }

  /** The commands of the heads are those of the lines they read, in order, all before `position`. */
  ghost predicate ReadInOrder(inputs: seq<Input>, heads: seq<Head>, position: nat) {
    && (forall k | 0 <= k < |heads| && heads[k].command.Some? ::
          heads[k].line < position && heads[k].line < |inputs| && inputs[heads[k].line] == Line(heads[k].command.value))
    && (forall j, k | 0 <= j < k < |heads| && heads[j].command.Some? && heads[k].command.Some? ::
          heads[j].line < heads[k].line)
  }

  /** What may be said to a harness that is busy. */
  predicate Interrupts(input: Input) {
    input == Line(InterruptCommand) || input == Line(StopCommand)
  }

  predicate SaysStop(inputs: seq<Input>, from: nat, to: nat)
    requires to <= |inputs|
  {
    exists i | from <= i < to :: inputs[i] == Line(StopCommand)
  }

  /** The line protocol on standard input and output. */
  class HarnessIo {
    const inputs: seq<Input>
    const broken: nat -> bool
    const pace: nat -> nat // how many commands arrive while the n-th operation runs
    var position: nat
    var operations: nat
    var events: seq<HarnessEvent>
    ghost var said: seq<Said>
    ghost var heads: seq<Head>

    ghost predicate Valid()
      reads this
    {
      && position <= |inputs|
      && |said| == |events| && (forall i | 0 <= i < |events| :: said[i].event == events[i])
      && ReadInOrder(inputs, heads, position)
    }

    constructor (inputs: seq<Input>, broken: nat -> bool, pace: nat -> nat)
      ensures Valid() && this.inputs == inputs && this.broken == broken && this.pace == pace
      ensures events == [] && said == [] && heads == [] && position == 0 && operations == 0
    {
      this.inputs, this.broken, this.pace := inputs, broken, pace;
      position, operations, events, said, heads := 0, 0, [], [], [];
    }

    method ReadCommand() returns (r: Result<Command, HarnessError>)
      requires Valid()
      modifies this`position
      ensures Valid() && old(position) <= position
      ensures r.Ok? ==> position == old(position) + 1 && inputs[old(position)] == Line(r.value)
      ensures r.Err? ==> r.error == ProtocolInput
      ensures r.Err? <==> old(position) == |inputs| || inputs[old(position)].Malformed?
    {
      if position == |inputs| {
        return Err(ProtocolInput);
      }
      var line := inputs[position];
      position := position + 1;
      return if line.Malformed? then Err(ProtocolInput) else Ok(line.command);
    }

    /** Reads a command at an idle session, and takes down that session and the journal. */
    method AcceptCommand(ghost store: AgentSessionStore?, ghost session: Log, ghost requests: nat)
      returns (r: Result<Command, HarnessError>)
      requires Valid()
      modifies this`position, this`heads
      ensures Valid() && old(position) <= position
      ensures r.Ok? ==> old(position) < position && inputs[old(position)] == Line(r.value)
      ensures heads == old(heads)
                     + [Head(session, JournalOf(store), |said|, requests, old(position),
                            if r.Ok? then Some(r.value) else None)]
    {
      r := ReadCommand();
      heads := heads + [Head(session, JournalOf(store), |said|, requests, old(position),
                            if r.Ok? then Some(r.value) else None)];
    }

    /** Writes an event about `session` and takes down what the store has on the medium by then. */
    method Write(event: HarnessEvent, ghost store: AgentSessionStore?, ghost session: Log) returns (ok: bool)
      requires Valid()
      modifies this`events, this`said
      ensures Valid()
      ensures said == old(said) + [Said(event, Durable(store), session)]
    {
      ok := !broken(|events|);
      events := events + [event];
      said := said + [Said(event, Durable(store), session)];
    }

    /**
     * Reads what arrives during an operation. Only interrupt and stop are
     * allowed: either cancels, and a stop also ends the harness.
     */
    method Listen() returns (r: Result<(bool, bool), HarnessError>)
      requires Valid()
      modifies this`position, this`operations
      ensures Valid() && old(position) <= position && operations == old(operations) + 1
      ensures r.Ok? <==> && old(position) + pace(old(operations)) <= |inputs|
                         && forall i | old(position) <= i < old(position) + pace(old(operations)) :: Interrupts(inputs[i])
      ensures r.Ok? ==>
                && position == old(position) + pace(old(operations))
                && (r.value.0 <==> old(position) < position)
                && (r.value.1 <==> SaysStop(inputs, old(position), position))
      ensures r.Err? ==> r.error == ProtocolInput
    {
      var cancelled, stop := false, false;
      var arriving := pace(operations);
      operations := operations + 1;
      for i := 0 to arriving
        invariant Valid() && position == old(position) + i && operations == old(operations) + 1
        invariant forall k | old(position) <= k < position :: Interrupts(inputs[k])
        invariant cancelled <==> i > 0
        invariant stop <==> SaysStop(inputs, old(position), position)
      {
        var command := ReadCommand();
        if command.Err? {
          assert position == old(position) + i + 1 ==> !Interrupts(inputs[old(position) + i]);
          return Err(command.error);
        }
        assert inputs[old(position) + i] == Line(command.value);
        match command.value {
          case InterruptCommand => cancelled := true;
          case StopCommand => cancelled, stop := true, true;
          case _ =>
            assert !Interrupts(inputs[old(position) + i]);
            return Err(ProtocolInput);
        }
      }
      return Ok((cancelled, stop));
    }
  }

  // ---- What the events say about sessions -------------------------------

  predicate NoAcks(part: seq<Said>) {
    forall i | 0 <= i < |part| :: !Acknowledges(part[i].event)
  }

  /**
   * What a command makes of a session when it is acknowledged. A prompt adds
   * its own user message, after the system prompt of a new session, and ends
   * with an answer; a compaction adds one checkpoint and no message.
   */
  predicate Serves(systemPrompt: string, command: Option<Command>, before: Log, after: Log) {
    match command
    case Some(PromptCommand(prompt, _)) =>
      && Messages(before) + Opening(before, systemPrompt, prompt) <= Messages(after)
      && Concluded(Messages(after))
    case Some(CompactCommand) =>
      |after| == |before| + 1 && after[|before|].value.Compaction? && Messages(after) == Messages(before)
    case _ => false
  }

  /** Whatever is acknowledged strictly extends `before`, by what the command asks for. */
  ghost predicate Later(systemPrompt: string, command: Option<Command>, part: seq<Said>, before: Log) {
    forall i | 0 <= i < |part| && Acknowledges(part[i].event) ::
      before < part[i].session && Serves(systemPrompt, command, before, part[i].session)
  }

  /** The session moves from `before` to `after` exactly by an acknowledgement of `after`, which serves the command. */
  ghost predicate Turn(systemPrompt: string, command: Option<Command>, part: seq<Said>, before: Log, after: Log) {
    && (forall i | 0 <= i < |part| && Acknowledges(part[i].event) ::
          before < part[i].session == after && Serves(systemPrompt, command, before, after))
    && (NoAcks(part) ==> after == before)
  }

  /** From head to head the session moves by acknowledged turns only, and `session` is where that leads. */
  ghost predicate LeadsTo(systemPrompt: string, said: seq<Said>, heads: seq<Head>, session: Log)
    decreases |heads|
  {
    if heads == [] then NoAcks(said)
    else
      var last := heads[|heads| - 1];
      && last.at <= |said| && Turn(systemPrompt, last.command, said[last.at..], last.session, session)
      && LeadsTo(systemPrompt, said[..last.at], heads[..|heads| - 1], last.session)
  }

  /** The same up to the last head, after which a turn may have been cut short. */
  ghost predicate Narrated(systemPrompt: string, said: seq<Said>, heads: seq<Head>) {
    if heads == [] then NoAcks(said)
    else
      var last := heads[|heads| - 1];
      && last.at <= |said| && Later(systemPrompt, last.command, said[last.at..], last.session)
      && LeadsTo(systemPrompt, said[..last.at], heads[..|heads| - 1], last.session)
  }

  lemma NarrateTurn(systemPrompt: string, said: seq<Said>, heads: seq<Head>, head: Head, part: seq<Said>)
    requires LeadsTo(systemPrompt, said, heads, head.session) && head.at == |said|
    ensures var heads' := heads + [head];
            && (Later(systemPrompt, head.command, part, head.session) ==> Narrated(systemPrompt, said + part, heads'))
            && forall next | Turn(systemPrompt, head.command, part, head.session, next) ::
                 LeadsTo(systemPrompt, said + part, heads', next)
  {
    var heads' := heads + [head];
    assert heads'[..|heads|] == heads;
    assert (said + part)[|said|..] == part && (said + part)[..|said|] == said;
  }

  /** What an acknowledgement between two accepted commands is worth. */
  lemma {:induction false} BetweenHeads(systemPrompt: string, said: seq<Said>, heads: seq<Head>, session: Log, k: nat)
    requires LeadsTo(systemPrompt, said, heads, session) && k + 1 < |heads|
    ensures heads[k].at <= heads[k + 1].at <= |said|
    ensures Turn(systemPrompt, heads[k].command, said[heads[k].at..heads[k + 1].at], heads[k].session, heads[k + 1].session)
    decreases |heads|
  {
    var n := |heads| - 1;
    var last, init := heads[n], heads[..n];
    assert init[|init| - 1] == heads[n - 1];
    if k + 1 == n {
      assert said[..last.at][heads[k].at..] == said[heads[k].at..last.at];
    } else {
      BetweenHeads(systemPrompt, said[..last.at], init, last.session, k);
      assert said[..last.at][heads[k].at..heads[k + 1].at] == said[heads[k].at..heads[k + 1].at];
    }
  }

  /**
   * Between two commands that a process accepted, the session moves on exactly
   * by an acknowledgement of the later one, which serves the earlier command.
   */
  lemma AcknowledgedTurns(systemPrompt: string, said: seq<Said>, heads: seq<Head>, k: nat)
    requires Narrated(systemPrompt, said, heads) && k + 1 < |heads|
    ensures heads[k].at <= heads[k + 1].at <= |said|
    ensures Turn(systemPrompt, heads[k].command, said[heads[k].at..heads[k + 1].at], heads[k].session, heads[k + 1].session)
  {
    var n := |heads| - 1;
    var last, init := heads[n], heads[..n];
    if k + 1 == n {
      assert init[|init| - 1] == heads[k];
      assert said[..last.at][heads[k].at..] == said[heads[k].at..last.at];
    } else {
      BetweenHeads(systemPrompt, said[..last.at], init, last.session, k);
      assert said[..last.at][heads[k].at..heads[k + 1].at] == said[heads[k].at..heads[k + 1].at];
    }
  }

  /** The session acknowledged last, or `base`. */
  function LastAcked(said: seq<Said>, base: Log): Log {
    if said == [] then base
    else
      var last := said[|said| - 1];
      if Acknowledges(last.event) then last.session else LastAcked(said[..|said| - 1], base)
  }

  lemma {:induction false} LastAckedConcat(a: seq<Said>, b: seq<Said>, base: Log)
    ensures LastAcked(a + b, base) == LastAcked(b, LastAcked(a, base))
    decreases |b|
  {
    if b == [] {
      assert a + b == a;
    } else {
      var init := b[..|b| - 1];
      assert (a + b)[..|a + b| - 1] == a + init;
      LastAckedConcat(a, init, base);
    }
  }

  /** A turn of a single event. */
  lemma OneTurn(systemPrompt: string, command: Option<Command>, s: Said, before: Log, base: Log)
    requires Acknowledges(s.event) ==> before < s.session && Serves(systemPrompt, command, before, s.session)
    ensures Later(systemPrompt, command, [s], before)
    ensures Turn(systemPrompt, command, [s], before, if Acknowledges(s.event) then s.session else before)
    ensures LastAcked([s], base) == if Acknowledges(s.event) then s.session else base
  {
    assert [s][..0] == [] && [s][0] == s;
  }

  /** Every acknowledged session was on the medium, whole and by itself, when it was acknowledged. */
  ghost predicate AcknowledgedDurable(codec: Codec, owner: Owner, said: seq<Said>) {
    forall i | 0 <= i < |said| && Acknowledges(said[i].event) ::
      OpenBytes(codec, said[i].durable, owner) == Ok(Decoded(said[i].session, |said[i].durable|))
  }

  ghost predicate HeadsInStep(codec: Codec, owner: Owner, heads: seq<Head>) {
    forall i | 0 <= i < |heads| ::
      OpenBytes(codec, heads[i].journal, owner) == Ok(Decoded(heads[i].session, |heads[i].journal|))
  }

  // ---- The journal under the harness ------------------------------------

  /** The file, if there is one, is where the history says. */
  ghost predicate Recoverable(codec: Codec, owner: Owner, file: JournalFile, h: History)
    reads file
  {
    file.Valid() && (file.present ==> Matches(file, h) && Tracked(codec, owner, h))
  }

  /** The session last acknowledged in the file. */
  ghost function AckedIn(file: JournalFile, h: History): Log
    reads file
  {
    if file.present then Newest(h.acked) else []
  }

  /** Every session the journal may hold is settled. */
  ghost predicate SettledStages(chain: Chain, parse: PathParser) {
    forall w | Stage(w, chain) :: Orderly(Newest(w), parse)
  }

  lemma SettledStagesExtend(chain: Chain, session: Log, parse: PathParser)
    requires Orderly(session, parse)
    ensures SettledStages(chain, parse) ==> SettledStages(Then(chain, session), parse)
  {
  }

  lemma StagesStaySettled(w: Chain, chain: Chain, parse: PathParser)
    requires Stage(w, chain) && SettledStages(chain, parse)
    ensures SettledStages(w, parse)
  {
    forall v | Stage(v, w)
      ensures Orderly(Newest(v), parse)
    {
      StageTransitive(v, w, chain);
    }
  }

  /** An empty session is settled, so a new journal is. */
  lemma NewIsSettled(parse: PathParser)
    ensures Orderly([], parse) && SettledStages(Empty, parse)
  {
  }

  /** What the loop keeps between commands. */
  ghost predicate InStep(store: AgentSessionStore?, session: Log)
    reads store, if store == null then {} else {store.file}
  {
    && ValidLog(session)
    && (store != null ==> store.Valid() && Lawful(store.codec) && store.Persisted() == session)
  }

  lemma StoreIsImage(store: AgentSessionStore)
    requires store.Valid() && Lawful(store.codec)
    ensures Linked(store.history.chain) && ValidLog(store.Persisted())
    ensures OpenBytes(store.codec, store.file.bytes, store.owner)
         == Ok(Decoded(store.Persisted(), |store.file.bytes|))
  {
    LinkedIsValid(store.history.chain);
    ReadWholeImage(store.codec, store.owner, store.history.chain);
  }

  // ---- One operation ----------------------------------------------------

  /** What is left of the store after an operation that may have failed to persist. */
  ghost predicate Held(store: AgentSessionStore?, held: History)
    reads store, if store == null then {} else {store.file}
  {
    store != null ==> Matches(store.file, held) && Tracked(store.codec, store.owner, held)
  }

  /** Persists a successful operation before acknowledging it. */
  method FinishSuccessfulOperation(io: HarnessIo, store: AgentSessionStore?, session: Log, fallback: Log, stop: bool,
                                   fault: Fault)
    returns (r: Result<(Log, bool), HarnessError>, ghost held: History)
    requires io.Valid() && InStep(store, fallback) && fallback < session && ValidLog(session)
    modifies io`events, io`said
    modifies if store == null then {} else {store, store.file}
    ensures io.Valid()
    ensures var stored := store == null || fault.NoFault?;
            && io.said == old(io.said)
                        + [Said(TurnFinished(!stored, false), Durable(store), if stored then session else fallback)]
            && (r.Ok? ==> r.value == if stored then (session, stop) else (fallback, true))
            && (store != null && stored ==>
                  && store.Valid() && store.Persisted() == session && store.history == held
                  && OpenBytes(store.codec, Durable(store), store.owner) == Ok(Decoded(session, |Durable(store)|)))
    ensures Held(store, held)
    ensures store != null ==>
              && held.chain == Then(old(store.history).chain, session)
              && Newest(held.acked) == if fault.NoFault? then session else Newest(old(store.history).acked)
  {
    held := Unborn([]);
    if store != null {
      var persisted := store.Persist(session, fault);
      held := store.history;
      AppendedIsPersisted(store.codec, store.owner, old(store.history), session, fault);
      if persisted.Err? {
        var ok := io.Write(TurnFinished(true, false), store, fallback);
        if !ok { return Err(ProtocolWrite), held; }
        return Ok((fallback, true)), held;
      }
      StoreIsImage(store);
      assert store.file.bytes[..store.file.synced] == store.file.bytes;
    }
    var ok := io.Write(TurnFinished(false, false), store, session);
    if !ok { return Err(ProtocolWrite), held; }
    return Ok((session, stop)), held;
  }

  /** Decides what an operation leaves behind: its session, or the one before it. */
  method Conclude(io: HarnessIo, store: AgentSessionStore?, outcome: Result<Log, AgentError>, fallback: Log,
                  cancelled: bool, stop: bool, fault: Fault)
    returns (r: Result<(Log, bool), HarnessError>, ghost said: Said, ghost held: History)
    requires io.Valid() && InStep(store, fallback)
    requires outcome.Ok? ==> fallback < outcome.value && ValidLog(outcome.value)
    modifies io`events, io`said
    modifies if store == null then {} else {store, store.file}
    ensures io.Valid()
    ensures io.said == old(io.said) + [said]
    ensures var stored := outcome.Ok? && (store == null || fault.NoFault?);
            && said == Said(TurnFinished(!stored && (outcome.Ok? || !cancelled), outcome.Err? && cancelled),
                            Durable(store), if stored then outcome.value else fallback)
            && (r.Ok? ==> r.value == if stored then (outcome.value, stop) else (fallback, stop || outcome.Ok?))
            && (store != null && stored ==>
                  OpenBytes(store.codec, Durable(store), store.owner) == Ok(Decoded(outcome.value, |Durable(store)|)))
            && (store != null ==>
                  Newest(held.acked) == if stored then outcome.value else Newest(old(store.history).acked))
    ensures Held(store, held)
    ensures r.Ok? && !r.value.1 ==> InStep(store, r.value.0) && (store != null ==> store.history == held)
    ensures store != null ==>
              || held.chain == old(store.history).chain
              || (outcome.Ok? && held.chain == Then(old(store.history).chain, outcome.value))
  {
    held := if store == null then Unborn([]) else store.history;
    match outcome {
      case Ok(session) =>
        r, held := FinishSuccessfulOperation(io, store, session, fallback, stop, fault);
      case Err(_) =>
        var ok := io.Write(if cancelled then TurnFinished(false, true) else TurnFinished(true, false), store, fallback);
        r := if ok then Ok((fallback, stop)) else Err(ProtocolWrite);
    }
    said := io.said[|io.said| - 1];
  }

  /** The agent and everything it talks to. */
  datatype Runtime = Runtime(
    world: World,
    text: TextTools,
    tools: seq<ToolDefinition>,
    systemPrompt: Result<string, AgentError>)

  function PromptOf(runtime: Runtime): string {
    if runtime.systemPrompt.Ok? then runtime.systemPrompt.value else ""
  }

  /** What an operation makes of a session: a prompt is opened and answered, without one the session is compacted. */
  ghost predicate Performs(runtime: Runtime, config: AgentConfig, session: Log, prompt: Option<string>, after: Log) {
    match prompt
    case Some(p) =>
      && Messages(session) + Opening(session, PromptOf(runtime), p) <= Messages(after)
      && Concluded(Messages(after))
    case None => Compacted(session, after, KeepBudget(config).keepRecent, runtime.text.parse)
  }

  /** Why an operation fails. */
  ghost predicate OperationFails(runtime: Runtime, config: AgentConfig, session: Log, prompt: Option<string>,
                                 course: Course, was: Marks, now: Marks, error: AgentError)
  {
    match prompt
    case Some(_) =>
      || CannotOpen(session, runtime.systemPrompt, error)
      || RunFails(runtime.world, config, runtime.text, course.base, course.last, was, now, error)
    case None => ValidLog(session) ==> CompactionFails(runtime.world, config, runtime.text, session, was, now, error)
  }

  /** Requests were made with this configuration and these tools only, and no more than it allows. */
  ghost predicate Conducted(config: AgentConfig, tools: seq<ToolDefinition>, before: seq<ModelRequest>,
                            after: seq<ModelRequest>)
  {
    && before <= after && |after| <= |before| + Allowed(config.maxSteps + 1, config.maxModelRetries + 1)
    && forall i | |before| <= i < |after| :: after[i].tools == tools && after[i].maxOutputTokens == config.maxOutputTokens
  }

  lemma ShownIsConducted(config: AgentConfig, tools: seq<ToolDefinition>, before: seq<ModelRequest>,
                         after: seq<ModelRequest>, course: Course)
    requires MadeFrom(after, |before|, config, tools, course.logs, course.base, course.last) && before <= after
    requires |after| <= |before| + (config.maxSteps + 1) * (config.maxModelRetries + 1)
    ensures Conducted(config, tools, before, after)
  {
    AllowedIsProduct(config.maxSteps + 1, config.maxModelRetries + 1);
    forall i | |before| <= i < |after|
      ensures after[i].tools == tools && after[i].maxOutputTokens == config.maxOutputTokens
    {
      assert Shows(after[|before| + (i - |before|)], course.logs[i - |before|], config, tools);
    }
  }

  /** A prompt turn or a manual compaction. */
  method RunAgent(runtime: Runtime, config: AgentConfig, session: Log, prompt: Option<string>)
    returns (outcome: Result<Log, AgentError>, ghost course: Course)
    modifies runtime.world
    ensures outcome.Ok? ==> session < outcome.value && ValidLog(outcome.value)
    ensures outcome.Ok? ==> Performs(runtime, config, session, prompt, outcome.value)
    ensures outcome.Err? ==> OperationFails(runtime, config, session, prompt, course, old(MarksOf(runtime.world)),
                                            MarksOf(runtime.world), outcome.error)
    ensures Conducted(config, runtime.tools, old(runtime.world.primary), runtime.world.primary)
    ensures Orderly(session, runtime.text.parse) && old(AllPaired(runtime.world.primary)) ==>
              AllPaired(runtime.world.primary)
    ensures outcome.Ok? && Orderly(session, runtime.text.parse) ==> Orderly(outcome.value, runtime.text.parse)
  {
    course := Course(session, [], Silence, session);
    match prompt {
      case Some(p) =>
        outcome, course := RunInner(runtime.world, config, runtime.text, runtime.tools, runtime.systemPrompt, session, p);
        ShownIsConducted(config, runtime.tools, old(runtime.world.primary), runtime.world.primary, course);
      case None =>
        outcome := RunCompaction(runtime.world, config, runtime.text, session);
    }
  }

  /** What became of an operation, and the course it took. */
  datatype Work = Work(outcome: Result<Log, AgentError>, course: Course)

  /**
   * An operation is acknowledged exactly if it succeeded and could be stored;
   * what failed has its cause.
   */
  ghost predicate Accounted(runtime: Runtime, config: AgentConfig, session: Log, prompt: Option<string>, work: Work,
                            was: Marks, now: Marks, stored: bool, event: HarnessEvent)
  {
    (Acknowledges(event) <==> work.outcome.Ok? && stored) && Worked(runtime, config, session, prompt, work, was, now)
  }

  /** The operation did what it is for, or failed with a cause. */
  ghost predicate Worked(runtime: Runtime, config: AgentConfig, session: Log, prompt: Option<string>, work: Work,
                         was: Marks, now: Marks)
  {
    match work.outcome
    case Ok(after) => Performs(runtime, config, session, prompt, after)
    case Err(error) => OperationFails(runtime, config, session, prompt, work.course, was, now, error)
  }

  /** The command that an operation is for. */
  predicate IsFor(command: Option<Command>, prompt: Option<string>) {
    match prompt
    case Some(p) => command.Some? && command.value.PromptCommand? && command.value.prompt == p
    case None => command == Some(CompactCommand)
  }

  lemma PerformedServes(runtime: Runtime, config: AgentConfig, session: Log, prompt: Option<string>, after: Log,
                        command: Option<Command>)
    requires Performs(runtime, config, session, prompt, after) && IsFor(command, prompt)
    ensures Serves(PromptOf(runtime), command, session, after)
  {
    if prompt.None? {
      CompactedInherits(session, after, KeepBudget(config).keepRecent, runtime.text.parse);
    }
  }

  /** Runs the agent while listening for commands. */
  method Engage(io: HarnessIo, runtime: Runtime, config: AgentConfig, session: Log, prompt: Option<string>,
                ghost command: Option<Command>)
    returns (outcome: Result<Log, AgentError>, heard: Result<(bool, bool), HarnessError>, ghost work: Work)
    requires io.Valid() && IsFor(command, prompt)
    modifies io`position, io`operations, runtime.world
    ensures io.Valid() && old(io.position) <= io.position
    ensures outcome.Ok? ==> session < outcome.value && ValidLog(outcome.value)
    ensures work.outcome == outcome
    ensures Worked(runtime, config, session, prompt, work, old(MarksOf(runtime.world)), MarksOf(runtime.world))
    ensures outcome.Ok? ==> Serves(PromptOf(runtime), command, session, outcome.value)
    ensures Conducted(config, runtime.tools, old(runtime.world.primary), runtime.world.primary)
    ensures Orderly(session, runtime.text.parse) && old(AllPaired(runtime.world.primary)) ==>
              AllPaired(runtime.world.primary)
    ensures outcome.Ok? && Orderly(session, runtime.text.parse) ==> Orderly(outcome.value, runtime.text.parse)
    ensures heard.Ok? ==> heard.value == (old(io.position) < io.position, SaysStop(io.inputs, old(io.position), io.position))
  {
    ghost var course;
    outcome, course := RunAgent(runtime, config, session, prompt);
    work := Work(outcome, course);
    if outcome.Ok? {
      PerformedServes(runtime, config, session, prompt, outcome.value, command);
    }
    heard := io.Listen();
  }

  /**
   * The promises of a stretch of the protocol that starts at an idle session:
   * what it acknowledges is later and was durable, the journal is accounted
   * for, and the acknowledged session of the journal is the one announced.
   */
  ghost predicate Kept(systemPrompt: string, command: Option<Command>, store: AgentSessionStore?, part: seq<Said>,
                       before: Log, acked: Log, held: History)
    reads store, if store == null then {} else {store.file}
  {
    && Later(systemPrompt, command, part, before) && Held(store, held)
    && (store != null ==>
          && AcknowledgedDurable(store.codec, store.owner, part)
          && Newest(held.acked) == LastAcked(part, acked))
  }

  ghost function AckedBy(store: AgentSessionStore?): Log
    reads store
  {
    if store == null then [] else Newest(store.history.acked)
  }

  ghost function ChainOf(store: AgentSessionStore?): Chain
    reads store
  {
    if store == null then Empty else store.history.chain
  }

  /**
   * How an operation ends: as cancelled only if something was said meanwhile,
   * never as both failed and cancelled; and the harness stops if it was told
   * to, or else only because the operation failed to persist.
   */
  predicate Responds(event: HarnessEvent, stops: bool, interrupted: bool, told: bool) {
    && event.TurnFinished? && (event.cancelled ==> interrupted && !event.failed)
    && (told ==> stops) && (stops && !told ==> event == TurnFinished(true, false))
  }

  method RunOperation(io: HarnessIo, runtime: Runtime, config: AgentConfig, store: AgentSessionStore?, session: Log,
                      prompt: Option<string>, fault: Fault, ghost command: Option<Command>)
    returns (r: Result<(Log, bool), HarnessError>, ghost part: seq<Said>, ghost held: History, ghost work: Work)
    requires io.Valid() && InStep(store, session) && IsFor(command, prompt)
    modifies io`position, io`operations, io`events, io`said, runtime.world
    modifies if store == null then {} else {store, store.file}
    ensures io.Valid() && old(io.position) <= io.position
    ensures io.said == old(io.said) + part && Kept(PromptOf(runtime), command, store, part, session, old(AckedBy(store)), held)
    ensures r.Ok? ==> |part| == 1 && part[0].event.TurnFinished? && Turn(PromptOf(runtime), command, part, session, r.value.0)
    ensures r.Ok? ==> Accounted(runtime, config, session, prompt, work, old(MarksOf(runtime.world)), MarksOf(runtime.world),
                                store == null || fault.NoFault?, part[0].event)
    ensures r.Ok? ==> Responds(part[0].event, r.value.1, old(io.position) < io.position,
                               SaysStop(io.inputs, old(io.position), io.position))
    ensures r.Ok? && !r.value.1 ==> InStep(store, r.value.0) && (store != null ==> store.history == held)
    ensures Conducted(config, runtime.tools, old(runtime.world.primary), runtime.world.primary)
    ensures Orderly(session, runtime.text.parse) && old(AllPaired(runtime.world.primary)) ==>
              && AllPaired(runtime.world.primary)
              && (r.Ok? ==> Orderly(r.value.0, runtime.text.parse))
    ensures old(SettledStages(ChainOf(store), runtime.text.parse)) && Orderly(session, runtime.text.parse) && store != null ==>
              SettledStages(held.chain, runtime.text.parse)
  {
    var outcome, heard;
    outcome, heard, work := Engage(io, runtime, config, session, prompt, command);
    ghost var primary, now := runtime.world.primary, MarksOf(runtime.world);
    r, part, held := ConcludeTurn(io, store, outcome, session, heard, fault, runtime.text.parse, PromptOf(runtime), command);
    assert runtime.world.primary == primary && MarksOf(runtime.world) == now;
  }

  /** The last part of an operation, and what it keeps. */
  method ConcludeTurn(io: HarnessIo, store: AgentSessionStore?, outcome: Result<Log, AgentError>, session: Log,
                      heard: Result<(bool, bool), HarnessError>, fault: Fault, ghost parse: PathParser,
                      ghost systemPrompt: string, ghost command: Option<Command>)
    returns (r: Result<(Log, bool), HarnessError>, ghost part: seq<Said>, ghost held: History)
    requires io.Valid() && InStep(store, session)
    requires outcome.Ok? ==> session < outcome.value && ValidLog(outcome.value)
    requires outcome.Ok? ==> Serves(systemPrompt, command, session, outcome.value)
    modifies io`events, io`said
    modifies if store == null then {} else {store, store.file}
    ensures io.Valid()
    ensures io.said == old(io.said) + part && Kept(systemPrompt, command, store, part, session, old(AckedBy(store)), held)
    ensures heard.Err? ==> r == Err(heard.error) && part == []
    ensures r.Ok? ==> |part| == 1 && part[0].event.TurnFinished?
    ensures r.Ok? ==> Turn(systemPrompt, command, part, session, r.value.0) && (r.value.0 == session || outcome == Ok(r.value.0))
    ensures r.Ok? ==> (Acknowledges(part[0].event) <==> outcome.Ok? && (store == null || fault.NoFault?))
    ensures r.Ok? ==> Responds(part[0].event, r.value.1, heard.value.0, heard.value.1)
    ensures r.Ok? && !r.value.1 ==> InStep(store, r.value.0) && (store != null ==> store.history == held)
    ensures old(SettledStages(ChainOf(store), parse)) && (outcome.Ok? ==> Orderly(outcome.value, parse)) && store != null ==>
              SettledStages(held.chain, parse)
  {
    held, part := if store == null then Unborn([]) else store.history, [];
    if heard.Err? { return Err(heard.error), part, held; }
    var (cancelled, stop) := heard.value;
    ghost var said, before, acked := Said(Started, [], []), ChainOf(store), AckedBy(store);
    r, said, held := Conclude(io, store, outcome, session, cancelled, stop, fault);
    part := [said];
    OneTurn(systemPrompt, command, said, session, acked);
    if store != null && held.chain != before && Orderly(outcome.value, parse) {
      SettledStagesExtend(before, outcome.value, parse);
    }
  }

  // ---- The command loop -------------------------------------------------

  /** A prompt may change the model, but neither the working directory nor the MCP servers. */
  predicate Compatible(configuration: Configuration, change: Configuration) {
    change.workingDirectory == configuration.workingDirectory && change.mcpServers == configuration.mcpServers
  }

  /** The agent's configuration after a command: a prompt may bring a new one. */
  function ConfigAfter(configuration: Configuration, config: AgentConfig, command: Option<Command>): AgentConfig {
    match command
    case Some(PromptCommand(_, Some(change))) => if Compatible(configuration, change) then change.agent else config
    case _ => config
  }

  /** The configuration in force once these commands were accepted. */
  function ConfigAt(configuration: Configuration, heads: seq<Head>): AgentConfig {
    if heads == [] then configuration.agent
    else ConfigAfter(configuration, ConfigAt(configuration, heads[..|heads| - 1]), heads[|heads| - 1].command)
  }

  /** Every turn made its requests with the configuration that its command left in force. */
  ghost predicate Steered(configuration: Configuration, tools: seq<ToolDefinition>, heads: seq<Head>,
                          primary: seq<ModelRequest>)
    decreases |heads|
  {
    heads != [] ==>
      var last := heads[|heads| - 1];
      && last.requests <= |primary|
      && Conducted(ConfigAt(configuration, heads), tools, primary[..last.requests], primary)
      && Steered(configuration, tools, heads[..|heads| - 1], primary[..last.requests])
  }

  lemma SteerTurn(configuration: Configuration, tools: seq<ToolDefinition>, heads: seq<Head>, before: seq<ModelRequest>,
                  head: Head, after: seq<ModelRequest>)
    requires Steered(configuration, tools, heads, before) && head.requests == |before|
    requires Conducted(ConfigAfter(configuration, ConfigAt(configuration, heads), head.command), tools, before, after)
    ensures ConfigAt(configuration, heads + [head])
         == ConfigAfter(configuration, ConfigAt(configuration, heads), head.command)
    ensures Steered(configuration, tools, heads + [head], after)
  {
    var more := heads + [head];
    assert more[..|heads|] == heads && after[..|before|] == before;
  }

  predicate Rejected(configuration: Configuration, command: Command) {
    || command.StartCommand?
    || (command.PromptCommand? && command.change.Some? && !Compatible(configuration, command.change.value))
  }

  /** What one command must leave, whichever it is. */
  ghost predicate CommandKept(systemPrompt: string, command: Option<Command>, store: AgentSessionStore?, part: seq<Said>,
                              before: Log, acked: Log, r: Result<(Log, bool), HarnessError>, held: History)
    reads store, if store == null then {} else {store.file}
  {
    && Kept(systemPrompt, command, store, part, before, acked, held)
    && (r.Ok? ==> Turn(systemPrompt, command, part, before, r.value.0))
    && (r.Ok? && !r.value.1 ==> InStep(store, r.value.0) && (store != null ==> store.history == held))
  }

  lemma NothingSaid(systemPrompt: string, command: Option<Command>, store: AgentSessionStore?, session: Log)
    requires InStep(store, session)
    ensures Kept(systemPrompt, command, store, [], session, AckedBy(store), if store == null then Unborn([]) else store.history)
    ensures Turn(systemPrompt, command, [], session, session)
  {
  }

  /** One command, from idle session to idle session; the flag asks to stop. */
  method HandleCommand(io: HarnessIo, runtime: Runtime, configuration: Configuration, config: AgentConfig,
                       store: AgentSessionStore?, session: Log, command: Command, faults: nat -> Fault)
    returns (r: Result<(Log, bool), HarnessError>, config': AgentConfig, ghost part: seq<Said>, ghost held: History,
             ghost work: Work)
    requires io.Valid() && InStep(store, session)
    modifies io`position, io`operations, io`events, io`said, runtime.world
    modifies if store == null then {} else {store, store.file}
    ensures io.Valid() && old(io.position) <= io.position
    ensures io.said == old(io.said) + part && CommandKept(PromptOf(runtime), Some(command), store, part, session, old(AckedBy(store)), r, held)
    ensures config' == ConfigAfter(configuration, config, Some(command))
    ensures Rejected(configuration, command) ==> r == Err(ProtocolInput) && part == []
    ensures command.StopCommand? ==> r == Ok((session, true)) && part == []
    ensures command.InterruptCommand? ==>
              |part| == 1 && part[0].event == TurnFinished(true, false) && (r.Ok? ==> r.value == (session, false))
    ensures r.Ok? && (command.PromptCommand? || command.CompactCommand?) ==> |part| == 1 && part[0].event.TurnFinished?
    ensures r.Ok? && (command.PromptCommand? || command.CompactCommand?) ==>
              Accounted(runtime, config', session, if command.PromptCommand? then Some(command.prompt) else None, work,
                        old(MarksOf(runtime.world)), MarksOf(runtime.world),
                        store == null || faults(old(io.operations)).NoFault?, part[0].event)
    ensures Conducted(config', runtime.tools, old(runtime.world.primary), runtime.world.primary)
    ensures Orderly(session, runtime.text.parse) && old(AllPaired(runtime.world.primary)) ==>
              && AllPaired(runtime.world.primary)
              && (r.Ok? ==> Orderly(r.value.0, runtime.text.parse))
    ensures old(SettledStages(ChainOf(store), runtime.text.parse)) && Orderly(session, runtime.text.parse) && store != null ==>
              SettledStages(held.chain, runtime.text.parse)
  {
    work := Work(Err(Cancelled), Course(session, [], Silence, session));
    config', part, held := config, [], if store == null then Unborn([]) else store.history;
    NothingSaid(PromptOf(runtime), Some(command), store, session);
    assert io.said == io.said + [];
    match command {
      case PromptCommand(prompt, change) =>
        if change.Some? {
          if change.value.workingDirectory != configuration.workingDirectory {
            return Err(ProtocolInput), config', part, held, work;
          }
          if change.value.mcpServers != configuration.mcpServers {
            return Err(ProtocolInput), config', part, held, work;
          }
          config' := change.value.agent;
        }
        r, part, held, work := RunOperation(io, runtime, config', store, session, Some(prompt), faults(io.operations),
                                        Some(command));
      case CompactCommand =>
        r, part, held, work := RunOperation(io, runtime, config', store, session, None, faults(io.operations), Some(command));
      case InterruptCommand =>
        r, part := RefuseInterrupt(io, store, session, PromptOf(runtime), Some(command));
      case StopCommand =>
        return Ok((session, true)), config', part, held, work;
      case StartCommand(_, _) =>
        return Err(ProtocolInput), config', part, held, work;
    }
  }

  method RefuseInterrupt(io: HarnessIo, store: AgentSessionStore?, session: Log, ghost systemPrompt: string,
                         ghost command: Option<Command>)
    returns (r: Result<(Log, bool), HarnessError>, ghost part: seq<Said>)
    requires io.Valid() && InStep(store, session)
    modifies io`events, io`said
    ensures io.Valid() && io.said == old(io.said) + part
    ensures |part| == 1 && part[0].event == TurnFinished(true, false)
    ensures r.Ok? ==> r.value == (session, false)
    ensures CommandKept(systemPrompt, command, store, part, session, AckedBy(store), r, if store == null then Unborn([]) else store.history)
  {
    part := [Said(TurnFinished(true, false), Durable(store), session)];
    OneTurn(systemPrompt, command, part[0], session, AckedBy(store));
    var ok := io.Write(TurnFinished(true, false), store, session);
    return if ok then Ok((session, false)) else Err(ProtocolWrite), part;
  }

  /** Reads and handles one command; `None` once the harness has stopped. */
  method TakeCommand(io: HarnessIo, runtime: Runtime, configuration: Configuration, config: AgentConfig,
                     store: AgentSessionStore?, session: Log, faults: nat -> Fault)
    returns (r: Result<Option<Log>, HarnessError>, config': AgentConfig, ghost part: seq<Said>, ghost held: History,
             ghost head: Head)
    requires io.Valid() && InStep(store, session)
    modifies io, runtime.world
    modifies if store == null then {} else {store, store.file}
    ensures io.Valid()
    ensures io.heads == old(io.heads) + [head]
    ensures head == Head(session, old(JournalOf(store)), |old(io.said)|, |old(runtime.world.primary)|, old(io.position),
                         head.command)
    ensures config' == ConfigAfter(configuration, config, head.command)
    ensures Conducted(config', runtime.tools, old(runtime.world.primary), runtime.world.primary)
    ensures Kept(PromptOf(runtime), head.command, store, part, session, old(AckedBy(store)), held)
    ensures r.Ok? && r.value.Some? ==> Turn(PromptOf(runtime), head.command, part, session, r.value.value)
    ensures io.said == old(io.said) + part
    ensures r.Ok? && r.value.Some? ==>
              && old(io.position) < io.position
              && InStep(store, r.value.value) && (store != null ==> store.history == held)
    ensures Orderly(session, runtime.text.parse) && old(AllPaired(runtime.world.primary)) ==>
              && AllPaired(runtime.world.primary)
              && (r.Ok? && r.value.Some? ==> Orderly(r.value.value, runtime.text.parse))
    ensures old(SettledStages(ChainOf(store), runtime.text.parse)) && Orderly(session, runtime.text.parse) && store != null ==>
              SettledStages(held.chain, runtime.text.parse)
  {
    var command := io.AcceptCommand(store, session, |runtime.world.primary|);
    head := io.heads[|io.heads| - 1];
    match command {
      case Ok(given) =>
        r, config', part, held := Obey(io, runtime, configuration, config, store, session, given, faults);
      case Err(e) =>
        NothingSaid(PromptOf(runtime), None, store, session);
        r, config', part, held := Err(e), config, [], if store == null then Unborn([]) else store.history;
    }
  }

  /** Handles one command and announces the end if it was the last. */
  method Obey(io: HarnessIo, runtime: Runtime, configuration: Configuration, config: AgentConfig,
              store: AgentSessionStore?, session: Log, command: Command, faults: nat -> Fault)
    returns (r: Result<Option<Log>, HarnessError>, config': AgentConfig, ghost part: seq<Said>, ghost held: History)
    requires io.Valid() && InStep(store, session)
    modifies io`position, io`operations, io`events, io`said, runtime.world
    modifies if store == null then {} else {store, store.file}
    ensures io.Valid() && old(io.position) <= io.position
    ensures io.said == old(io.said) + part
    ensures config' == ConfigAfter(configuration, config, Some(command))
    ensures Conducted(config', runtime.tools, old(runtime.world.primary), runtime.world.primary)
    ensures Kept(PromptOf(runtime), Some(command), store, part, session, old(AckedBy(store)), held)
    ensures r.Ok? && r.value.Some? ==>
              && Turn(PromptOf(runtime), Some(command), part, session, r.value.value)
              && InStep(store, r.value.value) && (store != null ==> store.history == held)
    ensures Orderly(session, runtime.text.parse) && old(AllPaired(runtime.world.primary)) ==>
              && AllPaired(runtime.world.primary)
              && (r.Ok? && r.value.Some? ==> Orderly(r.value.value, runtime.text.parse))
    ensures old(SettledStages(ChainOf(store), runtime.text.parse)) && Orderly(session, runtime.text.parse) && store != null ==>
              SettledStages(held.chain, runtime.text.parse)
  {
    ghost var acked := AckedBy(store);
    var operation;
    ghost var work;
    operation, config', part, held, work :=
      HandleCommand(io, runtime, configuration, config, store, session, command, faults);
    if operation.Err? { return Err(operation.error), config', part, held; }
    if !operation.value.1 { return Ok(Some(operation.value.0)), config', part, held; }
    var ok;
    ok, part := Halt(io, store, operation.value.0, PromptOf(runtime), Some(command), part, session, acked, held);
    return if ok then Ok(None) else Err(ProtocolWrite), config', part, held;
  }

  /** Announces the end, which acknowledges nothing more. */
  method Halt(io: HarnessIo, ghost store: AgentSessionStore?, ghost session: Log, ghost systemPrompt: string,
              ghost command: Option<Command>, ghost part: seq<Said>, ghost before: Log, ghost acked: Log,
              ghost held: History)
    returns (ok: bool, ghost part': seq<Said>)
    requires io.Valid() && Kept(systemPrompt, command, store, part, before, acked, held)
    modifies io`events, io`said
    ensures io.Valid() && Kept(systemPrompt, command, store, part', before, acked, held)
    ensures forall said | old(io.said) == said + part :: io.said == said + part'
  {
    ghost var last := Said(Stopped, Durable(store), session);
    KeptQuietly(systemPrompt, command, store, part, before, acked, held, last);
    ok := io.Write(Stopped, store, session);
    part' := part + [last];
    assert forall said: seq<Said> :: said + part + [last] == said + part';
  }

  /** An event that acknowledges nothing keeps what was kept. */
  lemma KeptQuietly(systemPrompt: string, command: Option<Command>, store: AgentSessionStore?, part: seq<Said>,
                    before: Log, acked: Log, held: History, s: Said)
    requires Kept(systemPrompt, command, store, part, before, acked, held) && !Acknowledges(s.event)
    ensures Kept(systemPrompt, command, store, part + [s], before, acked, held)
  {
    var more := part + [s];
    assert more[..|part|] == part && more[|part|] == s;
    assert forall i | 0 <= i < |part| :: more[i] == part[i];
  }

  /** The story of a persistent session so far: in step at every head, and every acknowledgement durable and kept. */
  ghost predicate Told(codec: Codec, owner: Owner, said: seq<Said>, heads: seq<Head>, base: Log, acked: Log) {
    HeadsInStep(codec, owner, heads) && AcknowledgedDurable(codec, owner, said) && acked == LastAcked(said, base)
  }

  lemma ToldTurn(codec: Codec, owner: Owner, said: seq<Said>, heads: seq<Head>, base: Log, acked: Log, head: Head,
                 part: seq<Said>, acked': Log)
    requires Told(codec, owner, said, heads, base, acked)
    requires OpenBytes(codec, head.journal, owner) == Ok(Decoded(head.session, |head.journal|))
    requires AcknowledgedDurable(codec, owner, part) && acked' == LastAcked(part, acked)
    ensures Told(codec, owner, said + part, heads + [head], base, acked')
  {
    LastAckedConcat(said, part, base);
    var more, heads' := said + part, heads + [head];
    forall i | 0 <= i < |more| && Acknowledges(more[i].event)
      ensures OpenBytes(codec, more[i].durable, owner) == Ok(Decoded(more[i].session, |more[i].durable|))
    {
      assert more[i] == if i < |said| then said[i] else part[i - |said|];
    }
    forall i | 0 <= i < |heads'|
      ensures OpenBytes(codec, heads'[i].journal, owner) == Ok(Decoded(heads'[i].session, |heads'[i].journal|))
    {
      assert heads'[i] == if i < |heads| then heads[i] else head;
    }
  }

  /** Takes one command and goes on with the story. */
  method Advance(io: HarnessIo, runtime: Runtime, configuration: Configuration, config: AgentConfig,
                 store: AgentSessionStore?, session: Log, faults: nat -> Fault, ghost base: Log)
    returns (r: Result<Option<Log>, HarnessError>, config': AgentConfig, ghost held: History)
    requires io.Valid() && InStep(store, session) && LeadsTo(PromptOf(runtime), io.said, io.heads, session)
    requires config == ConfigAt(configuration, io.heads)
    requires Steered(configuration, runtime.tools, io.heads, runtime.world.primary)
    requires store != null ==> Told(store.codec, store.owner, io.said, io.heads, base, AckedBy(store))
    modifies io, runtime.world
    modifies if store == null then {} else {store, store.file}
    ensures io.Valid() && old(io.said) <= io.said
    ensures |io.heads| == |old(io.heads)| + 1 && old(io.heads) <= io.heads && io.heads[|old(io.heads)|].session == session
    ensures Narrated(PromptOf(runtime), io.said, io.heads) && Held(store, held)
    ensures store != null ==> Told(store.codec, store.owner, io.said, io.heads, base, Newest(held.acked))
    ensures config' == ConfigAt(configuration, io.heads)
    ensures Steered(configuration, runtime.tools, io.heads, runtime.world.primary)
    ensures r.Ok? && r.value.Some? ==>
              && old(io.position) < io.position && LeadsTo(PromptOf(runtime), io.said, io.heads, r.value.value)
              && InStep(store, r.value.value) && (store != null ==> store.history == held)
    ensures Orderly(session, runtime.text.parse) && old(AllPaired(runtime.world.primary)) ==>
              && AllPaired(runtime.world.primary)
              && (r.Ok? && r.value.Some? ==> Orderly(r.value.value, runtime.text.parse))
    ensures old(SettledStages(ChainOf(store), runtime.text.parse)) && Orderly(session, runtime.text.parse) && store != null ==>
              SettledStages(held.chain, runtime.text.parse)
  {
    ghost var said, heads, acked, primary := io.said, io.heads, AckedBy(store), runtime.world.primary;
    if store != null {
      StoreIsImage(store);
    }
    ghost var part;
    ghost var head;
    r, config', part, held, head := TakeCommand(io, runtime, configuration, config, store, session, faults);
    NarrateTurn(PromptOf(runtime), said, heads, head, part);
    SteerTurn(configuration, runtime.tools, heads, primary, head, runtime.world.primary);
    if store != null {
      ToldTurn(store.codec, store.owner, said, heads, base, acked, head, part, Newest(held.acked));
    }
  }

  /** Accepts commands until stopped, at an idle session each time. */
  method CommandLoop(io: HarnessIo, runtime: Runtime, configuration: Configuration, store: AgentSessionStore?,
                     initial: Log, faults: nat -> Fault)
    returns (r: Result<(), HarnessError>, ghost held: History)
    requires io.Valid() && InStep(store, initial) && io.heads == [] && NoAcks(io.said)
    modifies io, runtime.world
    modifies if store == null then {} else {store, store.file}
    ensures io.Valid() && old(io.said) <= io.said
    ensures io.heads != [] && io.heads[0].session == initial && Narrated(PromptOf(runtime), io.said, io.heads)
    ensures Steered(configuration, runtime.tools, io.heads, runtime.world.primary)
    ensures Held(store, held)
    ensures store != null ==>
              Told(store.codec, store.owner, io.said, io.heads, old(AckedBy(store)), Newest(held.acked))
    ensures Orderly(initial, runtime.text.parse) && old(AllPaired(runtime.world.primary)) ==>
              AllPaired(runtime.world.primary)
    ensures (&& store != null && old(SettledStages(ChainOf(store), runtime.text.parse))
             && Orderly(initial, runtime.text.parse) && old(AllPaired(runtime.world.primary))) ==>
              SettledStages(held.chain, runtime.text.parse)
  {
    var session, config := initial, configuration.agent;
    ghost var base := AckedBy(store);
    ghost var paired := Orderly(initial, runtime.text.parse) && AllPaired(runtime.world.primary);
    ghost var staged := paired && SettledStages(ChainOf(store), runtime.text.parse);
    NothingAcked(io.said, base);
    while true
      invariant io.Valid() && InStep(store, session) && old(io.said) <= io.said
      invariant LeadsTo(PromptOf(runtime), io.said, io.heads, session)
      invariant config == ConfigAt(configuration, io.heads)
      invariant Steered(configuration, runtime.tools, io.heads, runtime.world.primary)
      invariant if io.heads == [] then session == initial else io.heads[0].session == initial
      invariant store != null ==> Told(store.codec, store.owner, io.said, io.heads, base, AckedBy(store))
      invariant paired ==> AllPaired(runtime.world.primary) && Orderly(session, runtime.text.parse)
      invariant store != null && staged ==> SettledStages(ChainOf(store), runtime.text.parse)
      decreases |io.inputs| - io.position
    {
      var next;
      next, config, held := Advance(io, runtime, configuration, config, store, session, faults, base);
      if next.Err? { return Err(next.error), held; }
      if next.value.None? { return Ok(()), held; }
      session := next.value.value;
    }
  }

  lemma {:induction false} NothingAcked(said: seq<Said>, base: Log)
    requires NoAcks(said)
    ensures LastAcked(said, base) == base
    decreases |said|
  {
    if said != [] {
      NothingAcked(said[..|said| - 1], base);
    }
  }

  // ---- A whole process --------------------------------------------------

  lemma ForeignRejected(codec: Codec, owner: Owner, other: Owner, h: History)
    requires Lawful(codec) && Tracked(codec, owner, h) && other != owner
    ensures OpenBytes(codec, h.bytes, other).Err?
  {
    var header, image := HeaderLine(codec, owner), Image(codec, owner, h.chain);
    EmptyIsStage(h.chain);
    StageImage(codec, owner, Empty, h.chain);
    assert h.bytes == image[..|h.bytes|] && header == image[..|header|];
    if |h.bytes| < |header| {
      assert h.bytes == header[..|h.bytes|];
      TornHeaderRejected(codec, owner, other, h.bytes);
    } else {
      assert header == h.bytes[..|header|];
      ForeignOwnerRejected(codec, h.bytes, owner, other);
    }
  }

  /** The bytes decode to a valid session of this owner, and no fault strikes. */
  predicate CanOpen(codec: Codec, bytes: Bytes, owner: Owner, fault: OpenFault) {
    var found := OpenBytes(codec, bytes, owner);
    !fault.ReadFault? && found.Ok? && !Strikes(fault, found.value.completeBytes != |bytes|)
  }

  /** Opens an existing journal; one that belongs to somebody else, or was never created in full, is refused. */
  method Resume(codec: Codec, mine: Owner, file: JournalFile, fault: OpenFault, ghost owner: Owner, ghost h: History)
    returns (r: Result<(AgentSessionStore, Log), StoreError>, ghost h': History)
    requires Lawful(codec) && file.Valid()
    modifies file
    ensures file.Valid() && file.present == old(file.present)
    ensures r.Ok? <==> ValidSessionId(mine.sessionId) && old(file.present) && CanOpen(codec, old(file.bytes), mine, fault)
    ensures r.Ok? ==> r.value.1 == OpenBytes(codec, old(file.bytes), mine).value.entries
    ensures r.Ok? ==> fresh(r.value.0) && r.value.0.file == file && r.value.0.codec == codec && r.value.0.owner == mine
    ensures OpenBytes(codec, file.bytes, mine) == OpenBytes(codec, old(file.bytes), mine)
    ensures r.Err? && !fault.CutSyncFault? ==> unchanged(file)
    ensures old(Recoverable(codec, owner, file, h)) && r.Err? ==> h'.acked == h.acked && h'.chain == h.chain
    ensures old(Recoverable(codec, owner, file, h)) ==> Recoverable(codec, owner, file, h')
    ensures old(Recoverable(codec, owner, file, h)) && r.Ok? ==>
              && mine == owner && InStep(r.value.0, r.value.1) && h' == r.value.0.history
              && Newest(h'.acked) == Newest(h.acked) <= r.value.1 && Stage(h'.chain, h.chain)
  {
    h' := h;
    ghost var known := Recoverable(codec, owner, file, h);
    if known && file.present && mine != owner {
      ForeignRejected(codec, owner, mine, h);
    }
    ghost var next;
    r, next := AgentSessionStore.Open(codec, mine, file, fault, h);
    if known && mine == owner && file.present {
      h' := next;
      if r.Ok? {
        ReopenedIsLive(codec, owner, h);
        AcknowledgedStays(codec, owner, h, Reopen);
      }
    }
  }

  /** Opens the ephemeral, new or restored session requested at startup. */
  method InitializeSession(codec: Codec, file: JournalFile, workingDirectory: string, request: Option<SessionRequest>,
                           openFault: OpenFault, fault: Fault, ghost owner: Owner, ghost h: History)
    returns (r: Result<(AgentSessionStore?, Log), StoreError>, ghost owner': Owner, ghost h': History)
    requires Lawful(codec) && file.Valid()
    modifies file
    ensures file.Valid()
    ensures r.Ok? ==> (r.value.0 == null <==> request.None?)
    ensures r.Ok? && r.value.0 != null ==> fresh(r.value.0) && r.value.0.file == file && r.value.0.codec == codec
    ensures request.None? ==> r == Ok((null, [])) && unchanged(file)
    ensures request.Some? && request.value.CreateSession? ==>
              && (r.Ok? <==> ValidSessionId(request.value.sessionId) && !old(file.present) && fault.NoFault?)
              && (r.Ok? ==> r.value.1 == [])
    ensures request.Some? && request.value.ResumeSession? ==>
              var mine := Owner(request.value.sessionId, workingDirectory);
              && (r.Ok? <==> && ValidSessionId(mine.sessionId) && old(file.present)
                             && CanOpen(codec, old(file.bytes), mine, openFault))
              && (r.Ok? ==> r.value.1 == OpenBytes(codec, old(file.bytes), mine).value.entries)
              && OpenBytes(codec, file.bytes, mine) == OpenBytes(codec, old(file.bytes), mine)
              && (r.Err? && !openFault.CutSyncFault? ==> unchanged(file))
    ensures old(Recoverable(codec, owner, file, h)) ==>
              && Recoverable(codec, owner', file, h') && AckedIn(file, h') == old(AckedIn(file, h))
              && (file.present ==> Stage(h'.chain, if old(file.present) then h.chain else Empty))
    ensures old(Recoverable(codec, owner, file, h)) && r.Ok? ==>
              && InStep(r.value.0, r.value.1)
              && (r.value.0 != null ==>
                    && owner' == r.value.0.owner && h' == r.value.0.history && file.present
                    && old(AckedIn(file, h)) <= r.value.1)
  {
    owner', h' := owner, h;
    match request {
      case None => return Ok((null, [])), owner', h';
      case Some(CreateSession(id)) =>
        var mine := Owner(id, workingDirectory);
        var created := AgentSessionStore.Create(codec, mine, file, fault);
        if created.Err? {
          if !old(file.present) && file.present {
            owner', h' := mine, Unborn(file.bytes);
          }
          return Err(created.error), owner', h';
        }
        owner', h' := mine, created.value.history;
        return Ok((created.value, [])), owner', h';
      case Some(ResumeSession(id)) =>
        var resumed;
        resumed, h' := Resume(codec, Owner(id, workingDirectory), file, openFault, owner, h);
        if resumed.Err? { return Err(resumed.error), owner', h'; }
        return Ok((resumed.value.0, resumed.value.1)), owner', h';
    }
  }

  lemma OpenedIsSettled(store: AgentSessionStore?, session: Log, chain: Chain, parse: PathParser)
    requires InStep(store, session) && (store == null ==> session == [])
    requires store != null ==> Stage(store.history.chain, chain)
    requires SettledStages(chain, parse)
    ensures Orderly(session, parse) && (store != null ==> SettledStages(store.history.chain, parse))
  {
    NewIsSettled(parse);
    if store != null {
      StagesStaySettled(store.history.chain, chain, parse);
      assert Stage(store.history.chain, store.history.chain);
    }
  }

  /** Announces the session, then accepts commands. */
  method Serve(io: HarnessIo, runtime: Runtime, configuration: Configuration, store: AgentSessionStore?, session: Log,
               faults: nat -> Fault)
    returns (r: Result<(), HarnessError>, ghost held: History)
    requires io.Valid() && io.said == [] && io.heads == [] && InStep(store, session)
    modifies io, runtime.world
    modifies if store == null then {} else {store, store.file}
    ensures io.Valid() && Narrated(PromptOf(runtime), io.said, io.heads) && Held(store, held)
    ensures io.said != [] && io.said[0].event == Started && io.said[0].session == session
    ensures Steered(configuration, runtime.tools, io.heads, runtime.world.primary)
    ensures io.heads != [] ==> io.heads[0].session == session
    ensures store != null ==>
              Told(store.codec, store.owner, io.said, io.heads, old(AckedBy(store)), Newest(held.acked))
    ensures Orderly(session, runtime.text.parse) && old(AllPaired(runtime.world.primary)) ==>
              AllPaired(runtime.world.primary)
    ensures (&& store != null && old(SettledStages(ChainOf(store), runtime.text.parse))
             && Orderly(session, runtime.text.parse) && old(AllPaired(runtime.world.primary))) ==>
              SettledStages(held.chain, runtime.text.parse)
  {
    held := if store == null then Unborn([]) else store.history;
    ghost var first := Said(Started, Durable(store), session);
    var ok := io.Write(Started, store, session);
    assert io.said == [first];
    if ok {
      r, held := CommandLoop(io, runtime, configuration, store, session, faults);
    } else {
      r := Err(ProtocolWrite);
      JustStarted(PromptOf(runtime), store, first);
    }
  }

  lemma JustStarted(systemPrompt: string, store: AgentSessionStore?, first: Said)
    requires first.event == Started
    ensures Narrated(systemPrompt, [first], [])
    ensures store != null ==> Told(store.codec, store.owner, [first], [], AckedBy(store), AckedBy(store))
  {
    if store != null {
      NothingAcked([first], AckedBy(store));
    }
  }

  /**
   * A whole harness process. Whenever it accepts a command its session is what
   * the journal decodes to; what it acknowledges moves the session on and is
   * durable by then; a session it restores extends whatever was acknowledged
   * in that journal before; and it leaves a journal of which all that holds again.
   */
  method RunHarness(io: HarnessIo, runtime: Runtime, codec: Codec, file: JournalFile, openFault: OpenFault,
                    faults: nat -> Fault, ghost owner: Owner, ghost h: History)
    returns (r: Result<(), HarnessError>, ghost stored: bool, ghost owner': Owner, ghost h': History)
    requires io.Valid() && io.said == [] && io.heads == [] && Lawful(codec) && Recoverable(codec, owner, file, h)
    modifies io, runtime.world, file
    ensures io.Valid() && Narrated(PromptOf(runtime), io.said, io.heads)
    ensures Recoverable(codec, owner', file, h')
    ensures io.heads != [] ==>
              && io.said != [] && io.said[0].event == Started && io.heads[0].session == io.said[0].session
    ensures stored ==>
              && io.said != [] && io.said[0].event == Started && old(AckedIn(file, h)) <= io.said[0].session
              && Told(codec, owner', io.said, io.heads, old(AckedIn(file, h)), AckedIn(file, h'))
    ensures !stored ==> AckedIn(file, h') == old(AckedIn(file, h))
    ensures io.said != [] && io.said[0].event == Started ==>
              && old(io.position) < |io.inputs| && io.inputs[old(io.position)].Line?
              && io.inputs[old(io.position)].command.StartCommand?
              && (stored <==> io.inputs[old(io.position)].command.session.Some?)
    ensures io.heads != [] ==>
              Steered(io.inputs[old(io.position)].command.configuration, runtime.tools, io.heads, runtime.world.primary)
    ensures old(Quiet(file, h, runtime)) ==> Quiet(file, h', runtime)
  {
    stored, owner', h' := false, owner, h;
    var start := io.ReadCommand();
    if start.Err? { return Err(start.error), stored, owner', h'; }
    if !start.value.StartCommand? { return Err(ProtocolInput), stored, owner', h'; }
    var configuration := start.value.configuration;
    r, stored, owner', h' :=
      Begin(io, runtime, codec, file, configuration, start.value.session, openFault, faults, owner, h);
  }

  /** Every request so far is paired, and every session the journal may hold is settled. */
  ghost predicate Quiet(file: JournalFile, h: History, runtime: Runtime)
    reads file, runtime.world
  {
    AllPaired(runtime.world.primary) && (file.present ==> SettledStages(h.chain, runtime.text.parse))
  }

  /** Opens the session and serves it, or reports that it cannot be opened. */
  method Begin(io: HarnessIo, runtime: Runtime, codec: Codec, file: JournalFile, configuration: Configuration,
               request: Option<SessionRequest>, openFault: OpenFault, faults: nat -> Fault, ghost owner: Owner,
               ghost h: History)
    returns (r: Result<(), HarnessError>, ghost stored: bool, ghost owner': Owner, ghost h': History)
    requires io.Valid() && io.said == [] && io.heads == [] && Lawful(codec) && Recoverable(codec, owner, file, h)
    modifies io, runtime.world, file
    ensures io.Valid() && Narrated(PromptOf(runtime), io.said, io.heads)
    ensures Steered(configuration, runtime.tools, io.heads, runtime.world.primary)
    ensures Recoverable(codec, owner', file, h')
    ensures io.heads != [] ==>
              && io.said != [] && io.said[0].event == Started && io.heads[0].session == io.said[0].session
    ensures stored ==>
              && io.said != [] && io.said[0].event == Started && old(AckedIn(file, h)) <= io.said[0].session
              && Told(codec, owner', io.said, io.heads, old(AckedIn(file, h)), AckedIn(file, h'))
    ensures !stored ==> AckedIn(file, h') == old(AckedIn(file, h))
    ensures io.said != [] && io.said[0].event == Started ==> (stored <==> request.Some?)
    ensures old(Quiet(file, h, runtime)) ==> Quiet(file, h', runtime)
  {
    ghost var base, chain, quiet := AckedIn(file, h), if file.present then h.chain else Empty, Quiet(file, h, runtime);
    var opened';
    opened', owner', h' :=
      InitializeSession(codec, file, configuration.workingDirectory, request, openFault, faults(0), owner, h);
    stored := false;
    if opened'.Err? {
      if quiet { StillQuiet(file, h', runtime, chain); }
      var ok := io.Write(InitializationFailed, null, []);
      return if ok then Ok(()) else Err(ProtocolWrite), stored, owner', h';
    }
    var (store, session) := opened'.value;
    if quiet {
      StillQuiet(file, h', runtime, chain);
      OpenedIsSettled(store, session, chain, runtime.text.parse);
    }
    ghost var held;
    r, held := Serve(io, runtime, configuration, store, session, (n: nat) => faults(n + 1));
    if store != null {
      stored, h' := true, held;
    }
  }

  lemma StillQuiet(file: JournalFile, h: History, runtime: Runtime, chain: Chain)
    requires AllPaired(runtime.world.primary) && (file.present ==> Stage(h.chain, chain))
    requires chain == Empty || SettledStages(chain, runtime.text.parse)
    ensures Quiet(file, h, runtime) && SettledStages(chain, runtime.text.parse)
  {
    NewIsSettled(runtime.text.parse);
    if file.present {
      StagesStaySettled(h.chain, chain, runtime.text.parse);
    }
  }

  // ---- Any number of processes and power losses -------------------------

  /** One process: what it is sent, how its surroundings behave, and what a power loss after it leaves of the file. */
  datatype Plan = Plan(
    inputs: seq<Input>,
    broken: nat -> bool,
    pace: nat -> nat,
    openFault: OpenFault,
    faults: nat -> Fault,
    kept: Option<nat>)

  /** What a process said, and whether its session was that of the journal. */
  datatype Life = Life(said: seq<Said>, stored: bool)

  /** The session that was acknowledged last, by whichever process. */
  function Promised(lives: seq<Life>): Log {
    if lives == [] then []
    else
      var earlier, last := Promised(lives[..|lives| - 1]), lives[|lives| - 1];
      if last.stored then LastAcked(last.said, earlier) else earlier
  }

  /** Every process with the journal started from a session that extends all that was acknowledged before it. */
  ghost predicate KeepsPromises(lives: seq<Life>) {
    forall k | 0 <= k < |lives| && lives[k].stored ::
      && lives[k].said != [] && lives[k].said[0].event == Started
      && Promised(lives[..k]) <= lives[k].said[0].session
  }

  lemma PromisesKept(lives: seq<Life>, life: Life)
    requires KeepsPromises(lives)
    requires life.stored ==> life.said != [] && life.said[0].event == Started && Promised(lives) <= life.said[0].session
    ensures KeepsPromises(lives + [life])
    ensures Promised(lives + [life]) == if life.stored then LastAcked(life.said, Promised(lives)) else Promised(lives)
  {
    var more := lives + [life];
    assert more[..|lives|] == lives;
    forall k | 0 <= k < |more| && more[k].stored
      ensures more[k].said != [] && more[k].said[0].event == Started && Promised(more[..k]) <= more[k].said[0].session
    {
      assert k < |lives| ==> more[..k] == lives[..k] && more[k] == lives[k];
    }
  }

  /** What a power loss leaves is still accounted for. */
  method PowerFails(codec: Codec, file: JournalFile, runtime: Runtime, kept: Option<nat>, ghost owner: Owner,
                    ghost h: History)
    returns (ghost h': History)
    requires Lawful(codec) && Recoverable(codec, owner, file, h)
    modifies file
    ensures Recoverable(codec, owner, file, h') && AckedIn(file, h') == old(AckedIn(file, h))
    ensures old(Quiet(file, h, runtime)) ==> Quiet(file, h', runtime)
  {
    h' := h;
    if file.present && kept.Some? && file.synced <= kept.value <= |file.bytes| {
      StepKeepsTracked(codec, owner, h, PowerLoss(kept.value));
      h' := Apply(codec, owner, h, PowerLoss(kept.value)).history;
      Truncate(file, kept.value);
    }
  }

  /** One process, and the power loss after it. */
  method Live(codec: Codec, file: JournalFile, runtime: Runtime, plan: Plan, ghost owner: Owner, ghost h: History)
    returns (ghost life: Life, ghost owner': Owner, ghost h': History)
    requires Lawful(codec) && Recoverable(codec, owner, file, h)
    modifies file, runtime.world
    ensures Recoverable(codec, owner', file, h')
    ensures life.stored ==>
              life.said != [] && life.said[0].event == Started && old(AckedIn(file, h)) <= life.said[0].session
    ensures AckedIn(file, h') == if life.stored then LastAcked(life.said, old(AckedIn(file, h))) else old(AckedIn(file, h))
    ensures old(Quiet(file, h, runtime)) ==> Quiet(file, h', runtime)
  {
    var io := new HarnessIo(plan.inputs, plan.broken, plan.pace);
    var r;
    ghost var stored;
    r, stored, owner', h' := RunHarness(io, runtime, codec, file, plan.openFault, plan.faults, owner, h);
    life := Life(io.said, stored);
    h' := PowerFails(codec, file, runtime, plan.kept, owner', h');
  }

  /**
   * The life of a journal through any number of processes and power losses,
   * from before it exists: no acknowledged session is ever lost. Every process
   * that restores it goes on from at least what was acknowledged before, and
   * so would one that came next; and every request of all of them is paired.
   */
  method Lifetime(codec: Codec, file: JournalFile, runtime: Runtime, plans: seq<Plan>)
    returns (ghost lives: seq<Life>, ghost owner: Owner, ghost h: History)
    requires Lawful(codec) && file.Valid() && !file.present && AllPaired(runtime.world.primary)
    modifies file, runtime.world
    ensures |lives| == |plans| && KeepsPromises(lives)
    ensures Promised(lives) != [] ==>
              && file.present && OpenBytes(codec, file.bytes, owner).Ok?
              && Promised(lives) <= OpenBytes(codec, file.bytes, owner).value.entries
    ensures AllPaired(runtime.world.primary)
  {
    lives, owner, h := [], Owner("", ""), Unborn([]);
    for n := 0 to |plans|
      invariant |lives| == n && KeepsPromises(lives)
      invariant Recoverable(codec, owner, file, h) && AckedIn(file, h) == Promised(lives)
      invariant Quiet(file, h, runtime)
    {
      ghost var life;
      life, owner, h := Live(codec, file, runtime, plans[n], owner, h);
      PromisesKept(lives, life);
      lives := lives + [life];
    }
    if Promised(lives) != [] {
      PromiseOpens(codec, owner, h);
    }
  }

  lemma PromiseOpens(codec: Codec, owner: Owner, h: History)
    requires Lawful(codec) && Tracked(codec, owner, h) && Newest(h.acked) != []
    ensures OpenBytes(codec, h.bytes, owner).Ok? && Newest(h.acked) <= OpenBytes(codec, h.bytes, owner).value.entries
  {
    OpenRecovers(codec, owner, h);
    StageImage(codec, owner, h.acked, Whole(codec, owner, h.chain, |h.bytes|));
  }
}
