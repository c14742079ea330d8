/**
 * Bounded retention of process output, polled by cursor
 * (crates/libs/tascarrel-agent/src/process_runtime.rs).
 *
 * Output is exact here at the level of bytes; the lossy decoding of each slice
 * into text is not modelled.
 */
module ProcessOutput {
  import opened Foundation

  datatype ProcessStatus = Running | Exited(exitCode: Option<int>) | Failed

  datatype ProcessObservation = ProcessObservation(
    status: ProcessStatus,
    output: Bytes,
    nextCursor: nat,
    outputTruncated: bool,
    hasMoreOutput: bool)

  /** First position of the stream that is still retained: only the last `limit` bytes are. */
  function RetainedFrom(stream: Bytes, limit: nat): (start: nat)
    ensures start <= |stream| && |stream| - start <= limit && (start > 0 ==> |stream| - start == limit)
  {
    if |stream| <= limit then 0 else |stream| - limit
  }

  /** What a poll at `cursor` says about a stream of which the last `limit` bytes are retained. */
  ghost predicate Observes(stream: Bytes, limit: nat, cursor: nat, window: nat, o: ProcessObservation) {
    var start := RetainedFrom(stream, limit);
    var from := Max(cursor, start);
    && (o.outputTruncated <==> cursor < start)
    && (from <= |stream| ==>
          && o.nextCursor == Min(from + window, |stream|)
          && o.output == stream[from..o.nextCursor]
          && (o.hasMoreOutput <==> o.nextCursor < |stream|))
    && (from > |stream| ==> o.output == [] && o.nextCursor == from && !o.hasMoreOutput)
  }

  lemma SliceOfTail(stream: Bytes, start: nat, from: nat, length: nat)
    requires start + from + length <= |stream|
    ensures stream[start..][from..from + length] == stream[start + from..start + from + length]
  {
  }

  class ProcessShared {
    const retainedOutputBytes: nat
    var status: ProcessStatus
    var startCursor: nat
    var bytes: Bytes
    ghost var stream: Bytes // everything the process ever wrote

    ghost predicate Valid()
      reads this
    {
      startCursor == RetainedFrom(stream, retainedOutputBytes) && bytes == stream[startCursor..]
    }

    constructor (retainedOutputBytes: nat)
      ensures Valid() && stream == [] && status == Running && this.retainedOutputBytes == retainedOutputBytes
    {
      this.retainedOutputBytes := retainedOutputBytes;
      status, startCursor, bytes, stream := Running, 0, [], [];
    }

    /** Extends the buffer and drops bytes from its front, one at a time, until it fits. */
    method Append(data: Bytes)
      requires Valid()
      modifies this`bytes, this`startCursor, this`stream
      ensures Valid() && stream == old(stream) + data
    {
      stream := stream + data;
      bytes := bytes + data;
      assert bytes == stream[startCursor..];
      while |bytes| > retainedOutputBytes
        invariant stream == old(stream) + data
        invariant startCursor <= |stream| && bytes == stream[startCursor..]
        invariant startCursor == 0 || |bytes| >= retainedOutputBytes
        decreases |bytes|
      {
        bytes := bytes[1..];
        startCursor := startCursor + 1;
      }
    }

    method Finish(final: ProcessStatus)
      requires Valid()
      modifies this`status
      ensures Valid() && status == final
    {
      status := final;
    }

    method Observe(cursor: nat, window: nat) returns (o: ProcessObservation)
      requires Valid()
      ensures Observes(stream, retainedOutputBytes, cursor, window, o) && o.status == status
    {
      var effective := Max(cursor, startCursor);
      var relative := Min(effective - startCursor, |bytes|);
      var available := |bytes| - relative;
      var returned := Min(available, window);
      var output := bytes[relative..relative + returned];
      if effective <= |stream| {
        SliceOfTail(stream, startCursor, relative, returned);
      } else {
        assert returned == 0 && output == [];
      }
      o := ProcessObservation(status, output, effective + returned, cursor < startCursor, returned < available);
    }
  }

  // ---- Whole runs: readers, supervisor and a polling client -------------

  datatype Reader = Reading | AtEnd | Broken

  datatype Source = Stdout | Stderr

  /** One stretch of what the client knows: bytes it was given, or bytes it was told it missed. */
  datatype Piece = Output(bytes: Bytes) | Gap(length: nat)

  datatype Run = Run(
    stream: Bytes,
    status: ProcessStatus,
    stdout: Reader,
    stderr: Reader,
    waited: Option<bool>,   // how waiting for the child ended
    cursor: nat,
    pieces: seq<Piece>)

  const STARTED := Run([], Running, Reading, Reading, None, 0, [])

  datatype Action =
    | Wrote(source: Source, data: Bytes)
    | ReaderEnded(source: Source, ok: bool)
    | ChildEnded(ok: bool)
    | SupervisorFinished(exitCode: Option<int>)
    | Poll(window: nat)

  function ReaderOf(r: Run, source: Source): Reader {
    if source.Stdout? then r.stdout else r.stderr
  }

  /** The supervisor joins stdout, then stderr, and gives up at the first reader that broke. */
  predicate Joined(r: Run) {
    r.stdout.Broken? || (r.stdout.AtEnd? && !r.stderr.Reading?)
  }

  function FinalStatus(r: Run, exitCode: Option<int>): ProcessStatus {
    if r.waited == Some(true) && r.stdout.AtEnd? && r.stderr.AtEnd? then Exited(exitCode) else Failed
  }

  /** The client's record grows by what a poll at its cursor returns. */
  function Polled(r: Run, limit: nat, window: nat): Run {
    var from := Max(r.cursor, RetainedFrom(r.stream, limit));
    var next := Min(from + window, Max(from, |r.stream|));
    var missed := if from > r.cursor then [Gap(from - r.cursor)] else [];
    r.(cursor := next,
       pieces := r.pieces + missed + [Output(if from <= |r.stream| then r.stream[from..next] else [])])
  }

  function Apply(r: Run, limit: nat, a: Action): Option<Run> {
    match a
    case Wrote(source, data) =>
      if ReaderOf(r, source).Reading? then Some(r.(stream := r.stream + data)) else None
    case ReaderEnded(source, ok) =>
      if !ReaderOf(r, source).Reading? then None
      else
        var ended := if ok then AtEnd else Broken;
        Some(if source.Stdout? then r.(stdout := ended) else r.(stderr := ended))
    case ChildEnded(ok) =>
      if r.waited.None? then Some(r.(waited := Some(ok))) else None
    case SupervisorFinished(exitCode) =>
      if r.status.Running? && r.waited.Some? && Joined(r) then Some(r.(status := FinalStatus(r, exitCode))) else None
    case Poll(window) => Some(Polled(r, limit, window))
  }

  function Execute(r: Run, limit: nat, actions: seq<Action>): Option<Run> {
    if actions == [] then Some(r)
    else
      match Execute(r, limit, actions[..|actions| - 1])
      case None => None
      case Some(r') => Apply(r', limit, actions[|actions| - 1])
  }

  /** The pieces, laid end to end, are the stream up to `end`, except where they say that bytes are missing. */
  predicate Traces(pieces: seq<Piece>, stream: Bytes, end: nat)
    decreases |pieces|
  {
    if pieces == [] then end == 0
    else
      match pieces[|pieces| - 1]
      case Output(bytes) =>
        && |bytes| <= end <= |stream| && bytes == stream[end - |bytes|..end]
        && Traces(pieces[..|pieces| - 1], stream, end - |bytes|)
      case Gap(n) => 0 < n <= end && Traces(pieces[..|pieces| - 1], stream, end - n)
  }

  ghost predicate Faithful(r: Run) {
    && r.cursor <= |r.stream|
    && Traces(r.pieces, r.stream, r.cursor)
    && (r.status.Exited? ==> r.stdout.AtEnd? && r.stderr.AtEnd?)
  }

  lemma {:induction false} TracesGrow(pieces: seq<Piece>, stream: Bytes, more: Bytes, end: nat)
    requires Traces(pieces, stream, end)
    ensures Traces(pieces, stream + more, end)
    decreases |pieces|
  {
    if pieces != [] {
      var init := pieces[..|pieces| - 1];
      match pieces[|pieces| - 1] {
        case Output(bytes) =>
          TracesGrow(init, stream, more, end - |bytes|);
          assert (stream + more)[end - |bytes|..end] == stream[end - |bytes|..end];
        case Gap(n) =>
          TracesGrow(init, stream, more, end - n);
      }
    }
  }

  lemma TracesGap(pieces: seq<Piece>, stream: Bytes, end: nat, n: nat)
    requires Traces(pieces, stream, end) && n > 0
    ensures Traces(pieces + [Gap(n)], stream, end + n)
  {
    assert (pieces + [Gap(n)])[..|pieces|] == pieces;
  }

  lemma TracesOutput(pieces: seq<Piece>, stream: Bytes, end: nat, next: nat)
    requires Traces(pieces, stream, end) && end <= next <= |stream|
    ensures Traces(pieces + [Output(stream[end..next])], stream, next)
  {
    assert (pieces + [Output(stream[end..next])])[..|pieces|] == pieces;
  }

  lemma PollStaysFaithful(r: Run, limit: nat, window: nat)
    requires Faithful(r)
    ensures Faithful(Polled(r, limit, window))
  {
    var from := Max(r.cursor, RetainedFrom(r.stream, limit));
    var next := Min(from + window, |r.stream|);
    var known := if from > r.cursor then r.pieces + [Gap(from - r.cursor)] else r.pieces;
    assert Traces(known, r.stream, from) by {
      if from > r.cursor {
        TracesGap(r.pieces, r.stream, r.cursor, from - r.cursor);
      }
    }
    TracesOutput(known, r.stream, from, next);
    assert next == Min(from + window, Max(from, |r.stream|));
    assert Polled(r, limit, window) == r.(cursor := next, pieces := known + [Output(r.stream[from..next])]) by {
      assert r.pieces + [] == r.pieces;
    }
  }

  /** Over every interleaving, the client's record is the stream with gaps exactly where it was told of them. */
  lemma {:induction false} RunsAreFaithful(limit: nat, actions: seq<Action>)
    ensures Execute(STARTED, limit, actions).Some? ==> Faithful(Execute(STARTED, limit, actions).value)
  {
    if actions != [] && Execute(STARTED, limit, actions).Some? {
      var init, last := actions[..|actions| - 1], actions[|actions| - 1];
      RunsAreFaithful(limit, init);
      StepStaysFaithful(Execute(STARTED, limit, init).value, limit, last);
    }
  }

  lemma StepStaysFaithful(r: Run, limit: nat, a: Action)
    requires Faithful(r) && Apply(r, limit, a).Some?
    ensures Faithful(Apply(r, limit, a).value)
  {
    match a {
      case Wrote(_, data) => TracesGrow(r.pieces, r.stream, data, r.cursor);
      case Poll(window) => PollStaysFaithful(r, limit, window);
      case _ =>
    }
  }

  /** What `Observe` returns at the client's cursor is what the client's record grows by. */
  lemma PollIsObserve(r: Run, limit: nat, window: nat, o: ProcessObservation)
    requires Faithful(r) && Observes(r.stream, limit, r.cursor, window, o)
    ensures var after := Polled(r, limit, window);
            && after.cursor == o.nextCursor
            && after.pieces == r.pieces
                             + (if o.outputTruncated then [Gap(RetainedFrom(r.stream, limit) - r.cursor)] else [])
                             + [Output(o.output)]
  {
  }

  /** Once the process is reported as exited, nothing more is ever written. */
  lemma {:induction false} ExitedIsFinal(r: Run, limit: nat, actions: seq<Action>)
    requires Faithful(r) && r.status.Exited?
    ensures Execute(r, limit, actions).Some? ==>
              var after := Execute(r, limit, actions).value;
              after.stream == r.stream && after.status == r.status && after.stdout.AtEnd? && after.stderr.AtEnd?
  {
    if actions != [] && Execute(r, limit, actions).Some? {
      ExitedIsFinal(r, limit, actions[..|actions| - 1]);
    }
  }

  /** A poll that reports an exit and no more output has reached the end of the stream for good. */
  lemma ExitedWithoutMoreIsComplete(limit: nat, before: seq<Action>, window: nat, after: seq<Action>,
                                    o: ProcessObservation)
    requires Execute(STARTED, limit, before).Some?
    requires var r := Execute(STARTED, limit, before).value;
             Observes(r.stream, limit, r.cursor, window, o) && o.status == r.status
    requires o.status.Exited? && !o.hasMoreOutput
    ensures var r := Execute(STARTED, limit, before).value;
            && o.nextCursor == |r.stream|
            && (Execute(r, limit, after).Some? ==> |Execute(r, limit, after).value.stream| == o.nextCursor)
  {
    RunsAreFaithful(limit, before);
    ExitedIsFinal(Execute(STARTED, limit, before).value, limit, after);
  }

  lemma ExecuteSnoc(r: Run, limit: nat, actions: seq<Action>, a: Action)
    requires Execute(r, limit, actions).Some?
    ensures Execute(r, limit, actions + [a]) == Apply(Execute(r, limit, actions).value, limit, a)
  {
    assert (actions + [a])[..|actions|] == actions;
  }

  /**
   * `Failed` promises no such thing: the supervisor reports it as soon as the
   * stdout reader breaks, and the stderr reader may go on.
   */
  lemma FailedIsNotFinal(limit: nat, data: Bytes)
    ensures var actions := [ChildEnded(true), ReaderEnded(Stdout, false), SupervisorFinished(None)];
            && Execute(STARTED, limit, actions).Some?
            && Execute(STARTED, limit, actions).value.status == Failed
            && Apply(Execute(STARTED, limit, actions).value, limit, Wrote(Stderr, data)).Some?
  {
    var a, b, c := ChildEnded(true), ReaderEnded(Stdout, false), SupervisorFinished(None);
    ExecuteSnoc(STARTED, limit, [], a);
    ExecuteSnoc(STARTED, limit, [a], b);
    ExecuteSnoc(STARTED, limit, [a, b], c);
    assert [] + [a] == [a] && [a] + [b] == [a, b] && [a, b] + [c] == [a, b, c];
  }

  /** A reader that stopped stays stopped, and once both have, nothing is written. */
  lemma {:induction false} StoppedStays(r: Run, limit: nat, actions: seq<Action>)
    requires Execute(r, limit, actions).Some?
    ensures var after := Execute(r, limit, actions).value;
            && (!r.stdout.Reading? ==> after.stdout == r.stdout)
            && (!r.stderr.Reading? ==> after.stderr == r.stderr)
            && (!r.stdout.Reading? && !r.stderr.Reading? ==> after.stream == r.stream)
  {
    if actions != [] {
      StoppedStays(r, limit, actions[..|actions| - 1]);
    }
  }

  predicate Done(actions: seq<Action>, a: Action) {
    a in actions
  }

  /** The supervisor has finished, with whatever code. */
  predicate Finished(actions: seq<Action>) {
    exists i | 0 <= i < |actions| :: actions[i].SupervisorFinished?
  }

  lemma DoneSnoc(actions: seq<Action>, last: Action, a: Action)
    ensures Done(actions + [last], a) <==> Done(actions, a) || a == last
  {
  }

  lemma FinishedSnoc(actions: seq<Action>, last: Action)
    ensures Finished(actions + [last]) <==> Finished(actions) || last.SupervisorFinished?
  {
    var more := actions + [last];
    assert more[|actions|] == last && forall i | 0 <= i < |actions| :: more[i] == actions[i];
  }

  /** How a reader ended, over the actions and in the state. */
  ghost predicate ReaderAccounts(actions: seq<Action>, r: Run, source: Source) {
    && (Done(actions, ReaderEnded(source, true)) <==> ReaderOf(r, source).AtEnd?)
    && (Done(actions, ReaderEnded(source, false)) <==> ReaderOf(r, source).Broken?)
  }

  /** What the state of a run says about its actions: how readers and child ended, and whether the supervisor is done. */
  ghost predicate Accounts(actions: seq<Action>, r: Run) {
    && ReaderAccounts(actions, r, Stdout) && ReaderAccounts(actions, r, Stderr)
    && (Done(actions, ChildEnded(true)) <==> r.waited == Some(true))
    && (Done(actions, ChildEnded(false)) <==> r.waited == Some(false))
    && (Finished(actions) <==> !r.status.Running?)
  }

  lemma {:induction false} RunsAccount(limit: nat, actions: seq<Action>)
    requires Execute(STARTED, limit, actions).Some?
    ensures Accounts(actions, Execute(STARTED, limit, actions).value)
  {
    if actions != [] {
      var init, last := actions[..|actions| - 1], actions[|actions| - 1];
      RunsAccount(limit, init);
      AccountStep(limit, init, Execute(STARTED, limit, init).value, last);
      assert actions == init + [last];
    }
  }

  lemma AccountStep(limit: nat, init: seq<Action>, r: Run, last: Action)
    requires Accounts(init, r) && Apply(r, limit, last).Some?
    ensures Accounts(init + [last], Apply(r, limit, last).value)
  {
    ReaderStep(limit, init, r, last, Stdout);
    ReaderStep(limit, init, r, last, Stderr);
    DoneSnoc(init, last, ChildEnded(true));
    DoneSnoc(init, last, ChildEnded(false));
    FinishedSnoc(init, last);
  }

  lemma ReaderStep(limit: nat, init: seq<Action>, r: Run, last: Action, source: Source)
    requires ReaderAccounts(init, r, source) && Apply(r, limit, last).Some?
    ensures ReaderAccounts(init + [last], Apply(r, limit, last).value, source)
  {
    DoneSnoc(init, last, ReaderEnded(source, true));
    DoneSnoc(init, last, ReaderEnded(source, false));
  }

  /** The child was waited for and both readers reached the end of their pipes. */
  predicate AllWell(actions: seq<Action>) {
    && Done(actions, ChildEnded(true))
    && Done(actions, ReaderEnded(Stdout, true)) && Done(actions, ReaderEnded(Stderr, true))
  }

  /**
   * What a run reports, over its actions alone: an exit with its code if and
   * only if the supervisor finished with it and all went well, and a failure
   * whenever it finished otherwise.
   */
  lemma {:induction false} ReportsIff(limit: nat, actions: seq<Action>, code: Option<int>)
    requires Execute(STARTED, limit, actions).Some?
    ensures var status := Execute(STARTED, limit, actions).value.status;
            && (status == Exited(code) <==> Done(actions, SupervisorFinished(code)) && AllWell(actions))
            && (status.Failed? <==> Finished(actions) && !AllWell(actions))
            && (status.Running? <==> !Finished(actions))
  {
    if actions != [] {
      var init, last := actions[..|actions| - 1], actions[|actions| - 1];
      ReportsIff(limit, init, code);
      WellIff(limit, init);
      WellIff(limit, actions);
      RunsAccount(limit, init);
      assert actions == init + [last];
      DoneSnoc(init, last, SupervisorFinished(code));
      FinishedSnoc(init, last);
      if Done(init, SupervisorFinished(code)) {
        assert Finished(init);
      }
    }
  }

  /** The actions went well exactly if the state says so; and nothing is reported before the supervisor has joined. */
  lemma WellIff(limit: nat, actions: seq<Action>)
    requires Execute(STARTED, limit, actions).Some?
    ensures var r := Execute(STARTED, limit, actions).value;
            && (AllWell(actions) <==> r.waited == Some(true) && r.stdout.AtEnd? && r.stderr.AtEnd?)
            && (!r.status.Running? ==> Joined(r) && r.waited.Some?)
  {
    RunsAccount(limit, actions);
    ReportedIsJoined(limit, actions);
  }

  /** The supervisor can finish exactly once the child has ended and the readers are joined, over the actions alone. */
  lemma FinishesIff(limit: nat, actions: seq<Action>, code: Option<int>)
    requires Execute(STARTED, limit, actions).Some?
    ensures Apply(Execute(STARTED, limit, actions).value, limit, SupervisorFinished(code)).Some? <==>
              && !Finished(actions)
              && (Done(actions, ChildEnded(true)) || Done(actions, ChildEnded(false)))
              && (Done(actions, ReaderEnded(Stdout, false))
                  || (Done(actions, ReaderEnded(Stdout, true))
                      && (Done(actions, ReaderEnded(Stderr, true)) || Done(actions, ReaderEnded(Stderr, false)))))
  {
    RunsAccount(limit, actions);
    var waited := Execute(STARTED, limit, actions).value.waited;
    if waited.Some? {
      assert waited == if waited.value then Some(true) else Some(false);
    }
  }

  /** What the process wrote, to either pipe, in the order it was read. */
  function Written(actions: seq<Action>): Bytes {
    if actions == [] then []
    else
      var last := actions[|actions| - 1];
      Written(actions[..|actions| - 1]) + if last.Wrote? then last.data else []
  }

  lemma {:induction false} StreamIsWritten(limit: nat, actions: seq<Action>)
    requires Execute(STARTED, limit, actions).Some?
    ensures Execute(STARTED, limit, actions).value.stream == Written(actions)
  {
    if actions != [] {
      StreamIsWritten(limit, actions[..|actions| - 1]);
    }
  }

  /** The supervisor reports nothing before it has joined the readers. */
  lemma {:induction false} ReportedIsJoined(limit: nat, actions: seq<Action>)
    ensures Execute(STARTED, limit, actions).Some? ==>
              var r := Execute(STARTED, limit, actions).value;
              && (!r.status.Running? ==> Joined(r) && r.waited.Some?)
              && (r.status.Exited? ==> !r.stderr.Reading?)
  {
    if actions != [] && Execute(STARTED, limit, actions).Some? {
      ReportedIsJoined(limit, actions[..|actions| - 1]);
    }
  }

  /**
   * When a reported end is final: over every run that reports one, nothing
   * more is ever written if and only if the stderr reader has stopped, which
   * can only be missing after a failure of the stdout reader.
   */
  lemma FinalIff(limit: nat, actions: seq<Action>)
    requires Execute(STARTED, limit, actions).Some? && !Execute(STARTED, limit, actions).value.status.Running?
    ensures var r := Execute(STARTED, limit, actions).value;
            (forall more | Execute(r, limit, more).Some? :: Execute(r, limit, more).value.stream == r.stream)
            <==> !r.stderr.Reading?
    ensures var r := Execute(STARTED, limit, actions).value;
            r.stderr.Reading? ==> r.status.Failed? && r.stdout.Broken?
  {
    var r := Execute(STARTED, limit, actions).value;
    ReportedIsJoined(limit, actions);
    if r.stderr.Reading? {
      var more := [Wrote(Stderr, [0])];
      ExecuteSnoc(r, limit, [], Wrote(Stderr, [0]));
      assert [] + more == more;
      assert |Execute(r, limit, more).value.stream| == |r.stream| + 1;
    } else {
      forall more | Execute(r, limit, more).Some?
        ensures Execute(r, limit, more).value.stream == r.stream
      {
        StoppedStays(r, limit, more);
      }
    }
  }
}
