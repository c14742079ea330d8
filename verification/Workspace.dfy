/**
 * Revision-checked reads, rewrites and batch edits
 * (crates/libs/tascarrel-agent/src/file_workspace.rs, `FileWorkspace`).
 *
 * A revision stands for the bytes it is a digest of: SHA-256 is taken to be
 * injective, so the model stores the bytes themselves.
 */
module Workspace {
  import opened Foundation
  import opened Coverage
  import opened Sorting
  import opened Paging
  import opened Edits

  datatype ToolError =
    | CancelledTool
    | MissingFile(path: string)
    | UnreadFile(path: string)
    | StaleFile(path: string)
    | PartiallyReadFile(path: string)
    | NonUtf8File(path: string)
    | InvalidArguments
    | InvalidEdit(path: string, reason: EditError)
    | DuplicateFile(path: string)
    | IoFailure

  function Lookup(files: map<string, Bytes>, path: string): Option<Bytes> {
    if path in files then Some(files[path]) else None
  }

  /** Writes by other processes: `None` deletes. */
  type Disturbance = map<string, Option<Bytes>>

  function Disturbed(files: map<string, Bytes>, others: Disturbance): (r: map<string, Bytes>)
    ensures forall p: string :: Lookup(r, p) == if p in others then others[p] else Lookup(files, p)
  {
    map p | p in files.Keys + others.Keys && (p in others ==> others[p].Some?) ::
      if p in others then others[p].value else files[p]
  }

  /** One look at the cancellation token, and how many reads of files came before it. */
  datatype Poll = Poll(stop: bool, after: nat)

  /** How far a process has come: operations, failed ones, polls that said to stop, and the files at that time. */
  datatype Moment = Moment(clock: nat, faults: nat, stops: nat, files: map<string, Bytes>)

  /** Some operation between the two moments failed. */
  predicate Faulted(a: Moment, b: Moment) {
    a.faults != b.faults
  }

  /** Some poll between the two moments found cancellation requested. */
  predicate Stopped(a: Moment, b: Moment) {
    a.stops != b.stops
  }

  /**
   * The filesystem. Which operations fail, what other processes do before the
   * n-th operation and when cancellation is requested is fixed in advance but
   * arbitrary. `commits` records every target that this process changed,
   * `looks` what it saw whenever it read a path, `polls` what it learned about
   * cancellation, `faults` how many operations failed and `stops` how many
   * polls found cancellation requested.
   */
  class FileSystem {
    const failing: nat -> bool
    const outside: nat -> Disturbance
    const cancelled: nat -> bool
    var files: map<string, Bytes>
    var staged: map<nat, Bytes>
    var sequence: nat
    var clock: nat
    ghost var commits: seq<(string, Bytes)>
    ghost var looks: seq<(string, Option<Bytes>)>
    ghost var polls: seq<Poll>
    ghost var faults: nat
    ghost var stops: nat

    ghost predicate Valid()
      reads this
    {
      forall id | id in staged :: id < sequence
    }

    ghost function Now(): Moment
      reads this
    {
      Moment(clock, faults, stops, files)
    }

    /** No other process touched the path at these operations. */
    ghost predicate Undisturbed(path: string, from: nat, to: nat) {
      forall n | from <= n < to :: path !in outside(n)
    }

    ghost predicate Later(a: Moment, b: Moment) {
      a.clock <= b.clock && a.faults <= b.faults && a.stops <= b.stops
    }

    /** Time passed, and only other processes changed files. */
    ghost predicate Keeps(a: Moment, b: Moment) {
      Later(a, b) && forall p | Undisturbed(p, a.clock, b.clock) :: Lookup(b.files, p) == Lookup(a.files, p)
    }

    lemma KeepsOn(a: Moment, b: Moment, c: Moment)
      requires Keeps(a, b) && Keeps(b, c)
      ensures Keeps(a, c)
    {
      forall p | Undisturbed(p, a.clock, c.clock)
        ensures Lookup(c.files, p) == Lookup(a.files, p)
      {
        assert Undisturbed(p, a.clock, b.clock) && Undisturbed(p, b.clock, c.clock);
      }
    }

    constructor (failing: nat -> bool, outside: nat -> Disturbance, cancelled: nat -> bool, files: map<string, Bytes>)
      ensures Valid() && this.files == files && commits == [] && looks == [] && polls == [] && faults == 0 && stops == 0
    {
      this.failing, this.outside, this.cancelled, this.files := failing, outside, cancelled, files;
      staged, sequence, clock, commits, looks, polls, faults, stops := map[], 0, 0, [], [], [], 0, 0;
    }

    method IsCancelled() returns (stop: bool)
      modifies this`clock, this`polls, this`stops
      ensures stop == cancelled(old(clock)) && clock == old(clock) + 1
      ensures polls == old(polls) + [Poll(stop, |looks|)]
      ensures stops == old(stops) + (if stop then 1 else 0) && Keeps(old(Now()), Now())
    {
      stop := cancelled(clock);
      clock := clock + 1;
      polls := polls + [Poll(stop, |looks|)];
      stops := stops + if stop then 1 else 0;
    }

    /** Other processes run, then the operation may fail. */
    method Tick() returns (ok: bool)
      modifies this`clock, this`files, this`faults
      ensures ok == !failing(old(clock)) && clock == old(clock) + 1
      ensures faults == old(faults) + if ok then 0 else 1
      ensures files == Disturbed(old(files), outside(old(clock)))
      ensures Keeps(old(Now()), Now())
    {
      files := Disturbed(files, outside(clock));
      ok := !failing(clock);
      faults := faults + if ok then 0 else 1;
      clock := clock + 1;
      assert forall p | Undisturbed(p, old(clock), clock) :: p !in outside(old(clock));
    }

    method Exists(path: string) returns (r: Result<bool, ToolError>)
      modifies this`clock, this`files, this`faults
      ensures Keeps(old(Now()), Now())
      ensures r.Ok? ==> r.value == (path in files) && faults == old(faults)
      ensures r.Err? ==> r.error == IoFailure && faults == old(faults) + 1
    {
      var ok := Tick();
      return if ok then Ok(path in files) else Err(IoFailure);
    }

    method ReadFile(path: string) returns (r: Result<Option<Bytes>, ToolError>)
      modifies this`clock, this`files, this`looks, this`faults
      ensures Keeps(old(Now()), Now())
      ensures r.Ok? ==> r.value == Lookup(files, path) && faults == old(faults)
      ensures r.Err? ==> r.error == IoFailure && faults == old(faults) + 1
      ensures looks == old(looks) + if r.Ok? then [(path, r.value)] else []
    {
      var ok := Tick();
      if !ok { return Err(IoFailure); }
      looks := looks + [(path, Lookup(files, path))];
      return Ok(Lookup(files, path));
    }

    /** Creates a temporary file under a name nobody else uses, and fills it. */
    method StageFile(content: Bytes) returns (id: Option<nat>, ok: bool)
      requires Valid()
      modifies this`clock, this`files, this`staged, this`sequence, this`faults
      ensures Valid() && Keeps(old(Now()), Now())
      ensures faults == old(faults) + if ok then 0 else 1
      ensures ok ==> id.Some?
      ensures id.Some? ==> id.value == old(sequence) < sequence && staged.Keys == old(staged).Keys + {id.value}
      ensures id.None? ==> staged == old(staged)
      ensures ok ==> staged == old(staged)[id.value := content]
      ensures forall k | k in old(staged) :: k in staged && staged[k] == old(staged)[k]
    {
      var created := Tick();
      if !created { return None, false; }
      id := Some(sequence);
      sequence := sequence + 1;
      ghost var middle := Now();
      var written := Tick();
      KeepsOn(old(Now()), middle, Now());
      staged := staged[id.value := if written then content else []];
      return id, written;
    }

    /** Moves a staged file over its target, or links it to a new target. */
    method Install(id: nat, path: string, replace: bool) returns (ok: bool)
      requires Valid() && id in staged
      modifies this`clock, this`files, this`staged, this`commits, this`faults
      ensures Valid() && clock == old(clock) + 1
      ensures var found := Disturbed(old(files), outside(old(clock)));
              && (ok <==> !failing(old(clock)) && (replace || path !in found))
              && files == if ok then found[path := old(staged)[id]] else found
      ensures ok ==> commits == old(commits) + [(path, old(staged)[id])] && staged == old(staged) - {id}
      ensures !ok ==> commits == old(commits) && staged == old(staged)
      ensures faults == old(faults) + if failing(old(clock)) then 1 else 0
    {
      ok := Tick();
      ok := ok && (replace || path !in files);
      if ok {
        files := files[path := staged[id]];
        commits := commits + [(path, staged[id])];
        staged := staged - {id};
      }
    }

    method RemoveStaged(id: nat)
      requires Valid()
      modifies this`clock, this`staged, this`faults
      ensures Valid() && clock == old(clock) + 1 && old(faults) <= faults
      ensures Keeps(old(Now()), Now())
    {
      if failing(clock) {
        faults := faults + 1;
      } else {
        staged := staged - {id};
      }
      clock := clock + 1;
    }
  }

  // ---- Batches ----------------------------------------------------------

  datatype Prepared = Prepared(target: string, content: Bytes, original: Bytes, originalRevision: Option<Bytes>)

  type Batch = seq<Prepared>

  /** No target twice. */
  predicate Distinct(batch: Batch) {
    forall i, j | 0 <= i < j < |batch| :: batch[i].target != batch[j].target
  }

  /** Old and new content are text, so that a diff can be made. */
  predicate IsText(batch: Batch) {
    forall i | 0 <= i < |batch| :: Utf8(batch[i].original) && Utf8(batch[i].content)
  }

  /** What validation must have found at the target. */
  predicate StillCurrent(m: Prepared, found: Option<Bytes>) {
    found == m.originalRevision
  }

  /** The first `k` targets of the batch, as they are committed. */
  function Changes(batch: Batch, k: nat): (r: seq<(string, Bytes)>)
    requires k <= |batch|
    ensures |r| == k && forall i | 0 <= i < k :: r[i] == (batch[i].target, batch[i].content)
  {
    seq(k, i requires 0 <= i < k => (batch[i].target, batch[i].content))
  }

  /** Stages the whole batch, polling before each file. Cancellation here leaves what is already staged. */
  method StageAll(fs: FileSystem, batch: Batch) returns (r: Result<seq<nat>, ToolError>)
    requires fs.Valid()
    modifies fs`clock, fs`files, fs`staged, fs`sequence, fs`polls, fs`stops, fs`faults
    ensures fs.Valid() && fs.Keeps(old(fs.Now()), fs.Now())
    ensures r.Ok? ==> AreStaged(fs.staged, batch, r.value, 0)
    ensures r.Ok? ==> |fs.polls| == |old(fs.polls)| + |batch| && !Faulted(old(fs.Now()), fs.Now())
    ensures r.Err? ==> r.error == CancelledTool || (r.error == IoFailure && Faulted(old(fs.Now()), fs.Now()))
    ensures r == Err(CancelledTool) <==> Stopped(old(fs.Now()), fs.Now())
  {
    ghost var start := fs.Now();
    var ids: seq<nat> := [];
    var i := 0;
    while i < |batch|
      invariant 0 <= i <= |batch| && |ids| == i && fs.Valid()
      invariant forall k | 0 <= k < i :: ids[k] in fs.staged && fs.staged[ids[k]] == batch[k].content
      invariant forall j, k | 0 <= j < k < i :: ids[j] != ids[k]
      invariant fs.Keeps(start, fs.Now()) && |fs.polls| == |old(fs.polls)| + i
      invariant !Stopped(start, fs.Now()) && !Faulted(start, fs.Now())
    {
      var problem, id := StageNext(fs, start, batch[i].content);
      if problem.Some? {
        if problem.value == IoFailure {
          CleanUp(fs, start, if id.Some? then ids + [id.value] else ids);
        }
        return Err(problem.value);
      }
      ids := ids + [id.value];
      i := i + 1;
    }
    return Ok(ids);
  }

  /** Polls, then stages one file. */
  method StageNext(fs: FileSystem, ghost start: Moment, content: Bytes)
    returns (problem: Option<ToolError>, id: Option<nat>)
    requires fs.Valid() && fs.Keeps(start, fs.Now()) && !Stopped(start, fs.Now()) && !Faulted(start, fs.Now())
    modifies fs`clock, fs`files, fs`staged, fs`sequence, fs`polls, fs`stops, fs`faults
    ensures fs.Valid() && fs.Keeps(start, fs.Now())
    ensures |fs.polls| == |old(fs.polls)| + 1
    ensures problem.None? ==> id == Some(old(fs.sequence)) && fs.staged == old(fs.staged)[id.value := content]
    ensures problem.Some? ==> problem.value in {CancelledTool, IoFailure}
    ensures problem == Some(CancelledTool) <==> Stopped(start, fs.Now())
    ensures problem == Some(IoFailure) <==> Faulted(start, fs.Now())
  {
    ghost var before := fs.Now();
    var stop := fs.IsCancelled();
    ghost var polled := fs.Now();
    fs.KeepsOn(start, before, polled);
    if stop { return Some(CancelledTool), None; }
    var ok;
    id, ok := fs.StageFile(content);
    fs.KeepsOn(start, polled, fs.Now());
    return if ok then None else Some(IoFailure), id;
  }

  method CleanUp(fs: FileSystem, ghost start: Moment, ids: seq<nat>)
    requires fs.Valid() && fs.Keeps(start, fs.Now())
    modifies fs`clock, fs`staged, fs`faults
    ensures fs.Valid() && fs.Keeps(start, fs.Now()) && fs.Later(old(fs.Now()), fs.Now())
  {
    for i := 0 to |ids|
      invariant fs.Valid() && fs.Keeps(start, fs.Now()) && fs.Later(old(fs.Now()), fs.Now())
    {
      ghost var before := fs.Now();
      fs.RemoveStaged(ids[i]);
      fs.KeepsOn(start, before, fs.Now());
    }
  }

  /** Reads of the first targets of the batch, in order. */
  function Looks(batch: Batch, found: seq<Option<Bytes>>): (r: seq<(string, Option<Bytes>)>)
    requires |found| <= |batch|
    ensures |r| == |found| && forall i | 0 <= i < |r| :: r[i] == (batch[i].target, found[i])
  {
    seq(|found|, i requires 0 <= i < |found| => (batch[i].target, found[i]))
  }

  /** What was read of these targets is what they held at the first moment, unless someone else came between. */
  ghost predicate TrueReads(fs: FileSystem, batch: Batch, found: seq<Option<Bytes>>, a: Moment, b: Moment)
    requires |found| <= |batch|
  {
    forall i | 0 <= i < |found| ::
      fs.Undisturbed(batch[i].target, a.clock, b.clock) ==> found[i] == Lookup(a.files, batch[i].target)
  }

  /** Rereads every target; the first that is not what was observed ends the batch. */
  method ValidateAll(fs: FileSystem, batch: Batch) returns (r: Result<(), ToolError>, ghost found: seq<Option<Bytes>>)
    requires fs.Valid()
    modifies fs`clock, fs`files, fs`looks, fs`faults
    ensures fs.Valid() && fs.Keeps(old(fs.Now()), fs.Now())
    ensures |found| <= |batch| && fs.looks == old(fs.looks) + Looks(batch, found)
    ensures r.Ok? ==> |found| == |batch| && forall i | 0 <= i < |batch| :: StillCurrent(batch[i], found[i])
    ensures r.Err? ==> forall i | 0 <= i < |found| :: StillCurrent(batch[i], found[i]) || i == |found| - 1
    ensures Faulted(old(fs.Now()), fs.Now()) ==> r == Err(IoFailure)
    ensures r.Err? && !Faulted(old(fs.Now()), fs.Now()) ==>
              found != [] && RefusedFor(batch[|found| - 1], found[|found| - 1], r.error)
    ensures TrueReads(fs, batch, found, old(fs.Now()), fs.Now())
  {
    ghost var start := fs.Now();
    found := [];
    var i := 0;
    while i < |batch|
      invariant 0 <= i <= |batch| && |found| == i && fs.Valid()
      invariant fs.looks == old(fs.looks) + Looks(batch, found)
      invariant forall k | 0 <= k < i :: StillCurrent(batch[k], found[k])
      invariant fs.Keeps(start, fs.Now()) && !Faulted(start, fs.Now())
      invariant TrueReads(fs, batch, found, start, fs.Now())
    {
      var current := ReadTarget(fs, start, batch, i, found);
      if current.Err? { return Err(IoFailure), found; }
      found := found + [current.value];
      if current.value.None? && batch[i].originalRevision.Some? {
        return Err(IoFailure), found;
      }
      if current.value != batch[i].originalRevision {
        return Err(StaleFile(batch[i].target)), found;
      }
      i := i + 1;
    }
    return Ok(()), found;
  }

  /** A target that was read before and is gone is an I/O failure, any other difference staleness. */
  predicate RefusedFor(m: Prepared, found: Option<Bytes>, error: ToolError) {
    && !StillCurrent(m, found)
    && error == if found.None? then IoFailure else StaleFile(m.target)
  }

  method ReadTarget(fs: FileSystem, ghost start: Moment, batch: Batch, i: nat, ghost found: seq<Option<Bytes>>)
    returns (r: Result<Option<Bytes>, ToolError>)
    requires fs.Valid() && |found| == i < |batch| && fs.Keeps(start, fs.Now())
    requires TrueReads(fs, batch, found, start, fs.Now())
    modifies fs`clock, fs`files, fs`looks, fs`faults
    ensures fs.Valid() && fs.Keeps(start, fs.Now())
    ensures r.Err? <==> Faulted(old(fs.Now()), fs.Now())
    ensures r.Err? ==> fs.looks == old(fs.looks) && TrueReads(fs, batch, found, start, fs.Now())
    ensures r.Ok? ==> fs.looks == old(fs.looks) + [(batch[i].target, r.value)]
    ensures r.Ok? ==> Looks(batch, found + [r.value]) == Looks(batch, found) + [(batch[i].target, r.value)]
    ensures r.Ok? ==> TrueReads(fs, batch, found + [r.value], start, fs.Now())
  {
    ghost var before := fs.Now();
    r := fs.ReadFile(batch[i].target);
    ghost var now := fs.Now();
    fs.KeepsOn(start, before, now);
    assert forall p | fs.Undisturbed(p, start.clock, now.clock) :: fs.Undisturbed(p, start.clock, before.clock);
  }

  /** The first `k` targets hold their content, unless someone else wrote to them after they got it. */
  ghost predicate Hold(fs: FileSystem, files: map<string, Bytes>, batch: Batch, k: nat, begun: nat, now: nat)
    requires k <= |batch|
  {
    forall i | 0 <= i < k ::
      fs.Undisturbed(batch[i].target, begun + i + 1, now) ==> Lookup(files, batch[i].target) == Some(batch[i].content)
  }

  /** Everything but the first `k` targets is as it was, unless someone else wrote to it. */
  ghost predicate RestKept(fs: FileSystem, before: Moment, batch: Batch, k: nat, now: Moment)
    requires k <= |batch|
  {
    forall p | p !in Targets(batch, k) && fs.Undisturbed(p, before.clock, now.clock) ::
      Lookup(now.files, p) == Lookup(before.files, p)
  }

  lemma InstallStep(fs: FileSystem, batch: Batch, i: nat, start: Moment, before: Moment, now: Moment, ok: bool)
    requires i < |batch| && Distinct(batch) && start.clock + i == before.clock && now.clock == before.clock + 1
    requires Hold(fs, before.files, batch, i, start.clock, before.clock) && RestKept(fs, start, batch, i, before)
    requires var found := Disturbed(before.files, fs.outside(before.clock));
             now.files == if ok then found[batch[i].target := batch[i].content] else found
    ensures ok ==> Hold(fs, now.files, batch, i + 1, start.clock, now.clock) && RestKept(fs, start, batch, i + 1, now)
    ensures !ok ==> Hold(fs, now.files, batch, i, start.clock, now.clock) && RestKept(fs, start, batch, i, now)
    ensures !ok && batch[i].target in now.files && fs.Undisturbed(batch[i].target, start.clock, now.clock) ==>
              batch[i].target in start.files
  {
    var seen := now.(files := Disturbed(before.files, fs.outside(before.clock)));
    SeenStep(fs, batch, i, start, before, seen);
    TargetOf(batch, i, batch[i].target);
    if ok {
      forall k | 0 <= k < i + 1 && fs.Undisturbed(batch[k].target, start.clock + k + 1, now.clock)
        ensures Lookup(now.files, batch[k].target) == Some(batch[k].content)
      {
        if k < i {
          assert batch[k].target != batch[i].target && Lookup(seen.files, batch[k].target) == Some(batch[k].content);
        }
      }
    }
  }

  /** What others do before an installation leaves what they do not touch. */
  lemma SeenStep(fs: FileSystem, batch: Batch, i: nat, start: Moment, before: Moment, seen: Moment)
    requires i <= |batch| && start.clock + i == before.clock && seen.clock == before.clock + 1
    requires Hold(fs, before.files, batch, i, start.clock, before.clock) && RestKept(fs, start, batch, i, before)
    requires seen.files == Disturbed(before.files, fs.outside(before.clock))
    ensures Hold(fs, seen.files, batch, i, start.clock, seen.clock) && RestKept(fs, start, batch, i, seen)
  {
    forall k | 0 <= k < i && fs.Undisturbed(batch[k].target, start.clock + k + 1, seen.clock)
      ensures Lookup(seen.files, batch[k].target) == Some(batch[k].content)
    {
      assert fs.Undisturbed(batch[k].target, start.clock + k + 1, before.clock);
    }
    forall p | p !in Targets(batch, i) && fs.Undisturbed(p, start.clock, seen.clock)
      ensures Lookup(seen.files, p) == Lookup(start.files, p)
    {
      assert fs.Undisturbed(p, start.clock, before.clock);
    }
  }

  lemma TimePasses(fs: FileSystem, batch: Batch, k: nat, start: Moment, a: Moment, b: Moment)
    requires k <= |batch| && Hold(fs, a.files, batch, k, start.clock, a.clock) && RestKept(fs, start, batch, k, a)
    requires a.clock <= b.clock && b.files == a.files
    ensures Hold(fs, b.files, batch, k, start.clock, b.clock) && RestKept(fs, start, batch, k, b)
  {
    forall i | 0 <= i < k && fs.Undisturbed(batch[i].target, start.clock + i + 1, b.clock)
      ensures Lookup(b.files, batch[i].target) == Some(batch[i].content)
    {
      assert fs.Undisturbed(batch[i].target, start.clock + i + 1, a.clock);
    }
    forall p | p !in Targets(batch, k) && fs.Undisturbed(p, start.clock, b.clock)
      ensures Lookup(b.files, p) == Lookup(start.files, p)
    {
      assert fs.Undisturbed(p, start.clock, a.clock);
    }
  }

  ghost predicate InstalledUpTo(fs: FileSystem, batch: Batch, k: nat, start: Moment, now: Moment)
    requires k <= |batch|
  {
    && fs.Later(start, now) && start.stops == now.stops
    && Hold(fs, now.files, batch, k, start.clock, now.clock) && RestKept(fs, start, batch, k, now)
  }

  /** From the `i`-th on, every content is staged, each under its own name. */
  predicate AreStaged(staged: map<nat, Bytes>, batch: Batch, ids: seq<nat>, i: nat) {
    && |ids| == |batch|
    && (forall k | i <= k < |batch| :: ids[k] in staged && staged[ids[k]] == batch[k].content)
    && (forall j, k | i <= j < k < |batch| :: ids[j] != ids[k])
  }

  /** A new file could not be linked because someone else made one, or there was one all along. */
  ghost predicate Occupied(fs: FileSystem, m: Prepared, a: Moment, b: Moment) {
    m.originalRevision.None? && (fs.Undisturbed(m.target, a.clock, b.clock) ==> m.target in a.files)
  }

  /**
   * Of a batch, `done` targets were changed from operation `begun` on. If any
   * was, all had been reread and found as observed, then a last poll found no
   * cancellation; and those that were changed hold their content.
   */
  ghost predicate Traced(fs: FileSystem, batch: Batch, done: nat, begun: nat, looks: seq<(string, Option<Bytes>)>,
                         now: Moment)
    requires done <= |batch|
  {
    && (done > 0 ==> Validated(looks, batch) && 0 < begun && !fs.cancelled(begun - 1))
    && Hold(fs, now.files, batch, done, begun, now.clock)
  }

  /** Installs one file; if that fails, the staged files after it are removed. */
  method InstallNext(fs: FileSystem, ghost start: Moment, batch: Batch, ids: seq<nat>, i: nat) returns (ok: bool)
    requires fs.Valid() && Distinct(batch) && i < |batch| && AreStaged(fs.staged, batch, ids, i)
    requires InstalledUpTo(fs, batch, i, start, fs.Now()) && fs.clock == start.clock + i && !Faulted(start, fs.Now())
    modifies fs`clock, fs`files, fs`staged, fs`commits, fs`faults
    ensures fs.Valid() && InstalledUpTo(fs, batch, if ok then i + 1 else i, start, fs.Now())
    ensures ok ==> fs.clock == start.clock + i + 1 && !Faulted(start, fs.Now()) && AreStaged(fs.staged, batch, ids, i + 1)
    ensures fs.commits == old(fs.commits) + if ok then [(batch[i].target, batch[i].content)] else []
    ensures ok ==> Changes(batch, i + 1) == Changes(batch, i) + [(batch[i].target, batch[i].content)]
    ensures !ok ==> Faulted(start, fs.Now()) || Occupied(fs, batch[i], start, fs.Now())
  {
    ghost var before := fs.Now();
    ok := fs.Install(ids[i], batch[i].target, batch[i].originalRevision.Some?);
    ghost var now := fs.Now();
    InstallStep(fs, batch, i, start, before, now, ok);
    if !ok {
      CleanUp(fs, now, ids[i + 1..]);
      TimePasses(fs, batch, i, start, now, fs.Now());
      assert fs.Undisturbed(batch[i].target, start.clock, fs.clock) ==>
          fs.Undisturbed(batch[i].target, start.clock, now.clock);
    }
  }

  /** Installs the staged files in order; a failure stops after the targets already changed. */
  method InstallAll(fs: FileSystem, batch: Batch, ids: seq<nat>) returns (ok: bool, ghost done: nat)
    requires fs.Valid() && Distinct(batch)
    requires AreStaged(fs.staged, batch, ids, 0)
    modifies fs`clock, fs`files, fs`staged, fs`commits, fs`faults
    ensures fs.Valid() && done <= |batch| && (ok <==> done == |batch|)
    ensures fs.commits == old(fs.commits) + Changes(batch, done)
    ensures InstalledUpTo(fs, batch, done, old(fs.Now()), fs.Now())
    ensures ok ==> !Faulted(old(fs.Now()), fs.Now()) && fs.clock == old(fs.clock) + |batch|
    ensures !ok ==> Faulted(old(fs.Now()), fs.Now()) || Occupied(fs, batch[done], old(fs.Now()), fs.Now())
  {
    ghost var start := fs.Now();
    done := 0;
    var i := 0;
    assert Changes(batch, 0) == [];
    while i < |batch|
      invariant 0 <= i == done <= |batch| && fs.Valid() && AreStaged(fs.staged, batch, ids, i)
      invariant fs.commits == old(fs.commits) + Changes(batch, i)
      invariant InstalledUpTo(fs, batch, i, start, fs.Now())
      invariant !Faulted(start, fs.Now()) && fs.clock == start.clock + i
    {
      var installed := InstallNext(fs, start, batch, ids, i);
      if !installed { return false, done; }
      i := i + 1;
      done := i;
    }
    return true, done;
  }

  datatype FileChange = FileChange(path: string, created: bool)

  /** One change for every target whose content is new. */
  function ChangeList(batch: Batch): seq<FileChange> {
    if batch == [] then []
    else ChangeList(batch[..|batch| - 1]) + NewContent(batch[|batch| - 1])
  }

  lemma ChangesSnoc(batch: Batch, i: nat)
    requires i < |batch|
    ensures ChangeList(batch[..i + 1]) == ChangeList(batch[..i]) + NewContent(batch[i])
  {
    assert batch[..i + 1][..i] == batch[..i];
  }

  /** Exactly the files with new content are described, in order and none as created. */
  predicate DescribesEdits(changes: seq<FileChange>, batch: Batch) {
    && (forall c | c in changes :: !c.created && exists i | 0 <= i < |batch| ::
          batch[i].target == c.path && batch[i].original != batch[i].content)
    && (forall i | 0 <= i < |batch| && batch[i].original != batch[i].content ::
          FileChange(batch[i].target, false) in changes)
  }

  lemma {:induction false} ListDescribes(batch: Batch)
    requires forall i | 0 <= i < |batch| :: batch[i].originalRevision.Some?
    ensures DescribesEdits(ChangeList(batch), batch)
    decreases |batch|
  {
    if batch != [] {
      var n := |batch| - 1;
      var init := batch[..n];
      assert forall i | 0 <= i < n :: init[i] == batch[i];
      ListDescribes(init);
      forall c | c in ChangeList(batch)
        ensures !c.created && exists i | 0 <= i < |batch| :: batch[i].target == c.path && batch[i].original != batch[i].content
      {
        if c in ChangeList(init) {
          var i :| 0 <= i < n && init[i].target == c.path && init[i].original != init[i].content;
          assert batch[i].target == c.path && batch[i].original != batch[i].content;
        } else {
          assert c in NewContent(batch[n]);
          assert batch[n].target == c.path && batch[n].original != batch[n].content;
        }
      }
    }
  }

  function NewContent(m: Prepared): seq<FileChange> {
    if m.original == m.content then [] else [FileChange(m.target, m.originalRevision.None?)]
  }

  /** The whole of `content` counts as read. */
  ghost predicate WhollyObserved(o: Observation, content: Bytes) {
    && o.revision == content && Canonical(o.coverage)
    && o.IsComplete(|content|)
    && (forall i: nat :: CoveredBy(o.coverage, i) <==> i < |content|)
  }

  method CompleteObservation(content: Bytes) returns (o: Observation)
    ensures WhollyObserved(o, content)
  {
    var observation := new FileObservation(Observation(content, [], false));
    observation.Observe(Range(0, |content|), |content|);
    o := observation.Snapshot();
    if content != [] {
      ContainsIffCovered(o.coverage, Range(0, |content|));
    }
  }

  /** The first `k` targets are recorded as wholly read, everything else as before. */
  ghost predicate RecordedUpTo(before: map<string, Observation>, after: map<string, Observation>, batch: Batch, k: nat)
    requires k <= |batch|
  {
    && (forall i | 0 <= i < k :: batch[i].target in after && WhollyObserved(after[batch[i].target], batch[i].content))
    && (forall p | p !in Targets(batch, k) :: SameAt(before, after, p))
  }

  predicate SameAt(before: map<string, Observation>, after: map<string, Observation>, p: string) {
    if p in before then p in after && after[p] == before[p] else p !in after
  }

  function Targets(batch: Batch, k: nat): set<string>
    requires k <= |batch|
  {
    if k == 0 then {} else Targets(batch, k - 1) + {batch[k - 1].target}
  }

  lemma {:induction false} TargetOf(batch: Batch, k: nat, p: string)
    requires k <= |batch|
    ensures p in Targets(batch, k) <==> exists i | 0 <= i < k :: batch[i].target == p
  {
    if k > 0 {
      TargetOf(batch, k - 1, p);
    }
  }

  lemma RecordOne(before: map<string, Observation>, after: map<string, Observation>, batch: Batch, i: nat, o: Observation)
    requires i < |batch| && Distinct(batch) && RecordedUpTo(before, after, batch, i) && WhollyObserved(o, batch[i].content)
    ensures RecordedUpTo(before, after[batch[i].target := o], batch, i + 1)
  {
    var now := after[batch[i].target := o];
    forall p | p !in Targets(batch, i + 1)
      ensures SameAt(before, now, p)
    {
      assert SameAt(before, after, p);
    }
    forall k | 0 <= k < i + 1
      ensures batch[k].target in now && WhollyObserved(now[batch[k].target], batch[k].content)
    {
      if k < i {
        assert batch[k].target != batch[i].target;
      }
    }
  }

  /** Describes what changed; the diff itself is not modelled, but it needs text. */
  method ChangeOf(m: Prepared) returns (r: Result<seq<FileChange>, ToolError>)
    ensures r.Ok? <==> m.original == m.content || (Utf8(m.original) && Utf8(m.content))
    ensures r.Ok? ==> r.value == NewContent(m)
    ensures r.Err? ==> r.error == NonUtf8File(m.target)
  {
    if m.original == m.content { return Ok([]); }
    if !Utf8(m.original) || !Utf8(m.content) { return Err(NonUtf8File(m.target)); }
    return Ok([FileChange(m.target, m.originalRevision.None?)]);
  }

  method RecordAll(batch: Batch, observations: map<string, Observation>)
    returns (r: Result<seq<FileChange>, ToolError>, observations': map<string, Observation>)
    requires Distinct(batch)
    ensures r.Ok? ==> RecordedUpTo(observations, observations', batch, |batch|) && r.value == ChangeList(batch)
    ensures IsText(batch) ==> r.Ok?
    ensures r.Err? ==> r.error.NonUtf8File?
  {
    observations' := observations;
    var changes: seq<FileChange> := [];
    var i := 0;
    while i < |batch|
      invariant 0 <= i <= |batch|
      invariant RecordedUpTo(observations, observations', batch, i)
      invariant changes == ChangeList(batch[..i])
    {
      ChangesSnoc(batch, i);
      var m := batch[i];
      var complete := CompleteObservation(m.content);
      RecordOne(observations, observations', batch, i, complete);
      observations' := observations'[m.target := complete];
      var change := ChangeOf(m);
      if change.Err? { return Err(change.error), observations'; }
      changes := changes + change.value;
      i := i + 1;
    }
    assert batch[..i] == batch;
    return Ok(changes), observations';
  }

  /** The last reads were those of the batch's targets, and found them as observed. */
  predicate Validated(looks: seq<(string, Option<Bytes>)>, batch: Batch) {
    && |batch| <= |looks|
    && forall i | 0 <= i < |batch| :: looks[|looks| - |batch| + i] == (batch[i].target, batch[i].originalRevision)
  }

  /** There were that many polls, and the last one, after this many reads, said to go on. */
  predicate Cleared(polls: seq<Poll>, count: nat, reads': nat) {
    0 < |polls| == count && polls[count - 1] == Poll(false, reads')
  }

  /** At the first moment every target was as prepared, and no one else came between. */
  ghost predicate Undisputed(fs: FileSystem, batch: Batch, a: Moment, b: Moment) {
    forall i | 0 <= i < |batch| ::
      && StillCurrent(batch[i], Lookup(a.files, batch[i].target))
      && fs.Undisturbed(batch[i].target, a.clock, b.clock)
  }

  /**
   * Everything before the commit phase: stages and validates the whole batch.
   * Nothing but staged files changes, and the last thing done is a poll.
   */
  method StageAndValidate(fs: FileSystem, batch: Batch) returns (r: Result<seq<nat>, ToolError>)
    requires fs.Valid()
    modifies fs`clock, fs`files, fs`staged, fs`sequence, fs`polls, fs`stops, fs`faults, fs`looks
    ensures fs.Valid() && fs.Keeps(old(fs.Now()), fs.Now())
    ensures old(fs.looks) <= fs.looks
    ensures r.Ok? ==> AreStaged(fs.staged, batch, r.value, 0) && Validated(fs.looks, batch)
    ensures r.Ok? ==> Cleared(fs.polls, |old(fs.polls)| + |batch| + 2, |fs.looks|)
    ensures r.Ok? ==> fs.clock > 0 && !fs.cancelled(fs.clock - 1) && !Faulted(old(fs.Now()), fs.Now())
    ensures r == Err(CancelledTool) <==> Stopped(old(fs.Now()), fs.Now())
    ensures r.Err? ==> r.error in {CancelledTool, IoFailure} || r.error.StaleFile?
    ensures r.Err? && r.error != CancelledTool && Undisputed(fs, batch, old(fs.Now()), fs.Now()) ==>
              Faulted(old(fs.Now()), fs.Now())
  {
    ghost var start := fs.Now();
    r := StageAll(fs, batch);
    if r.Err? { return; }
    var stop := CheckRunning(fs, start, r.value);
    if stop { return Err(CancelledTool); }
    ghost var staged := fs.Now();
    var valid;
    ghost var found;
    valid, found := ValidateAll(fs, batch);
    ghost var validated := fs.Now();
    fs.KeepsOn(start, staged, validated);
    if valid.Err? {
      CleanUp(fs, start, r.value);
      UndisputedPasses(fs, batch, found, start, staged, validated, fs.Now(), valid);
      return Err(valid.error);
    }
    stop := CheckRunning(fs, start, r.value);
    if stop { return Err(CancelledTool); }
  }

  /** Polls; a batch that is to stop gives up its staged files. */
  method CheckRunning(fs: FileSystem, ghost start: Moment, ids: seq<nat>) returns (stop: bool)
    requires fs.Valid() && fs.Keeps(start, fs.Now()) && !Stopped(start, fs.Now())
    modifies fs`clock, fs`staged, fs`polls, fs`stops, fs`faults
    ensures fs.Valid() && fs.Keeps(start, fs.Now()) && Stopped(start, fs.Now()) == stop
    ensures fs.polls == old(fs.polls) + [Poll(stop, |fs.looks|)]
    ensures !stop ==> fs.clock == old(fs.clock) + 1 && !fs.cancelled(old(fs.clock))
    ensures !stop ==> fs.staged == old(fs.staged) && fs.faults == old(fs.faults)
  {
    ghost var before := fs.Now();
    stop := fs.IsCancelled();
    ghost var polled := fs.Now();
    fs.KeepsOn(start, before, polled);
    if stop {
      CleanUp(fs, start, ids);
    }
  }

  /** Validation of an undisputed batch only fails if an operation does. */
  lemma UndisputedPasses(fs: FileSystem, batch: Batch, found: seq<Option<Bytes>>, start: Moment, staged: Moment,
                         validated: Moment, end: Moment, r: Result<(), ToolError>)
    requires |found| <= |batch| && TrueReads(fs, batch, found, staged, validated)
    requires fs.Keeps(start, staged) && fs.Later(staged, validated) && fs.Later(validated, end)
    requires r.Err? && !Faulted(staged, validated) ==>
               found != [] && RefusedFor(batch[|found| - 1], found[|found| - 1], r.error)
    ensures r.Err? && Undisputed(fs, batch, start, end) ==> Faulted(start, end)
  {
    if found != [] && Undisputed(fs, batch, start, end) {
      ReadSince(fs, batch, found, |found| - 1, start, staged, validated, end);
    }
  }

  lemma ReadSince(fs: FileSystem, batch: Batch, found: seq<Option<Bytes>>, i: nat, start: Moment, staged: Moment,
                  validated: Moment, end: Moment)
    requires i < |found| <= |batch| && TrueReads(fs, batch, found, staged, validated)
    requires fs.Keeps(start, staged) && fs.Later(staged, validated) && fs.Later(validated, end)
    requires fs.Undisturbed(batch[i].target, start.clock, end.clock)
    ensures found[i] == Lookup(start.files, batch[i].target)
  {
    assert fs.Undisturbed(batch[i].target, start.clock, staged.clock);
    assert fs.Undisturbed(batch[i].target, staged.clock, validated.clock);
  }

  /**
   * Stages and validates a whole batch before the first target changes. `done`
   * targets were changed, in order, by operations that follow one another from
   * `begun` on.
   */
  method CommitMutations(fs: FileSystem, batch: Batch, observations: map<string, Observation>)
    returns (r: Result<seq<FileChange>, ToolError>, observations': map<string, Observation>,
             ghost done: nat, ghost begun: nat)
    requires fs.Valid() && Distinct(batch)
    modifies fs
    ensures fs.Valid() && fs.Later(old(fs.Now()), fs.Now())
    ensures done <= |batch| && fs.commits == old(fs.commits) + Changes(batch, done)
    ensures Traced(fs, batch, done, begun, fs.looks, fs.Now()) && (r.Ok? ==> fs.clock == begun + |batch|)
    ensures done > 0 ==> Cleared(fs.polls, |old(fs.polls)| + |batch| + 2, |fs.looks|)
    ensures r == Err(CancelledTool) <==> Stopped(old(fs.Now()), fs.Now())
    ensures r.Err? && (r.error.CancelledTool? || r.error.StaleFile?) ==> done == 0 && fs.commits == old(fs.commits)
    ensures RestKept(fs, old(fs.Now()), batch, done, fs.Now())
    ensures done < |batch| ==> r.Err? && observations' == observations
    ensures IsText(batch) && 0 < done == |batch| ==> r.Ok?
    ensures r.Ok? ==> done == |batch| && RecordedUpTo(observations, observations', batch, |batch|)
    ensures r.Ok? ==> r.value == ChangeList(batch) && !Faulted(old(fs.Now()), fs.Now())
    ensures r.Err? && 0 < done < |batch| ==> r.error == IoFailure
    ensures r.Err? && done == |batch| && batch != [] ==> r.error.NonUtf8File?
    ensures IsText(batch) && Undisputed(fs, batch, old(fs.Now()), fs.Now()) && r.Err? ==>
              Stopped(old(fs.Now()), fs.Now()) || Faulted(old(fs.Now()), fs.Now())
  {
    observations', done, begun := observations, 0, 0;
    ghost var start := fs.Now();
    var ids := StageAndValidate(fs, batch);
    if ids.Err? {
      NothingInstalled(fs, batch, start, fs.Now());
      return Err(ids.error), observations, 0, 0;
    }
    begun := fs.clock;
    r, observations', done := InstallAndRecord(fs, start, batch, ids.value, observations);
  }

  lemma NothingInstalled(fs: FileSystem, batch: Batch, start: Moment, now: Moment)
    requires fs.Keeps(start, now)
    ensures RestKept(fs, start, batch, 0, now) && Changes(batch, 0) == []
    ensures forall looks :: Traced(fs, batch, 0, 0, looks, now)
  {
  }

  /** The commit phase. Nothing stops it but a failing operation. */
  method InstallAndRecord(fs: FileSystem, ghost start: Moment, batch: Batch, ids: seq<nat>,
                          observations: map<string, Observation>)
    returns (r: Result<seq<FileChange>, ToolError>, observations': map<string, Observation>, ghost done: nat)
    requires fs.Valid() && Distinct(batch) && AreStaged(fs.staged, batch, ids, 0)
    requires fs.Keeps(start, fs.Now()) && !Stopped(start, fs.Now()) && !Faulted(start, fs.Now())
    requires Validated(fs.looks, batch) && 0 < fs.clock && !fs.cancelled(fs.clock - 1)
    modifies fs`clock, fs`files, fs`staged, fs`commits, fs`faults
    ensures fs.Valid() && fs.Later(start, fs.Now()) && !Stopped(start, fs.Now())
    ensures done <= |batch| && fs.commits == old(fs.commits) + Changes(batch, done)
    ensures RestKept(fs, start, batch, done, fs.Now()) && Traced(fs, batch, done, old(fs.clock), fs.looks, fs.Now())
    ensures done < |batch| ==> r == Err(IoFailure) && observations' == observations
    ensures done == |batch| ==> fs.clock == old(fs.clock) + |batch| && !Faulted(start, fs.Now())
    ensures r.Ok? ==> done == |batch| && RecordedUpTo(observations, observations', batch, |batch|)
    ensures r.Ok? ==> r.value == ChangeList(batch)
    ensures r.Err? && done == |batch| ==> r.error.NonUtf8File? && !IsText(batch)
    ensures done < |batch| && Undisputed(fs, batch, start, fs.Now()) ==> Faulted(start, fs.Now())
  {
    ghost var middle := fs.Now();
    var installed;
    installed, done := InstallAll(fs, batch, ids);
    CommitFollows(fs, batch, done, start, middle, fs.Now());
    if !installed { return Err(IoFailure), observations, done; }
    r, observations' := RecordAll(batch, observations);
  }

  lemma CommitFollows(fs: FileSystem, batch: Batch, done: nat, start: Moment, middle: Moment, end: Moment)
    requires done <= |batch| && fs.Keeps(start, middle) && InstalledUpTo(fs, batch, done, middle, end)
    requires done < |batch| ==> Faulted(middle, end) || Occupied(fs, batch[done], middle, end)
    ensures fs.Later(start, end) && RestKept(fs, start, batch, done, end)
    ensures Stopped(start, end) == Stopped(start, middle)
    ensures done < |batch| && Undisputed(fs, batch, start, end) ==> Faulted(start, end)
  {
    forall p | p !in Targets(batch, done) && fs.Undisturbed(p, start.clock, end.clock)
      ensures Lookup(end.files, p) == Lookup(start.files, p)
    {
      assert fs.Undisturbed(p, start.clock, middle.clock) && fs.Undisturbed(p, middle.clock, end.clock);
    }
    if done < |batch| && Undisputed(fs, batch, start, end) {
      NotOccupied(fs, batch[done], start, middle, end);
    }
  }

  lemma NotOccupied(fs: FileSystem, m: Prepared, start: Moment, middle: Moment, end: Moment)
    requires fs.Keeps(start, middle) && fs.Later(middle, end) && StillCurrent(m, Lookup(start.files, m.target))
    requires fs.Undisturbed(m.target, start.clock, end.clock)
    ensures !Occupied(fs, m, middle, end)
  {
    assert fs.Undisturbed(m.target, start.clock, middle.clock);
    assert fs.Undisturbed(m.target, middle.clock, end.clock);
  }

  // ---- The workspace ----------------------------------------------------

  /** The file no longer is what was read; only a new read makes it current again. */
  predicate Stale(observations: map<string, Observation>, files: map<string, Bytes>, path: string) {
    path in observations && path in files && files[path] != observations[path].revision
  }

  /** The file is what was read. */
  predicate Current(observations: map<string, Observation>, files: map<string, Bytes>, path: string) {
    path in observations && Lookup(files, path) == Some(observations[path].revision)
  }

  predicate FullyRead(observations: map<string, Observation>, path: string) {
    path in observations && observations[path].IsComplete(|observations[path].revision|)
  }

  lemma BatchOfOne(m: Prepared)
    ensures Distinct([m]) && [m][0] == m && Changes([m], 1) == [(m.target, m.content)] && Changes([m], 0) == []
    ensures ChangeList([m]) == NewContent(m)
  {
    assert [m][..0] == [];
  }

  /** A path may be written if there is no file, or one that is as it was read in full. */
  predicate Writable(observations: map<string, Observation>, files: map<string, Bytes>, path: string) {
    path !in files || (Current(observations, files, path) && FullyRead(observations, path))
  }

  predicate PreparedWrite(observations: map<string, Observation>, path: string, content: Bytes, m: Prepared) {
    && m.target == path && m.content == content
    && if m.originalRevision.None? then m.original == []
       else && FullyRead(observations, path) && m.original == observations[path].revision
            && m.originalRevision == Some(m.original)
  }

  /** The range is added to what is known of this revision; any other revision is forgotten. */
  ghost predicate Adds(before: map<string, Observation>, after: map<string, Observation>, path: string,
                       content: Bytes, range: Range)
  {
    && path in after && after == before[path := after[path]] && after[path].revision == content
    && (content == [] ==> after[path].IsComplete(0))
    && (content != [] ==> forall i: nat ::
          CoveredBy(after[path].coverage, i) <==>
            || range.Has(i)
            || (path in before && before[path].revision == content && CoveredBy(before[path].coverage, i)))
  }

  datatype FileEdits = FileEdits(path: string, edits: seq<TextEdit>)

  class FileWorkspace {
    const fs: FileSystem
    var observations: map<string, Observation>

    ghost predicate Valid()
      reads this, fs
    {
      fs.Valid() && AllObservationsText(observations)
    }

    constructor (fs: FileSystem)
      requires fs.Valid()
      ensures Valid() && this.fs == fs && observations == map[]
    {
      this.fs, observations := fs, map[];
    }

    /** Resolves a path that must exist. */
    method ResolveExisting(path: string) returns (r: Result<(), ToolError>)
      modifies fs`clock, fs`files, fs`faults
      ensures fs.Keeps(old(fs.Now()), fs.Now())
      ensures r.Ok? ==> path in fs.files && !Faulted(old(fs.Now()), fs.Now())
      ensures r.Err? ==> r.error == if Faulted(old(fs.Now()), fs.Now()) then IoFailure else MissingFile(path)
      ensures r == Err(MissingFile(path)) ==> path !in fs.files
    {
      var exists' := fs.Exists(path);
      if exists'.Err? { return Err(IoFailure); }
      return if exists'.value then Ok(()) else Err(MissingFile(path));
    }

    /** Reads a whole existing file between two polls. */
    method ReadContent(path: string) returns (r: Result<Bytes, ToolError>)
      modifies fs`clock, fs`files, fs`looks, fs`polls, fs`stops, fs`faults
      ensures fs.Keeps(old(fs.Now()), fs.Now())
      ensures r.Ok? ==> Lookup(fs.files, path) == Some(r.value) && !Faulted(old(fs.Now()), fs.Now())
      ensures r.Ok? ==> |fs.polls| == |old(fs.polls)| + 2
      ensures r == Err(CancelledTool) <==> Stopped(old(fs.Now()), fs.Now())
      ensures r.Err? && r.error != CancelledTool ==>
                r.error in {MissingFile(path), IoFailure} && (path !in fs.files || Faulted(old(fs.Now()), fs.Now()))
    {
      ghost var start := fs.Now();
      var stop := fs.IsCancelled();
      if stop { return Err(CancelledTool); }
      ghost var polled := fs.Now();
      var resolved := ResolveExisting(path);
      ghost var found := fs.Now();
      fs.KeepsOn(start, polled, found);
      if resolved.Err? { return Err(resolved.error); }
      var read := fs.ReadFile(path);
      ghost var done := fs.Now();
      fs.KeepsOn(start, found, done);
      if read.Err? || read.value.None? { return Err(IoFailure); }
      stop := fs.IsCancelled();
      fs.KeepsOn(start, done, fs.Now());
      return if stop then Err(CancelledTool) else Ok(read.value.value);
    }

    /** The read was of the file as it is, and exactly the page of that cursor and those limits. */
    ghost predicate ReadOf(path: string, lines: Ranges, cursor: Cursor, limit: nat, maxBytes: nat, read: TextRead)
      reads fs
    {
      && path in fs.files && Utf8(fs.files[path]) && LineRanges(fs.files[path], 0, lines)
      && Selectable(fs.files[path], lines, cursor, limit, maxBytes)
      && Page(fs.files[path], lines, cursor, limit, maxBytes, read)
    }

    method ReadText(path: string, cursor: Cursor, limit: nat, maxBytes: nat)
      returns (r: Result<TextRead, ToolError>, ghost lines: Ranges)
      requires Valid()
      modifies this, fs`clock, fs`files, fs`looks, fs`polls, fs`stops, fs`faults
      ensures Valid() && fs.Keeps(old(fs.Now()), fs.Now())
      ensures r.Ok? ==> ReadOf(path, lines, cursor, limit, maxBytes, r.value) && !Faulted(old(fs.Now()), fs.Now())
      ensures r.Ok? ==> Adds(old(observations), observations, path, fs.files[path], r.value.byteRange)
      ensures r.Err? ==> observations == old(observations)
      ensures r == Err(CancelledTool) <==> Stopped(old(fs.Now()), fs.Now())
      ensures r.Ok? ==> |fs.polls| == |old(fs.polls)| + 2
      ensures r.Err? && r.error != CancelledTool && !Faulted(old(fs.Now()), fs.Now()) ==>
                path in fs.files && Utf8(fs.files[path]) ==>
                  LineRanges(fs.files[path], 0, lines) && !Selectable(fs.files[path], lines, cursor, limit, maxBytes)
    {
      lines := [];
      var read := ReadContent(path);
      if read.Err? { return Err(read.error), lines; }
      var content := read.value;
      if !Utf8(content) { return Err(NonUtf8File(path)), lines; }
      lines := TextLineRanges(content);
      var selection := SelectText(content, cursor, limit, maxBytes, lines);
      if selection.Err? { return Err(InvalidArguments), lines; }
      RecordRead(path, content, selection.value.byteRange);
      return Ok(selection.value), lines;
    }

    /** Adds a range to what is known of this revision, forgetting any other revision. */
    method RecordRead(path: string, content: Bytes, range: Range)
      requires AllObservationsText(observations) && Utf8(content)
      modifies this`observations
      ensures AllObservationsText(observations)
      ensures Adds(old(observations), observations, path, content, range)
    {
      var known := Observation(content, [], false);
      if path in observations && observations[path].revision == content {
        known := observations[path];
      }
      var observation := new FileObservation(known);
      observation.Observe(range, |content|);
      observations := observations[path := observation.Snapshot()];
    }

    /** The file was read before and has not changed since. */
    method RequireCurrentObservation(path: string) returns (r: Result<Observation, ToolError>)
      requires Valid()
      modifies fs`clock, fs`files, fs`looks, fs`faults
      ensures Valid() && fs.Keeps(old(fs.Now()), fs.Now())
      ensures r.Ok? ==> Current(observations, fs.files, path) && r.value == observations[path]
      ensures r.Ok? ==> !Faulted(old(fs.Now()), fs.Now())
      ensures r.Ok? ==> fs.looks == old(fs.looks) + [(path, Some(r.value.revision))]
      ensures r == Err(UnreadFile(path)) <==> path !in observations
      ensures r == Err(IoFailure) <==> path in observations && (Faulted(old(fs.Now()), fs.Now()) || path !in fs.files)
      ensures r == Err(StaleFile(path)) <==> Stale(observations, fs.files, path) && !Faulted(old(fs.Now()), fs.Now())
      ensures r.Err? ==> r.error in {UnreadFile(path), StaleFile(path), IoFailure}
    {
      if path !in observations { return Err(UnreadFile(path)); }
      var read := fs.ReadFile(path);
      if read.Err? { return Err(IoFailure); }
      if read.value.None? { return Err(IoFailure); }
      if read.value.value != observations[path].revision { return Err(StaleFile(path)); }
      return Ok(observations[path]);
    }

    /** A mutation of an existing file; its metadata must be readable. */
    method PrepareExisting(path: string, content: Bytes, original: Bytes) returns (r: Result<Prepared, ToolError>)
      modifies fs`clock, fs`files, fs`faults
      ensures fs.Keeps(old(fs.Now()), fs.Now())
      ensures r.Ok? ==> r.value == Prepared(path, content, original, Some(original)) && path in fs.files
      ensures r.Ok? ==> !Faulted(old(fs.Now()), fs.Now())
      ensures r.Err? ==> r.error == IoFailure && (path !in fs.files || Faulted(old(fs.Now()), fs.Now()))
    {
      var inspected := fs.Exists(path);
      if inspected.Err? || !inspected.value { return Err(IoFailure); }
      return Ok(Prepared(path, content, original, Some(original)));
    }

    /** Whether the content may be written: to a new file, or over one that was read in full and is unchanged. */
    method PrepareWrite(path: string, content: Bytes) returns (r: Result<Prepared, ToolError>)
      requires Valid()
      modifies fs`clock, fs`files, fs`looks, fs`faults
      ensures Valid() && fs.Keeps(old(fs.Now()), fs.Now())
      ensures r.Ok? ==> PreparedWrite(observations, path, content, r.value) && !Faulted(old(fs.Now()), fs.Now())
      ensures r.Ok? ==> (path in fs.files <==> r.value.originalRevision.Some?)
      ensures r.Ok? && r.value.originalRevision.Some? ==>
                old(fs.looks) < fs.looks && fs.looks[|fs.looks| - 1] == (path, r.value.originalRevision)
      ensures r.Err? ==> r.error in {IoFailure, UnreadFile(path), StaleFile(path), PartiallyReadFile(path)}
      ensures r == Err(PartiallyReadFile(path)) ==> path in observations && !FullyRead(observations, path)
      ensures fs.Undisturbed(path, old(fs.clock), fs.clock) && !Faulted(old(fs.Now()), fs.Now()) ==>
                (r.Ok? <==> Writable(observations, old(fs.files), path))
      ensures fs.Undisturbed(path, old(fs.clock), fs.clock) && r.Ok? ==>
                StillCurrent(r.value, Lookup(old(fs.files), path))
    {
      ghost var start := fs.Now();
      var exists' := fs.Exists(path);
      if exists'.Err? { return Err(IoFailure); }
      if !exists'.value { return Ok(Prepared(path, content, [], None)); }
      ghost var found := fs.Now();
      var current := RequireCurrentObservation(path);
      ghost var read := fs.Now();
      fs.KeepsOn(start, found, read);
      if current.Err? { return Err(current.error); }
      var original := current.value.revision;
      if !current.value.IsComplete(|original|) { return Err(PartiallyReadFile(path)); }
      r := PrepareExisting(path, content, original);
      fs.KeepsOn(start, read, fs.Now());
      assert fs.Undisturbed(path, start.clock, fs.clock) ==> fs.Undisturbed(path, start.clock, read.clock);
    }

    /** Creates a file, or replaces one that was read in full and is unchanged. */
    method WriteText(path: string, content: Bytes) returns (r: Result<seq<FileChange>, ToolError>, ghost m: Prepared)
      requires Valid() && Utf8(content)
      modifies this, fs
      ensures Valid() && fs.Later(old(fs.Now()), fs.Now())
      ensures r.Ok? ==> fs.commits == old(fs.commits) + [(path, content)] && PreparedWrite(old(observations), path, content, m)
      ensures r.Ok? ==> Validated(fs.looks, [m]) && r.value == NewContent(m) && |fs.polls| == |old(fs.polls)| + 4
      ensures r.Ok? ==> path in observations && WhollyObserved(observations[path], content)
      ensures r.Ok? ==> Lookup(fs.files, path) == Some(content)
      ensures r.Err? ==> fs.commits == old(fs.commits) && observations == old(observations)
      ensures r == Err(CancelledTool) <==> Stopped(old(fs.Now()), fs.Now())
      ensures fs.Undisturbed(path, old(fs.clock), fs.clock) && !Faulted(old(fs.Now()), fs.Now())
              && !Stopped(old(fs.Now()), fs.Now()) ==>
                (r.Ok? <==> Writable(old(observations), old(fs.files), path))
    {
      m := Prepared(path, content, [], None);
      ghost var start := fs.Now();
      var stop := fs.IsCancelled();
      if stop { return Err(CancelledTool), m; }
      ghost var polled := fs.Now();
      var prepared := PrepareWrite(path, content);
      ghost var ready := fs.Now();
      fs.KeepsOn(start, polled, ready);
      if prepared.Err? { return Err(prepared.error), m; }
      m := prepared.value;
      BatchOfOne(m);
      ghost var done, begun;
      r, done, begun := Commit([prepared.value]);
      UndisputedSince(fs, [m], start, ready, fs.Now());
    }

    /** Prepares one file of a batch: read before, unchanged, and every edit applicable. */
    method PrepareEdit(edit: FileEdits) returns (r: Result<Prepared, ToolError>)
      requires Valid() && AreText(edit.edits)
      modifies fs`clock, fs`files, fs`looks, fs`faults
      ensures Valid() && fs.Keeps(old(fs.Now()), fs.Now())
      ensures r.Ok? ==> PreparedEdit(observations, edit, r.value) && !Faulted(old(fs.Now()), fs.Now())
      ensures fs.Undisturbed(edit.path, old(fs.clock), fs.clock) && !Faulted(old(fs.Now()), fs.Now()) ==>
                (r.Ok? <==> Editable(observations, old(fs.files), edit))
      ensures fs.Undisturbed(edit.path, old(fs.clock), fs.clock) && r.Ok? ==>
                StillCurrent(r.value, Lookup(old(fs.files), edit.path))
      ensures r.Err? ==> r.error != CancelledTool
    {
      ghost var start := fs.Now();
      var current := RequireCurrentObservation(edit.path);
      if current.Err? { return Err(current.error); }
      ghost var read := fs.Now();
      var original := current.value.revision;
      var applied := ApplyEdits(original, edit.edits, current.value.coverage);
      if applied.Err? { return Err(InvalidEdit(edit.path, applied.error)); }
      EditedIsText(original, edit.edits, current.value.coverage, applied.value);
      r := PrepareExisting(edit.path, applied.value, original);
      fs.KeepsOn(start, read, fs.Now());
      assert fs.Undisturbed(edit.path, start.clock, fs.clock) ==> fs.Undisturbed(edit.path, start.clock, read.clock);
    }

    /** Edits several files against what was read of them, all prepared before any changes. */
    method EditText(edits: seq<FileEdits>)
      returns (r: Result<seq<FileChange>, ToolError>, ghost batch: Batch, ghost done: nat, ghost begun: nat)
      requires Valid() && forall i | 0 <= i < |edits| :: AreText(edits[i].edits)
      modifies this, fs
      ensures Valid() && fs.Later(old(fs.Now()), fs.Now())
      ensures done <= |batch| <= |edits| && fs.commits == old(fs.commits) + Changes(batch, done)
      ensures AllPrepared(old(observations), edits, batch, |batch|)
      ensures Traced(fs, batch, done, begun, fs.looks, fs.Now())
      ensures done > 0 ==> |fs.polls| == |old(fs.polls)| + |batch| + 3
      ensures r == Err(CancelledTool) <==> Stopped(old(fs.Now()), fs.Now())
      ensures r.Ok? ==> done == |batch| == |edits| && RecordedUpTo(old(observations), observations, batch, |batch|)
      ensures r.Ok? ==> r.value == ChangeList(batch) && DescribesEdits(r.value, batch)
      ensures r.Err? ==> observations == old(observations)
      ensures r.Err? && 0 < done ==> done < |batch| == |edits| && r.error == IoFailure
      ensures r.Err? && r.error != IoFailure ==> done == 0 && fs.commits == old(fs.commits)
      ensures r.Err? ==> AreStale(fs, observations, batch, done, begun)
      ensures Quiet(fs, edits, old(fs.Now()), fs.Now()) && !Stopped(old(fs.Now()), fs.Now()) ==>
                (r.Ok? <==> edits != [] && AllEditable(old(observations), old(fs.files), edits, |edits|))
    {
      batch, done, begun := [], 0, 0;
      ghost var start := fs.Now();
      var prepared := PrepareBatch(edits);
      if prepared.Err? {
        NothingInstalled(fs, batch, start, fs.Now());
        return Err(prepared.error), batch, 0, 0;
      }
      ghost var ready := fs.Now();
      batch := prepared.value;
      ghost var before := observations;
      PreparedIsText(before, edits, batch);
      r, done, begun := Commit(prepared.value);
      ChangedIsStale(fs, before, edits, batch, done, begun);
      PreparedExist(before, edits, batch);
      ListDescribes(batch);
      UndisputedEdits(fs, before, edits, batch, start, ready, fs.Now());
    }

    /** Everything before the commit of an edit: a poll, and the batch. */
    method PrepareBatch(edits: seq<FileEdits>) returns (r: Result<Batch, ToolError>)
      requires Valid() && forall i | 0 <= i < |edits| :: AreText(edits[i].edits)
      modifies fs`clock, fs`files, fs`looks, fs`polls, fs`stops, fs`faults
      ensures Valid() && fs.Keeps(old(fs.Now()), fs.Now())
      ensures r.Ok? ==> edits != [] && |r.value| == |edits| && Distinct(r.value) && !Faulted(old(fs.Now()), fs.Now())
      ensures r.Ok? ==> |fs.polls| == |old(fs.polls)| + 1
      ensures r.Ok? ==> AllPrepared(observations, edits, r.value, |edits|)
      ensures r == Err(CancelledTool) <==> Stopped(old(fs.Now()), fs.Now())
      ensures r.Err? && r.error != CancelledTool && Quiet(fs, edits, old(fs.Now()), fs.Now()) ==>
                edits == [] || !AllEditable(observations, old(fs.files), edits, |edits|)
      ensures r.Ok? ==> Judged(fs, observations, edits, old(fs.Now()), fs.Now(), |edits|)
    {
      ghost var start := fs.Now();
      var stop := fs.IsCancelled();
      if stop { return Err(CancelledTool); }
      if edits == [] { return Err(InvalidArguments); }
      ghost var polled := fs.Now();
      r := PrepareAll(edits);
      fs.KeepsOn(start, polled, fs.Now());
      QuietAfter(fs, edits, start, polled, fs.Now());
    }

    /** Commits a batch and takes up what it makes known. */
    method Commit(batch: Batch) returns (r: Result<seq<FileChange>, ToolError>, ghost done: nat, ghost begun: nat)
      requires Valid() && batch != [] && Distinct(batch) && IsText(batch)
      modifies this, fs
      ensures Valid() && fs.Later(old(fs.Now()), fs.Now())
      ensures done <= |batch| && fs.commits == old(fs.commits) + Changes(batch, done)
      ensures Traced(fs, batch, done, begun, fs.looks, fs.Now()) && (r.Ok? ==> fs.clock == begun + |batch|)
      ensures done > 0 ==> |fs.polls| == |old(fs.polls)| + |batch| + 2
      ensures r == Err(CancelledTool) <==> Stopped(old(fs.Now()), fs.Now())
      ensures r.Ok? ==> done == |batch| && RecordedUpTo(old(observations), observations, batch, |batch|)
      ensures r.Ok? ==> r.value == ChangeList(batch) && !Faulted(old(fs.Now()), fs.Now())
      ensures r.Err? ==> observations == old(observations)
      ensures r.Err? && 0 < done ==> done < |batch| && r.error == IoFailure
      ensures r.Err? && r.error != IoFailure ==> done == 0 && fs.commits == old(fs.commits)
      ensures Undisputed(fs, batch, old(fs.Now()), fs.Now()) && r.Err? ==>
                Stopped(old(fs.Now()), fs.Now()) || Faulted(old(fs.Now()), fs.Now())
    {
      ghost var before := observations;
      var observed;
      r, observed, done, begun := CommitMutations(fs, batch, observations);
      ObservationsStayText(before, observed, batch, r.Ok?);
      observations := observed;
      assert Changes(batch, 0) == [];
    }

    method PrepareAll(edits: seq<FileEdits>) returns (r: Result<Batch, ToolError>)
      requires Valid() && forall i | 0 <= i < |edits| :: AreText(edits[i].edits)
      modifies fs`clock, fs`files, fs`looks, fs`faults
      ensures Valid() && fs.Keeps(old(fs.Now()), fs.Now())
      ensures r.Ok? ==> |r.value| == |edits| && Distinct(r.value) && !Faulted(old(fs.Now()), fs.Now())
      ensures r.Ok? ==> AllPrepared(observations, edits, r.value, |edits|)
      ensures Quiet(fs, edits, old(fs.Now()), fs.Now()) ==>
                (r.Ok? <==> AllEditable(observations, old(fs.files), edits, |edits|))
      ensures r.Err? ==> r.error != CancelledTool
    {
      ghost var start := fs.Now();
      var prepared: Batch := [];
      var targets: set<string> := {};
      var i := 0;
      while i < |edits|
        invariant 0 <= i <= |edits| && |prepared| == i && Valid() && targets == Paths(edits, i)
        invariant AllPrepared(observations, edits, prepared, i) && Distinct(prepared)
        invariant fs.Keeps(start, fs.Now()) && !Faulted(start, fs.Now())
        invariant Judged(fs, observations, edits, start, fs.Now(), i)
      {
        ghost var before := fs.Now();
        var one := PrepareNext(edits, i, targets, start);
        JudgeNext(fs, observations, edits, start, before, fs.Now(), i, one.Ok?);
        if one.Err? { return Err(one.error); }
        PreparedSnoc(observations, edits, prepared, one.value);
        prepared := prepared + [one.value];
        targets := targets + {edits[i].path};
        i := i + 1;
      }
      return Ok(prepared);
    }

    /** Resolves and prepares one file, unless it was named before. */
    method PrepareNext(edits: seq<FileEdits>, i: nat, targets: set<string>, ghost start: Moment)
      returns (r: Result<Prepared, ToolError>)
      requires Valid() && i < |edits| && AreText(edits[i].edits) && fs.Keeps(start, fs.Now()) && !Faulted(start, fs.Now())
      modifies fs`clock, fs`files, fs`looks, fs`faults
      ensures Valid() && fs.Keeps(start, fs.Now()) && fs.Later(old(fs.Now()), fs.Now())
      ensures r.Ok? ==> PreparedEdit(observations, edits[i], r.value) && edits[i].path !in targets
      ensures r.Ok? ==> !Faulted(start, fs.Now())
      ensures fs.Undisturbed(edits[i].path, start.clock, fs.clock) && !Faulted(start, fs.Now()) ==>
                (r.Ok? <==> Editable(observations, start.files, edits[i]) && edits[i].path !in targets)
      ensures r.Err? ==> r.error != CancelledTool
    {
      var path := edits[i].path;
      ghost var before := fs.Now();
      var resolved := ResolveExisting(path);
      ghost var found := fs.Now();
      fs.KeepsOn(start, before, found);
      if resolved.Err? { return Err(resolved.error); }
      if path in targets { return Err(DuplicateFile(path)); }
      r := PrepareEdit(edits[i]);
      fs.KeepsOn(start, found, fs.Now());
      assert fs.Undisturbed(path, start.clock, fs.clock) ==>
          fs.Undisturbed(path, start.clock, found.clock) && fs.Undisturbed(path, found.clock, fs.clock);
    }

    // ---- Reading a whole file, and rewriting it ----

    /**
     * Follows next cursors from the first line, with any positive limits for
     * each page, until there is none. On a file that nobody else touches this
     * ends, the pages are the file, and all of it counts as read; it fails only
     * if an operation fails, cancellation is requested, or the file is missing
     * or not text.
     */
    method ReadToEnd(path: string, pace: nat -> (nat, nat)) returns (r: Result<seq<Bytes>, ToolError>)
      requires Valid() && Positive(pace) && LeftAlone(fs, path, fs.clock)
      modifies this, fs`clock, fs`files, fs`looks, fs`polls, fs`stops, fs`faults
      ensures Valid() && fs.Keeps(old(fs.Now()), fs.Now())
      ensures r.Ok? ==> Lookup(fs.files, path) == Some(Concat(r.value))
      ensures r.Ok? ==> Current(observations, fs.files, path) && FullyRead(observations, path)
      ensures r.Ok? <==> && path in old(fs.files) && Utf8(old(fs.files)[path])
                         && !Faulted(old(fs.Now()), fs.Now()) && !Stopped(old(fs.Now()), fs.Now())
      ensures r == Err(CancelledTool) <==> Stopped(old(fs.Now()), fs.Now())
    {
      ghost var start := fs.Now();
      ghost var content := if path in fs.files then fs.files[path] else [];
      ghost var lines: Ranges := [];
      ghost var position := 0;
      var cursor := Cursor(1, 0);
      var pieces: seq<Bytes> := [];
      while true
        invariant Valid() && fs.Keeps(start, fs.Now()) && !Faulted(start, fs.Now()) && !Stopped(start, fs.Now())
        invariant pieces == [] ==> cursor == Cursor(1, 0) && position == 0
        invariant pieces != [] ==> ReadUpTo(observations, path, content, lines, cursor, position)
        invariant position <= |content| && Concat(pieces) == content[..position]
        decreases |content| - position
      {
        var (limit, maxBytes) := pace(|pieces|);
        var page;
        page, lines := ReadNext(path, cursor, limit, maxBytes, start, content, lines, position, pieces == []);
        if page.Err? { return Err(page.error); }
        var read := page.value;
        JoinPiece(content, pieces, position, read.byteRange.end);
        pieces := pieces + [read.content];
        position := read.byteRange.end;
        if read.next.None? {
          assert content[..position] == content;
          return Ok(pieces);
        }
        cursor := read.next.value;
      }
    }

    /** Reads one more page of a file that nobody else touches. */
    method ReadNext(path: string, cursor: Cursor, limit: nat, maxBytes: nat, ghost start: Moment, ghost content: Bytes,
                    ghost lines: Ranges, ghost position: nat, ghost first: bool)
      returns (r: Result<TextRead, ToolError>, ghost found: Ranges)
      requires Valid() && limit > 0 && maxBytes > 0 && LeftAlone(fs, path, start.clock)
      requires fs.Keeps(start, fs.Now()) && !Faulted(start, fs.Now()) && !Stopped(start, fs.Now())
      requires path in start.files ==> content == start.files[path]
      requires first ==> cursor == Cursor(1, 0) && position == 0
      requires !first ==> ReadUpTo(observations, path, content, lines, cursor, position)
      modifies this, fs`clock, fs`files, fs`looks, fs`polls, fs`stops, fs`faults
      ensures Valid() && fs.Keeps(start, fs.Now())
      ensures r.Ok? <==> && path in start.files && Utf8(content)
                         && !Faulted(start, fs.Now()) && !Stopped(start, fs.Now())
      ensures r == Err(CancelledTool) <==> Stopped(start, fs.Now())
      ensures r.Ok? ==> Lookup(fs.files, path) == Some(content)
      ensures r.Ok? ==> Continues(observations, path, content, found, r.value, position)
    {
      ghost var seen, before := observations, fs.Now();
      r, found := ReadText(path, cursor, limit, maxBytes);
      ghost var now := fs.Now();
      fs.KeepsOn(start, before, now);
      assert fs.Undisturbed(path, start.clock, now.clock);
      if path in fs.files && Utf8(content) && LineRanges(content, 0, found) {
        StartsReadUpTo(seen, path, content, lines, found, cursor, position, first);
      }
      if r.Ok? {
        PageFollows(seen, observations, path, content, found, cursor, limit, maxBytes, r.value, position);
      }
    }

    /** Having read all of a file that nobody else touches, it may be rewritten. */
    method ReadThenRewrite(path: string, pace: nat -> (nat, nat), content: Bytes) returns (r: Result<(), ToolError>)
      requires Valid() && Positive(pace) && LeftAlone(fs, path, fs.clock) && Utf8(content)
      modifies this, fs
      ensures Valid()
      ensures r.Ok? ==> Lookup(fs.files, path) == Some(content) && fs.commits == old(fs.commits) + [(path, content)]
      ensures r.Err? ==> fs.commits == old(fs.commits)
      ensures !Faulted(old(fs.Now()), fs.Now()) && !Stopped(old(fs.Now()), fs.Now()) ==>
                (r.Ok? <==> path in old(fs.files) && Utf8(old(fs.files)[path]))
      ensures r == Err(CancelledTool) <==> Stopped(old(fs.Now()), fs.Now())
    {
      ghost var start := fs.Now();
      var pages := ReadToEnd(path, pace);
      ghost var read := fs.Now();
      if pages.Err? { return Err(pages.error); }
      var written;
      ghost var m;
      written, m := WriteText(path, content);
      assert fs.Undisturbed(path, read.clock, fs.clock);
      return if written.Ok? then Ok(()) else Err(written.error);
    }
  }

  /** From this operation on no other process touches the path. */
  ghost predicate LeftAlone(fs: FileSystem, path: string, from: nat) {
    forall n | n >= from :: path !in fs.outside(n)
  }

  /** The cursor stands at `position`, and everything before it has been observed. */
  ghost predicate ReadUpTo(observations: map<string, Observation>, path: string, content: Bytes, lines: Ranges,
                           cursor: Cursor, position: nat)
  {
    && Utf8(content) && LineRanges(content, 0, lines) && Tiles(content, 0, lines)
    && position <= |content| && Boundary(content, position)
    && Normal(lines, cursor) && Position(lines, cursor) == position
    && (position > 0 ==> path in observations && observations[path].revision == content)
    && forall i | 0 <= i < position :: CoveredBy(observations[path].coverage, i)
  }

  /** Whichever page comes next, its cursor can be read. */
  lemma StartsReadUpTo(observations: map<string, Observation>, path: string, content: Bytes, lines: Ranges,
                       found: Ranges, cursor: Cursor, position: nat, first: bool)
    requires Utf8(content) && LineRanges(content, 0, found)
    requires first ==> cursor == Cursor(1, 0) && position == 0
    requires !first ==> ReadUpTo(observations, path, content, lines, cursor, position)
    ensures ReadUpTo(observations, path, content, found, cursor, position)
    ensures Readable(content, found, cursor)
  {
    LinesTile(content, 0, found);
    if !first {
      LinesUnique(content, 0, lines, found);
    }
  }

  /** The page is what comes at `position`; it leads on to the next one, or the whole file has been read. */
  ghost predicate Continues(observations: map<string, Observation>, path: string, content: Bytes, lines: Ranges,
                            read: TextRead, position: nat)
  {
    var end := read.byteRange.end;
    && position <= end <= |content| && read.content == content[position..end]
    && (read.next.Some? ==> position < end && ReadUpTo(observations, path, content, lines, read.next.value, end))
    && (read.next.None? ==> end == |content| && FullyRead(observations, path) && observations[path].revision == content)
  }

  lemma PageFollows(before: map<string, Observation>, after: map<string, Observation>, path: string, content: Bytes,
                    lines: Ranges, cursor: Cursor, limit: nat, maxBytes: nat, read: TextRead, position: nat)
    requires ReadUpTo(before, path, content, lines, cursor, position) && limit > 0 && cursor.line > 0
    requires Page(content, lines, cursor, limit, maxBytes, read)
    requires Adds(before, after, path, content, read.byteRange) && AllObservationsText(after)
    ensures Continues(after, path, content, lines, read, position)
  {
    PageAdvances(content, lines, cursor, limit);
    var end := read.byteRange.end;
    if content != [] {
      assert forall i | 0 <= i < end :: CoveredBy(after[path].coverage, i);
      ContainsIffCovered(after[path].coverage, Range(0, |content|));
    }
  }

  ghost predicate AllObservationsText(observations: map<string, Observation>) {
    forall p | p in observations :: Canonical(observations[p].coverage) && Utf8(observations[p].revision)
  }

  lemma ObservationsStayText(before: map<string, Observation>, after: map<string, Observation>, batch: Batch, ok: bool)
    requires AllObservationsText(before) && IsText(batch)
    requires ok ==> RecordedUpTo(before, after, batch, |batch|)
    ensures ok ==> AllObservationsText(after)
  {
    if ok {
      forall p | p in after
        ensures Canonical(after[p].coverage) && Utf8(after[p].revision)
      {
        TargetOf(batch, |batch|, p);
        if p in Targets(batch, |batch|) {
          var i :| 0 <= i < |batch| && batch[i].target == p;
          assert WhollyObserved(after[batch[i].target], batch[i].content);
        } else {
          assert SameAt(before, after, p);
        }
      }
    }
  }

  predicate AreText(edits: seq<TextEdit>) {
    forall i | 0 <= i < |edits| :: Utf8(edits[i].oldText) && Utf8(edits[i].newText)
  }

  /** The prepared content is what the edits make of the observed revision. */
  ghost predicate PreparedEdit(observations: map<string, Observation>, edit: FileEdits, m: Prepared) {
    && edit.path in observations && m.target == edit.path
    && m.original == observations[edit.path].revision && m.originalRevision == Some(m.original)
    && Applies(m.original, edit.edits, observations[edit.path].coverage, m.content)
    && Utf8(m.original) && Utf8(m.content)
  }

  /** The file is as it was read, and every edit applies to what was read of it. */
  ghost predicate Editable(observations: map<string, Observation>, files: map<string, Bytes>, edit: FileEdits) {
    && Current(observations, files, edit.path)
    && Applicable(observations[edit.path].revision, edit.edits, observations[edit.path].coverage)
  }

  function Paths(edits: seq<FileEdits>, n: nat): set<string>
    requires n <= |edits|
  {
    set i | 0 <= i < n :: edits[i].path
  }

  /** The first `n` files can be edited, and none is named twice. */
  ghost predicate AllEditable(observations: map<string, Observation>, files: map<string, Bytes>, edits: seq<FileEdits>, n: nat)
    requires n <= |edits|
  {
    forall i | 0 <= i < n :: Editable(observations, files, edits[i]) && edits[i].path !in Paths(edits, i)
  }

  /** No operation failed and nobody else touched one of the files. */
  ghost predicate Quiet(fs: FileSystem, edits: seq<FileEdits>, a: Moment, b: Moment) {
    !Faulted(a, b) && forall i | 0 <= i < |edits| :: fs.Undisturbed(edits[i].path, a.clock, b.clock)
  }

  lemma QuietBefore(fs: FileSystem, edits: seq<FileEdits>, a: Moment, b: Moment, c: Moment)
    requires fs.Later(a, b) && fs.Later(b, c)
    ensures Quiet(fs, edits, a, c) ==> Quiet(fs, edits, a, b)
  {
    if Quiet(fs, edits, a, c) {
      forall i | 0 <= i < |edits|
        ensures fs.Undisturbed(edits[i].path, a.clock, b.clock)
      {
        assert fs.Undisturbed(edits[i].path, a.clock, c.clock);
      }
    }
  }

  lemma QuietAfter(fs: FileSystem, edits: seq<FileEdits>, a: Moment, b: Moment, c: Moment)
    requires fs.Later(a, b) && fs.Later(b, c)
    ensures Quiet(fs, edits, a, c) ==> Quiet(fs, edits, b, c)
  {
    if Quiet(fs, edits, a, c) {
      forall i | 0 <= i < |edits|
        ensures fs.Undisturbed(edits[i].path, b.clock, c.clock)
      {
        assert fs.Undisturbed(edits[i].path, a.clock, c.clock);
      }
    }
  }

  /** Unless something came between, the first `n` files can be edited. */
  ghost predicate Judged(fs: FileSystem, observations: map<string, Observation>, edits: seq<FileEdits>,
                         start: Moment, now: Moment, n: nat)
    requires n <= |edits|
  {
    Quiet(fs, edits, start, now) ==> AllEditable(observations, start.files, edits, n)
  }

  lemma JudgeNext(fs: FileSystem, observations: map<string, Observation>, edits: seq<FileEdits>,
                  start: Moment, before: Moment, now: Moment, i: nat, ok: bool)
    requires i < |edits| && Judged(fs, observations, edits, start, before, i)
    requires fs.Later(start, before) && fs.Later(before, now)
    requires fs.Undisturbed(edits[i].path, start.clock, now.clock) && !Faulted(start, now) ==>
               (ok <==> Editable(observations, start.files, edits[i]) && edits[i].path !in Paths(edits, i))
    ensures ok ==> Judged(fs, observations, edits, start, now, i + 1)
    ensures !ok && Quiet(fs, edits, start, now) ==> !AllEditable(observations, start.files, edits, |edits|)
  {
    QuietBefore(fs, edits, start, before, now);
  }

  lemma UndisputedSince(fs: FileSystem, batch: Batch, start: Moment, ready: Moment, end: Moment)
    requires fs.Keeps(start, ready) && fs.Later(ready, end)
    ensures Undisputed(fs, batch, start, end) ==> Undisputed(fs, batch, ready, end)
  {
    if Undisputed(fs, batch, start, end) {
      forall i | 0 <= i < |batch|
        ensures StillCurrent(batch[i], Lookup(ready.files, batch[i].target))
        ensures fs.Undisturbed(batch[i].target, ready.clock, end.clock)
      {
        assert fs.Undisturbed(batch[i].target, start.clock, end.clock);
        assert fs.Undisturbed(batch[i].target, start.clock, ready.clock);
      }
    }
  }

  /** Edits of files that can all be edited make a batch that nobody disputes. */
  lemma UndisputedEdits(fs: FileSystem, observations: map<string, Observation>, edits: seq<FileEdits>, batch: Batch,
                        start: Moment, ready: Moment, end: Moment)
    requires |batch| == |edits| && AllPrepared(observations, edits, batch, |batch|)
    requires fs.Keeps(start, ready) && fs.Later(ready, end)
    ensures Quiet(fs, edits, start, end) ==> Quiet(fs, edits, start, ready)
    ensures Quiet(fs, edits, start, end) && AllEditable(observations, start.files, edits, |edits|) ==>
              Undisputed(fs, batch, ready, end)
  {
    QuietBefore(fs, edits, start, ready, end);
    if Quiet(fs, edits, start, end) && AllEditable(observations, start.files, edits, |edits|) {
      forall i | 0 <= i < |batch|
        ensures StillCurrent(batch[i], Lookup(start.files, batch[i].target))
        ensures fs.Undisturbed(batch[i].target, start.clock, end.clock)
      {
        assert PreparedEdit(observations, edits[i], batch[i]);
        assert Editable(observations, start.files, edits[i]);
      }
      UndisputedSince(fs, batch, start, ready, end);
    }
  }

  ghost predicate AllPrepared(observations: map<string, Observation>, edits: seq<FileEdits>, batch: Batch, n: nat) {
    n <= |edits| && n <= |batch| && forall i | 0 <= i < n :: PreparedEdit(observations, edits[i], batch[i])
  }

  lemma PreparedSnoc(observations: map<string, Observation>, edits: seq<FileEdits>, batch: Batch, m: Prepared)
    requires |batch| < |edits| && AllPrepared(observations, edits, batch, |batch|)
    requires PreparedEdit(observations, edits[|batch|], m) && Distinct(batch)
    requires edits[|batch|].path !in Paths(edits, |batch|)
    ensures AllPrepared(observations, edits, batch + [m], |batch| + 1) && Distinct(batch + [m])
    ensures Paths(edits, |batch| + 1) == Paths(edits, |batch|) + {edits[|batch|].path}
  {
    forall i | 0 <= i < |batch|
      ensures batch[i].target != m.target
    {
      assert PreparedEdit(observations, edits[i], batch[i]);
    }
    forall i | 0 <= i < |batch| + 1
      ensures PreparedEdit(observations, edits[i], (batch + [m])[i])
    {
    }
  }

  lemma PreparedExist(observations: map<string, Observation>, edits: seq<FileEdits>, batch: Batch)
    requires AllPrepared(observations, edits, batch, |batch|)
    ensures forall i | 0 <= i < |batch| :: batch[i].originalRevision.Some?
  {
    forall i | 0 <= i < |batch|
      ensures batch[i].originalRevision.Some?
    {
      assert PreparedEdit(observations, edits[i], batch[i]);
    }
  }

  lemma PreparedIsText(observations: map<string, Observation>, edits: seq<FileEdits>, batch: Batch)
    requires AllPrepared(observations, edits, batch, |batch|)
    ensures IsText(batch)
  {
    forall i | 0 <= i < |batch|
      ensures Utf8(batch[i].original) && Utf8(batch[i].content)
    {
      assert PreparedEdit(observations, edits[i], batch[i]);
    }
  }

  /** A changed target is no longer what was read of it, unless someone else wrote to it since. */
  ghost predicate AreStale(fs: FileSystem, observations: map<string, Observation>, batch: Batch, done: nat, begun: nat)
    requires done <= |batch|
    reads fs
  {
    forall i | 0 <= i < done && fs.Undisturbed(batch[i].target, begun + i + 1, fs.clock) ::
      Stale(observations, fs.files, batch[i].target) <==> batch[i].content != batch[i].original
  }

  lemma ChangedIsStale(fs: FileSystem, observations: map<string, Observation>, edits: seq<FileEdits>,
                       batch: Batch, done: nat, begun: nat)
    requires done <= |batch| && AllPrepared(observations, edits, batch, |batch|)
    requires Traced(fs, batch, done, begun, fs.looks, fs.Now())
    ensures AreStale(fs, observations, batch, done, begun)
  {
    forall i | 0 <= i < done && fs.Undisturbed(batch[i].target, begun + i + 1, fs.clock)
      ensures Stale(observations, fs.files, batch[i].target) <==> batch[i].content != batch[i].original
    {
      assert PreparedEdit(observations, edits[i], batch[i]);
    }
  }

  /** Replacing text by text at text boundaries yields text. */
  lemma EditedIsText(content: Bytes, edits: seq<TextEdit>, coverage: Ranges, result: Bytes)
    requires Utf8(content) && AreText(edits) && Applies(content, edits, coverage, result)
    ensures Utf8(result)
  {
    var ms := Sort(Located(content, edits, coverage), MatchStart);
    forall m | m in ms
      ensures TextMatch(content, m)
    {
      LocatedIsText(content, edits, coverage, m);
    }
    SpliceIsText(content, ms, 0);
  }

  predicate TextMatch(content: Bytes, m: Match) {
    Utf8(m.newText) && Boundary(content, m.start) && Boundary(content, m.end)
  }

  lemma LocatedIsText(content: Bytes, edits: seq<TextEdit>, coverage: Ranges, m: Match)
    requires Utf8(content) && AreText(edits) && AllLocated(content, edits, coverage)
    requires m in Sort(Located(content, edits, coverage), MatchStart)
    ensures TextMatch(content, m)
  {
    var located := Located(content, edits, coverage);
    SortKeepsMembers(located, MatchStart, m);
    var i :| 0 <= i < |edits| && located[i] == m;
    LocateMeans(content, edits[i], coverage);
    MatchIsText(content, edits[i], m);
  }

  lemma MatchIsText(content: Bytes, edit: TextEdit, m: Match)
    requires Utf8(content) && Utf8(edit.oldText) && Utf8(edit.newText)
    requires m.start < m.end <= |content| && content[m.start..m.end] == edit.oldText && m.newText == edit.newText
    ensures TextMatch(content, m)
  {
    TextMatchBoundaries(content, edit.oldText, m.start);
  }

  lemma {:induction false} SpliceIsText(content: Bytes, ms: seq<Match>, cursor: nat)
    requires Utf8(content) && Within(content, ms, cursor) && Boundary(content, cursor)
    requires forall m | m in ms :: TextMatch(content, m)
    ensures Utf8(Splice(content, ms, cursor))
    decreases |ms|
  {
    if ms == [] {
      Utf8FromBoundary(content, cursor);
    } else {
      var m := ms[0];
      assert m in ms && forall q | q in ms[1..] :: q in ms;
      Utf8Slice(content, cursor, m.start);
      SpliceIsText(content, ms[1..], m.end);
      Utf8Concat(content[cursor..m.start], m.newText);
      Utf8Concat(content[cursor..m.start] + m.newText, Splice(content, ms[1..], m.end));
    }
  }
}
