/**
 Commits: the event is appended, then the snapshot is written, then memory is updated, and any
 failure closes the supervisor (internal/supervisor/commit.go:61-123,
 internal/supervisor/state_commit.go:75-99, 145-189, 298-315, internal/event/event.go:53-81,
 internal/supervisor/runtime.go:552-575, 2355-2391).
 */
module Commit {
  import opened Text
  import opened Attempts
  import opened Reducer

  // ----- one commit -----

  datatype Input = Input(taskId: string, time: int, payload: Payload)

  /** Where a commit stops: before the event, at a file of the snapshot behind so many others, or not at all. */
  datatype Fate = AppendFails | PersistFails(written: nat) | Succeeds

  /** The files of a snapshot besides state.json, which is written first. */
  datatype File = RunFile | TaskFile(id: string) | WaveFile(id: string) | StatusFile | SummaryFile

  datatype Content = OfRun(run: RunInfo) | OfTask(task: Core) | OfWave(wave: Wave) | Rendered(snapshot: Snapshot)

  datatype Write = Write(file: File, content: Content)

  /** They follow in this order. */
  function Projection(value: Snapshot): seq<Write> {
    [Write(RunFile, OfRun(value.run))]
    + seq(|value.tasks|, i requires 0 <= i < |value.tasks| => Write(TaskFile(value.tasks[i].task.id), OfTask(value.tasks[i].task)))
    + seq(|value.waves|, i requires 0 <= i < |value.waves| => Write(WaveFile(value.waves[i].id), OfWave(value.waves[i])))
    + [Write(StatusFile, Rendered(value)), Write(SummaryFile, Rendered(value))]
  }

  function Written(files: map<File, Content>, writes: seq<Write>): map<File, Content> {
    if writes == [] then files
    else
      var last := writes[|writes| - 1];
      Written(files, writes[..|writes| - 1])[last.file := last.content]
  }

  /** How many of those files are written. */
  function Reached(value: Snapshot, fate: Fate): nat {
    var all := |Projection(value)|;
    match fate
    case AppendFails => 0
    case PersistFails(written) => if written == 0 then 0 else if written <= all then written - 1 else all - 1
    case Succeeds => all
  }

  /** The last write to a file is the one that is left. */
  lemma {:induction false} LastWriteHolds(files: map<File, Content>, writes: seq<Write>, i: nat)
    requires i < |writes| && forall k :: i < k < |writes| ==> writes[k].file != writes[i].file
    ensures writes[i].file in Written(files, writes) && Written(files, writes)[writes[i].file] == writes[i].content
  {
    var n := |writes| - 1;
    if i < n {
      LastWriteHolds(files, writes[..n], i);
    }
  }

  predicate Holds(files: map<File, Content>, file: File, content: Content) {
    file in files && files[file] == content
  }

  /** The k-th write. */
  lemma ProjectionAt(v: Snapshot, k: nat)
    requires k < |v.tasks| + |v.waves| + 3
    ensures |Projection(v)| == |v.tasks| + |v.waves| + 3
    ensures var t, w := |v.tasks|, |v.waves|;
      Projection(v)[k] ==
        if k == 0 then Write(RunFile, OfRun(v.run))
        else if k <= t then Write(TaskFile(v.tasks[k - 1].task.id), OfTask(v.tasks[k - 1].task))
        else if k <= t + w then Write(WaveFile(v.waves[k - 1 - t].id), OfWave(v.waves[k - 1 - t]))
        else Write(if k == t + w + 1 then StatusFile else SummaryFile, Rendered(v))
  {
  }

  lemma {:induction false} ProjectedHolds(files: map<File, Content>, v: Snapshot, i: nat)
    requires i < |Projection(v)| && forall k :: i < k < |Projection(v)| ==> Projection(v)[k].file != Projection(v)[i].file
    ensures Holds(Written(files, Projection(v)), Projection(v)[i].file, Projection(v)[i].content)
  {
    LastWriteHolds(files, Projection(v), i);
  }

  /** After a whole projection the run, status and summary files are the snapshot's. */
  lemma {:induction false} RunFilesHold(files: map<File, Content>, v: Snapshot)
    ensures var after := Written(files, Projection(v));
      Holds(after, RunFile, OfRun(v.run)) && Holds(after, StatusFile, Rendered(v)) && Holds(after, SummaryFile, Rendered(v))
  {
    forall k | 0 <= k < |Projection(v)|
      ensures k > 0 ==> Projection(v)[k].file != RunFile
      ensures k > |v.tasks| + |v.waves| + 1 ==> Projection(v)[k].file != StatusFile
    {
      ProjectionAt(v, k);
    }
    ProjectionAt(v, 0);
    ProjectionAt(v, |v.tasks| + |v.waves| + 1);
    ProjectionAt(v, |v.tasks| + |v.waves| + 2);
    ProjectedHolds(files, v, 0);
    ProjectedHolds(files, v, |v.tasks| + |v.waves| + 1);
    ProjectedHolds(files, v, |v.tasks| + |v.waves| + 2);
  }

  /** And so is the file of every task, by the last task of its id, ... */
  lemma {:induction false} TaskFilesHold(files: map<File, Content>, v: Snapshot, i: nat)
    requires i < |v.tasks| && forall k :: i < k < |v.tasks| ==> v.tasks[k].task.id != v.tasks[i].task.id
    ensures Holds(Written(files, Projection(v)), TaskFile(v.tasks[i].task.id), OfTask(v.tasks[i].task))
  {
    forall k | 0 <= k < |Projection(v)|
      ensures k > i + 1 ==> Projection(v)[k].file != TaskFile(v.tasks[i].task.id)
    {
      ProjectionAt(v, k);
    }
    ProjectionAt(v, i + 1);
    ProjectedHolds(files, v, i + 1);
  }

  /** ... and of every wave. */
  lemma {:induction false} WaveFilesHold(files: map<File, Content>, v: Snapshot, i: nat)
    requires i < |v.waves| && forall k :: i < k < |v.waves| ==> v.waves[k].id != v.waves[i].id
    ensures Holds(Written(files, Projection(v)), WaveFile(v.waves[i].id), OfWave(v.waves[i]))
  {
    forall k | 0 <= k < |Projection(v)|
      ensures k > |v.tasks| + i + 1 ==> Projection(v)[k].file != WaveFile(v.waves[i].id)
    {
      ProjectionAt(v, k);
    }
    ProjectionAt(v, |v.tasks| + i + 1);
    ProjectedHolds(files, v, |v.tasks| + i + 1);
  }

  datatype Store = Store(runId: string, log: seq<Event>, disk: Snapshot, memory: Snapshot, accepting: bool)

  function Numbered(st: Store, input: Input): Event {
    Event(|st.log| + 1, st.runId, input.taskId, input.time, input.payload)
  }

  /** What a commit with a validated candidate leaves behind. */
  function Committed(st: Store, input: Input, candidate: Snapshot, fate: Fate): Store {
    var ev := Numbered(st, input);
    var c := candidate.(applied := ev.seq_, updatedAt := input.time);
    match fate
    case AppendFails => st.(accepting := false)
    case PersistFails(written) =>
      st.(log := st.log + [ev], disk := if written > 0 then c else st.disk, accepting := false)
    case Succeeds => st.(log := st.log + [ev], disk := c, memory := c)
  }

  class Service {
    const runId: string
    var log: seq<Event>
    var nextSeq: nat
    var disk: Snapshot
    var files: map<File, Content>
    var snapshot: Snapshot
    var acceptingWork: bool

    ghost predicate Valid()
      reads this
    {
      nextSeq == |log| + 1
    }

    ghost function View(): Store
      reads this
    {
      Store(runId, log, disk, snapshot, acceptingWork)
    }

    /** A new run, or a loaded one: numbering goes on behind the last event. */
    constructor (runId: string, log: seq<Event>, disk: Snapshot, snapshot: Snapshot)
      ensures Valid() && View() == Store(runId, log, disk, snapshot, true)
    {
      this.runId, this.log, this.disk, this.snapshot, files := runId, log, disk, snapshot, map[];
      nextSeq, acceptingWork := |log| + 1, true;
    }

    /** event.Store.Append: a failed write leaves no complete record and does not use up a number. */
    method AppendEvent(input: Input, works: bool) returns (r: Option<Event>)
      requires Valid()
      modifies this`log, this`nextSeq
      ensures Valid()
      ensures r == if works then Some(Numbered(old(View()), input)) else None
      ensures log == if works then old(log) + [r.value] else old(log)
    {
      if !works {
        return None;
      }
      var ev := Event(nextSeq, runId, input.taskId, input.time, input.payload);
      log := log + [ev];
      nextSeq := nextSeq + 1;
      r := Some(ev);
    }

    /** state.json first, then the other files in order, up to the one that fails. */
    method PersistSnapshot(value: Snapshot, fate: Fate) returns (ok: bool)
      modifies this`disk, this`files
      ensures ok <==> fate == Succeeds
      ensures disk == if ok || (fate.PersistFails? && fate.written > 0) then value else old(disk)
      ensures files == Written(old(files), Projection(value)[..Reached(value, fate)])
    {
      var writes := Projection(value);
      if fate == AppendFails || fate == PersistFails(0) {
        return false;
      }
      disk := value;
      for i := 0 to Reached(value, fate)
        invariant disk == value && files == Written(old(files), writes[..i])
      {
        assert writes[..i + 1][..i] == writes[..i];
        files := files[writes[i].file := writes[i].content];
      }
      ok := fate == Succeeds;
    }

    /** Commit, with the candidate the mutation and validation produced, if they did. */
    method Commit(input: Input, candidate: Option<Snapshot>, fate: Fate) returns (ok: bool)
      requires Valid()
      modifies this
      ensures Valid()
      ensures ok <==> old(acceptingWork) && candidate.Some? && fate == Succeeds
      ensures View() == if old(acceptingWork) && candidate.Some? then Committed(old(View()), input, candidate.value, fate)
                        else old(View())
      ensures ok ==> files == Written(old(files), Projection(snapshot))
    {
      if !acceptingWork || candidate.None? {
        return false;
      }
      var appended := AppendEvent(input, fate != AppendFails);
      if appended.None? {
        acceptingWork := false;
        return false;
      }
      var next := candidate.value.(applied := appended.value.seq_, updatedAt := input.time);
      ok := PersistSnapshot(next, fate);
      assert Projection(next)[..|Projection(next)|] == Projection(next);
      if !ok {
        acceptingWork := false;
        return;
      }
      snapshot := next;
    }
  }

  // ----- commits, telemetry and crashes interleaved -----

  /** The events of commits are told apart from telemetry by a flag each. */
  datatype State = State(runId: string, log: seq<Event>, commits: seq<bool>, nextSeq: nat, disk: Snapshot, memory: Snapshot,
                         accepting: bool, pending: Option<Snapshot>, up: bool)

  datatype Step =
    | Begin(input: Input, candidate: Snapshot, appends: bool)
    | End(fate: Fate)
    | Telemetry(event: Input, works: bool)
    | Save
    | Crash
    | Recover(written: bool)

  function Logged(s: State, input: Input, commit: bool): State {
    s.(log := s.log + [Event(s.nextSeq, s.runId, input.taskId, input.time, input.payload)], commits := s.commits + [commit],
       nextSeq := s.nextSeq + 1)
  }

  function DoEnd(s: State, fate: Fate): State
    requires s.pending.Some?
  {
    var c, t := s.pending.value, s.(pending := None);
    match fate
    case Succeeds => t.(disk := c, memory := c)
    case PersistFails(written) => t.(disk := if written > 0 then c else s.disk, accepting := false)
    case AppendFails => t.(accepting := false)
  }

  /** loadMutable: "ahead of the log" is refused, then the log is reduced onto the checkpoint. */
  function DoRecover(s: State, written: bool): State {
    if s.disk.applied > |s.log| || !written then s
    else
      match Replay(s.disk, s.log)
      case None => s
      case Some(r) => s.(disk := r, memory := r, accepting := true, up := true, nextSeq := |s.log| + 1)
  }

  function Next(s: State, step: Step): State {
    match step
    case Begin(input, candidate, appends) =>
      if !s.up || !s.accepting || s.pending.Some? then s
      else if appends then Logged(s, input, true).(pending := Some(candidate.(applied := s.nextSeq, updatedAt := input.time)))
      else s.(accepting := false)
    case End(fate) => if s.up && s.pending.Some? then DoEnd(s, fate) else s
    case Telemetry(input, works) => if !s.up then s else if works then Logged(s, input, false) else s.(accepting := false)
    case Save => if s.up && s.accepting && s.pending.None? then s.(disk := s.memory) else s
    case Crash => s.(up := false, pending := None)
    case Recover(written) => if s.up then s else DoRecover(s, written)
  }

  function Run(s: State, steps: seq<Step>): State {
    if steps == [] then s else Next(Run(s, steps[..|steps| - 1]), steps[|steps| - 1])
  }

  /** Mutations keep the run id of the snapshot they start from. */
  predicate Lawful(s: State, step: Step) {
    step.Begin? ==> step.candidate.run.runId == s.runId
  }

  predicate LawfulRun(s: State, steps: seq<Step>) {
    steps == [] || (LawfulRun(s, steps[..|steps| - 1]) && Lawful(Run(s, steps[..|steps| - 1]), steps[|steps| - 1]))
  }

  /** Commit events past a checkpoint. */
  function CommitsPast(commits: seq<bool>, checkpoint: nat): nat {
    if commits == [] || |commits| <= checkpoint then 0
    else CommitsPast(commits[..|commits| - 1], checkpoint) + if commits[|commits| - 1] then 1 else 0
  }

  predicate LogFits(s: State) {
    && s.runId != [] && |s.commits| == |s.log|
    && (forall i :: 0 <= i < |s.log| ==> s.log[i].seq_ == i + 1 && s.log[i].runId == s.runId)
    && (s.up ==> s.nextSeq == |s.log| + 1)
  }

  predicate CheckpointsFit(s: State) {
    && s.disk.applied <= |s.log| && s.disk.run.runId == s.runId
    && (s.up ==> s.memory.applied <= s.disk.applied && s.memory.run.runId == s.runId)
    && (s.up && s.accepting && s.pending.None? ==> s.memory == s.disk)
    && (s.pending.Some? ==> s.up && s.disk.applied < s.pending.value.applied <= |s.log| && s.pending.value.run.runId == s.runId)
  }

  predicate CommitsFit(s: State) {
    && CommitsPast(s.commits, s.disk.applied) <= 1
    && (s.up && s.accepting && s.pending.None? ==> CommitsPast(s.commits, s.disk.applied) == 0)
    && (s.pending.Some? ==> CommitsPast(s.commits, s.pending.value.applied) == 0)
  }

  predicate Inv(s: State) {
    LogFits(s) && CheckpointsFit(s) && CommitsFit(s)
  }

  lemma {:induction false} CommitsGrow(commits: seq<bool>, c: bool, checkpoint: nat)
    requires checkpoint <= |commits|
    ensures CommitsPast(commits + [c], checkpoint) == CommitsPast(commits, checkpoint) + if c then 1 else 0
  {
    assert (commits + [c])[..|commits|] == commits;
  }

  lemma {:induction false} CommitsNone(commits: seq<bool>)
    ensures CommitsPast(commits, |commits|) == 0
  {
  }

  lemma BeginKeepsInv(s: State, input: Input, candidate: Snapshot, appends: bool)
    requires Inv(s) && Lawful(s, Begin(input, candidate, appends))
    ensures Inv(Next(s, Begin(input, candidate, appends)))
  {
    CommitsGrow(s.commits, true, s.disk.applied);
    CommitsNone(s.commits + [true]);
  }

  lemma TelemetryKeepsInv(s: State, input: Input, works: bool)
    requires Inv(s)
    ensures Inv(Next(s, Telemetry(input, works)))
  {
    CommitsGrow(s.commits, false, s.disk.applied);
    if s.pending.Some? {
      CommitsGrow(s.commits, false, s.pending.value.applied);
    }
  }

  lemma EndKeepsInv(s: State, fate: Fate)
    requires Inv(s)
    ensures Inv(Next(s, Step.End(fate)))
  {
  }

  lemma LogIsReplayable(s: State)
    requires LogFits(s)
    ensures Contiguous(s.log) && SingleRun(s.log, s.runId)
  {
  }

  lemma RecoverKeepsInv(s: State, written: bool)
    requires Inv(s) && !s.up
    ensures Inv(Next(s, Recover(written)))
  {
    LogIsReplayable(s);
    if Replay(s.disk, s.log).Some? {
      ReplayStands(s.disk, s.log, s.runId);
      CommitsNone(s.commits);
    }
  }

  lemma NextKeepsInv(s: State, step: Step)
    requires Inv(s) && Lawful(s, step)
    ensures Inv(Next(s, step))
  {
    match step {
      case Begin(input, candidate, appends) => BeginKeepsInv(s, input, candidate, appends);
      case End(fate) => EndKeepsInv(s, fate);
      case Telemetry(input, works) => TelemetryKeepsInv(s, input, works);
      case Save =>
      case Crash =>
      case Recover(written) =>
        if !s.up {
          RecoverKeepsInv(s, written);
        }
    }
  }

  function Init(runId: string, snapshot: Snapshot): State {
    State(runId, [], [], 1, snapshot, snapshot, true, None, true)
  }

  lemma {:induction false} RunKeepsInv(s: State, steps: seq<Step>)
    requires Inv(s) && LawfulRun(s, steps)
    ensures Inv(Run(s, steps))
  {
    if steps != [] {
      RunKeepsInv(s, steps[..|steps| - 1]);
      NextKeepsInv(Run(s, steps[..|steps| - 1]), steps[|steps| - 1]);
    }
  }

  /**
   At every crash point of every interleaving: the log's numbers are contiguous, the memory
   checkpoint is not past the disk's, the disk's is not past the log, and at most one commit event
   lies past the disk checkpoint.
   */
  lemma {:induction false} CheckpointsNeverAhead(runId: string, snapshot: Snapshot, steps: seq<Step>)
    requires runId != [] && snapshot.run.runId == runId && snapshot.applied == 0
    requires LawfulRun(Init(runId, snapshot), steps)
    ensures var s := Run(Init(runId, snapshot), steps);
      && (forall i :: 0 <= i < |s.log| ==> s.log[i].seq_ == i + 1)
      && (s.up ==> s.memory.applied <= s.disk.applied)
      && s.disk.applied <= |s.log|
      && CommitsPast(s.commits, s.disk.applied) <= 1
  {
    RunKeepsInv(Init(runId, snapshot), steps);
  }

  /** A failed append, of a commit or of telemetry, and a failed snapshot close the supervisor; nothing is committed until it recovers. */
  lemma FailureCloses(s: State, step: Step)
    requires s.up && s.accepting
    requires (step.Begin? && s.pending.None? && !step.appends) || (step.End? && s.pending.Some? && step.fate != Succeeds)
             || (step.Telemetry? && !step.works)
    ensures var t := Next(s, step);
      && !t.accepting && t.up && t.log == s.log && t.memory == s.memory
      && forall later: Step :: later.Begin? ==> Next(t, later) == t
  {
  }

  /** Telemetry that is written adds its event and leaves every snapshot as it is. */
  lemma TelemetryOnlyLogs(s: State, input: Input)
    requires s.up
    ensures var t := Next(s, Telemetry(input, true));
      && t.log == s.log + [Event(s.nextSeq, s.runId, input.taskId, input.time, input.payload)] && t.commits == s.commits + [false]
      && t == s.(log := t.log, commits := t.commits, nextSeq := s.nextSeq + 1)
  {
  }

  /** After a crash at any point, recovery brings the replayed snapshot into memory and onto disk, unless an event does not reduce. */
  lemma {:induction false} RecoveryRestarts(runId: string, snapshot: Snapshot, steps: seq<Step>)
    requires runId != [] && snapshot.run.runId == runId && snapshot.applied == 0
    requires LawfulRun(Init(runId, snapshot), steps)
    ensures var s := Run(Init(runId, snapshot), steps);
      var t := Next(Next(s, Crash), Recover(true));
      match Replay(s.disk, s.log)
      case None => !t.up && t.log == s.log && t.disk == s.disk
      case Some(r) => t.up && t.accepting && t.pending.None? && t.log == s.log && t.memory == t.disk == r && t.nextSeq == |s.log| + 1
  {
    RunKeepsInv(Init(runId, snapshot), steps);
  }

  /** The event at i cannot be reduced onto what the events before it gave. */
  predicate Unreducible(s: Snapshot, log: seq<Event>, i: nat)
    requires i < |log|
  {
    Replay(s, log[..i]).Some? && Effect(Named(Replay(s, log[..i]).value, log[i]), log[i]).None?
  }

  /** From such a checkpoint the head of every event fits, so a failed replay is the fault of a payload. */
  lemma {:induction false} ReplayFailsOnlyByPayload(s: Snapshot, log: seq<Event>, runId: string) returns (i: nat)
    requires SingleRun(log, runId) && s.run.runId == runId && s.applied <= |log|
    requires forall k :: 0 <= k < |log| ==> log[k].seq_ == k + 1
    requires Replay(s, log).None?
    ensures i < |log| && Unreducible(s, log, i)
  {
    var n := |log| - 1;
    if Replay(s, log[..n]).None? {
      if s.applied == |log| {
        ReplaySkips(s, log);
      }
      i := ReplayFailsOnlyByPayload(s, log[..n], runId);
      assert log[..n][..i] == log[..i];
    } else {
      i := n;
      LastHeadFits(s, log, runId);
    }
  }

  lemma {:induction false} LastHeadFits(s: Snapshot, log: seq<Event>, runId: string)
    requires SingleRun(log, runId) && s.run.runId == runId && s.applied <= |log| && log != []
    requires forall k :: 0 <= k < |log| ==> log[k].seq_ == k + 1
    requires Replay(s, log[..|log| - 1]).Some? && Replay(s, log).None?
    ensures HeadFits(Replay(s, log[..|log| - 1]).value, log[|log| - 1])
  {
    var n := |log| - 1;
    ReplayStands(s, log[..n], runId);
    assert n > 0 ==> log[..n][n - 1].seq_ == n;
  }

  lemma InvMeansNoGap(s: State) returns (i: nat)
    requires Inv(s)
    ensures Replay(s.disk, s.log).None? ==> i < |s.log| && Unreducible(s.disk, s.log, i)
  {
    i := 0;
    LogIsReplayable(s);
    if Replay(s.disk, s.log).None? {
      i := ReplayFailsOnlyByPayload(s.disk, s.log, s.runId);
    }
  }

  /** Recovery never meets "ahead of event log" or a gap: it fails only on an event that does not reduce. */
  lemma RecoveryNeverSeesGap(runId: string, snapshot: Snapshot, steps: seq<Step>) returns (i: nat)
    requires runId != [] && snapshot.run.runId == runId && snapshot.applied == 0
    requires LawfulRun(Init(runId, snapshot), steps)
    ensures var s := Run(Init(runId, snapshot), steps);
      && s.disk.applied <= |s.log|
      && (Replay(s.disk, s.log).None? ==> i < |s.log| && Unreducible(s.disk, s.log, i))
  {
    RunKeepsInv(Init(runId, snapshot), steps);
    i := InvMeansNoGap(Run(Init(runId, snapshot), steps));
  }

  // ----- a crash between the event and the snapshot -----

  /** The mutation of setRunStatus; none when there is nothing to commit. */
  method RunStatusMutation(s: Snapshot, status: RunStatus, reason: string, now: int) returns (c: Snapshot)
    ensures c == RunMoved(s, status, reason, now).(updatedAt := now)
    ensures c.tasks == s.tasks && c.run.status == status && (s.run.startedAt.Some? ==> c.run.startedAt == s.run.startedAt)
  {
    c := s.(run := s.run.(status := status));
    if reason != [] {
      c := c.(lastError := reason);
    }
    if c.run.startedAt.None? && status != RunPlanned {
      c := c.(run := c.run.(startedAt := Some(now)));
    }
    if status == RunCompleted || status == RunFailed || status == RunCancelled || status == RunDegraded {
      c := c.(run := c.run.(endedAt := Some(now)));
    }
    c := c.(updatedAt := now);
  }

  /** The mutation of transitionTask, refused for an unknown task or a transition that is not allowed. */
  function TaskMutation(s: Snapshot, id: string, to: TaskStatus): Option<Snapshot> {
    var i := TaskIndex(s.tasks, id);
    if i == |s.tasks| || !ValidTaskTransition(s.tasks[i].task.status, to) then None
    else
      var t := s.tasks[i];
      var w := if t.worker.None? then None else Some(t.worker.value.(dims := t.worker.value.dims.(task := to)));
      Some(WithTask(s, i, t.(task := t.task.(status := to), dims := t.dims.(task := to), worker := w)))
  }

  /** The mutation of finishAttempt. */
  function FinishMutation(s: Snapshot, id: string, outcome: Outcome, reason: string, now: int): Option<Snapshot> {
    var i := TaskIndex(s.tasks, id);
    if i == |s.tasks| then None else Some(WithTask(s, i, FinishActive(s.tasks[i], outcome, reason, now)))
  }

  predicate AllInert(log: seq<Event>) {
    forall i :: 0 <= i < |log| ==> log[i].payload == Inert
  }

  /** The log goes on right behind the checkpoint. */
  predicate Behind(s: Snapshot, log: seq<Event>) {
    Contiguous(log) && (s.applied > 0 && log != [] ==> log[0].seq_ == s.applied + 1)
  }

  function AdvancedTo(s: Snapshot, log: seq<Event>): Snapshot {
    if log == [] then s else s.(applied := log[|log| - 1].seq_, updatedAt := log[|log| - 1].time)
  }

  lemma {:induction false} InertReplay(s: Snapshot, log: seq<Event>)
    requires Behind(s, log) && SingleRun(log, s.run.runId) && AllInert(log)
    ensures Replay(s, log) == Some(AdvancedTo(s, log))
  {
    if log != [] {
      var n := |log| - 1;
      InertReplay(s, log[..n]);
      assert n > 0 ==> log[..n][n - 1].seq_ + 1 == log[n].seq_;
    }
  }

  /** The checkpoint's own number and time play no part in what an event does. */
  predicate Timeless(s: Snapshot, pre: seq<Event>, ev: Event) {
    Effect(AdvancedTo(s, pre), ev) ==
    match Effect(s, ev)
    case None => None
    case Some(t) => Some(t.(applied := AdvancedTo(s, pre).applied, updatedAt := AdvancedTo(s, pre).updatedAt))
  }

  /** From index k - 1 on the events are numbered from the base up, and from k on they are inert. */
  predicate InertTail(log: seq<Event>, k: nat, runId: string, base: int) {
    && 0 < k <= |log| && log[k - 1].seq_ == base + k - 1
    && forall i :: k <= i < |log| ==> log[i].payload == Inert && log[i].runId == runId && log[i].seq_ == base + i
  }

  lemma TailOfFront(log: seq<Event>, k: nat, runId: string, base: int)
    requires InertTail(log, k, runId, base) && k < |log|
    ensures var front := log[..|log| - 1];
      InertTail(front, k, runId, base) && front[..k] == log[..k] && front[|front| - 1] == log[|log| - 2]
  {
  }

  function Moved(t: Snapshot, ev: Event): Snapshot {
    t.(applied := ev.seq_, updatedAt := ev.time)
  }

  /** Inert events behind a replayed log only move the checkpoint on. */
  lemma {:induction false} InertBehind(s: Snapshot, log: seq<Event>, k: nat, t: Snapshot, base: int)
    requires s.run.runId != [] && t.run.runId == s.run.runId
    requires InertTail(log, k, s.run.runId, base) && base + k - 1 > s.applied
    requires Replay(s, log[..k]) == Some(Moved(t, log[k - 1]))
    ensures Replay(s, log) == Some(Moved(t, log[|log| - 1]))
    decreases |log|
  {
    if k == |log| {
      assert log[..k] == log;
    } else {
      TailOfFront(log, k, s.run.runId, base);
      InertBehind(s, log[..|log| - 1], k, t, base);
      InertStep(s, log, t);
    }
  }

  /** One inert event behind a log that replays to t. */
  lemma {:induction false} InertStep(s: Snapshot, log: seq<Event>, t: Snapshot)
    requires |log| >= 2 && s.run.runId != [] && t.run.runId == s.run.runId
    requires var last := log[|log| - 1];
      && last.payload == Inert && last.runId == s.run.runId
      && last.seq_ == log[|log| - 2].seq_ + 1 && log[|log| - 2].seq_ > s.applied
    requires Replay(s, log[..|log| - 1]) == Some(Moved(t, log[|log| - 2]))
    ensures Replay(s, log) == Some(Moved(t, log[|log| - 1]))
  {
    InertTurn(s, t, log[|log| - 2], log[|log| - 1]);
  }

  lemma InertTurn(s: Snapshot, t: Snapshot, before: Event, ev: Event)
    requires s.run.runId != [] && t.run.runId == s.run.runId == ev.runId && ev.payload == Inert
    requires ev.seq_ == before.seq_ + 1 && before.seq_ > s.applied
    ensures Turn(s, Moved(t, before), Some(before), ev) == Some(Moved(t, ev))
  {
  }

  lemma {:induction false} AroundOne(s: Snapshot, pre: seq<Event>, ev: Event, post: seq<Event>)
    requires Behind(s, pre + [ev] + post) && SingleRun(pre + [ev] + post, s.run.runId)
    requires AllInert(pre) && AllInert(post) && !IsTelemetry(ev.payload) && Timeless(s, pre, ev)
    ensures Replay(s, pre + [ev] + post) ==
            match Effect(s, ev)
            case None => None
            case Some(t) => Some(AdvancedTo(t, [ev] + post))
  {
    var log := pre + [ev];
    BehindPrefix(s, log, post);
    BehindPrefix(s, pre, [ev]);
    InertReplay(s, pre);
    OneReplay(s, pre, ev);
    EffectKeepsRunId(s, ev);
    var all := log + post;
    assert all[..|log|] == log;
    match Effect(s, ev) {
      case None => FailedPrefix(s, all, |log|);
      case Some(t) => InertBehind(s, all, |log|, t, all[0].seq_);
    }
  }

  lemma BehindPrefix(s: Snapshot, a: seq<Event>, b: seq<Event>)
    requires Behind(s, a + b) && SingleRun(a + b, s.run.runId)
    ensures Behind(s, a) && SingleRun(a, s.run.runId)
  {
    assert forall i :: 0 <= i < |a| ==> (a + b)[i] == a[i];
  }

  lemma {:induction false} OneReplay(s: Snapshot, pre: seq<Event>, ev: Event)
    requires Behind(s, pre + [ev]) && SingleRun(pre + [ev], s.run.runId) && Timeless(s, pre, ev)
    requires IsTelemetry(ev.payload) ==> Effect(s, ev).Some?
    requires Replay(s, pre) == Some(AdvancedTo(s, pre))
    ensures Replay(s, pre + [ev]) ==
            match Effect(s, ev)
            case None => None
            case Some(t) => Some(t.(applied := ev.seq_, updatedAt := ev.time))
  {
    var log := pre + [ev];
    assert log[..|pre|] == pre && log[|pre|] == ev;
    assert pre != [] ==> log[|pre| - 1].seq_ + 1 == ev.seq_;
  }

  lemma RunChangeTimeless(s: Snapshot, pre: seq<Event>, ev: Event)
    requires ev.payload.RunChange?
    ensures Timeless(s, pre, ev)
  {
  }

  lemma TaskChangeTimeless(s: Snapshot, pre: seq<Event>, ev: Event)
    requires ev.payload.TaskChange?
    ensures Timeless(s, pre, ev)
  {
  }

  lemma FinishedTimeless(s: Snapshot, pre: seq<Event>, ev: Event)
    requires ev.payload.AttemptFinished?
    ensures Timeless(s, pre, ev)
  {
  }

  /**
   setRunStatus cut off after its event: recovery installs what the commit would have, with the
   event's time, exactly when the recorded old status is the checkpoint's, or the checkpoint has none.
   */
  lemma {:induction false} RunStatusSurvivesCrash(s: Snapshot, pre: seq<Event>, ev: Event, post: seq<Event>, from: RunStatus, to: RunStatus,
                               reason: string)
    requires Behind(s, pre + [ev] + post) && SingleRun(pre + [ev] + post, s.run.runId) && AllInert(pre) && AllInert(post)
    requires ev.payload == RunChange(from, to, reason) && to != NoStatus
    ensures var r := Replay(s, pre + [ev] + post);
      && (r.Some? <==> s.run.status == NoStatus || s.run.status == from)
      && (r.Some? ==> r.value == AdvancedTo(RunMoved(s, to, reason, ev.time), [ev] + post))
  {
    RunChangeTimeless(s, pre, ev);
    AroundOne(s, pre, ev, post);
  }

  /** transitionTask cut off after its event; the recorded old status is never empty. */
  lemma {:induction false} TaskTransitionSurvivesCrash(s: Snapshot, pre: seq<Event>, ev: Event, post: seq<Event>, from: TaskStatus, to: TaskStatus)
    requires Behind(s, pre + [ev] + post) && SingleRun(pre + [ev] + post, s.run.runId) && AllInert(pre) && AllInert(post)
    requires ev.payload.TaskChange? && ev.payload.taskFrom == from != NoTaskStatus && ev.payload.taskTo == to != NoTaskStatus
    requires ev.taskId != [] && TaskMutation(s, ev.taskId, to).Some?
    ensures var r := Replay(s, pre + [ev] + post);
      && (r.Some? <==> s.tasks[TaskIndex(s.tasks, ev.taskId)].task.status == from)
      && (r.Some? ==> r.value == AdvancedTo(TaskMutation(s, ev.taskId, to).value, [ev] + post))
  {
    TaskChangeTimeless(s, pre, ev);
    AroundOne(s, pre, ev, post);
  }

  /** finishAttempt cut off after its event. */
  lemma {:induction false} FinishSurvivesCrash(s: Snapshot, pre: seq<Event>, ev: Event, post: seq<Event>, outcome: Outcome, reason: string)
    requires Behind(s, pre + [ev] + post) && SingleRun(pre + [ev] + post, s.run.runId) && AllInert(pre) && AllInert(post)
    requires ev.payload == AttemptFinished(Some(outcome), reason)
    requires ev.taskId != [] && FinishMutation(s, ev.taskId, outcome, reason, ev.time).Some?
    ensures Replay(s, pre + [ev] + post) ==
            Some(AdvancedTo(FinishMutation(s, ev.taskId, outcome, reason, ev.time).value, [ev] + post))
  {
    FinishedTimeless(s, pre, ev);
    AroundOne(s, pre, ev, post);
  }

  // ----- a commit cut off between event and snapshot, from the whole log -----

  lemma {:induction false} ReplaySnoc(s: Snapshot, log: seq<Event>, ev: Event)
    ensures Replay(s, log + [ev]) ==
            match Replay(s, log)
            case None => None
            case Some(current) => Turn(s, current, Previous(log), ev)
  {
    assert (log + [ev])[..|log|] == log;
  }

  /** Behind a checkpoint the next event is applied whatever was skipped before. */
  lemma {:induction false} SameTurn(s: Snapshot, a: seq<Event>, b: seq<Event>, ev: Event)
    requires s.applied > 0 && Replay(s, a) == Replay(s, b)
    ensures Replay(s, a + [ev]) == Replay(s, b + [ev])
  {
    ReplaySnoc(s, a, ev);
    ReplaySnoc(s, b, ev);
  }

  /** Events up to the checkpoint are skipped, so only those behind it matter. */
  lemma {:induction false} ReplayFromCheckpoint(s: Snapshot, skipped: seq<Event>, rest: seq<Event>)
    requires s.applied > 0 && forall i :: 0 <= i < |skipped| ==> skipped[i].seq_ <= s.applied
    ensures Replay(s, skipped + rest) == Replay(s, rest)
    decreases |rest|
  {
    if rest == [] {
      assert skipped + rest == skipped;
      ReplaySkips(s, skipped);
    } else {
      var m := |rest| - 1;
      ReplayFromCheckpoint(s, skipped, rest[..m]);
      SameTurn(s, skipped + rest[..m], rest[..m], rest[m]);
      assert skipped + rest[..m] + [rest[m]] == skipped + rest;
      assert rest[..m] + [rest[m]] == rest;
    }
  }

  /** Between commits: disk and memory agree, and only inert telemetry lies behind their checkpoint. */
  ghost predicate Settled(st: Store) {
    && st.accepting && st.disk == st.memory && st.runId != [] && st.memory.run.runId == st.runId
    && st.memory.applied <= |st.log|
    && (forall i :: 0 <= i < |st.log| ==> st.log[i].seq_ == i + 1 && st.log[i].runId == st.runId)
    && AllInert(st.log[st.memory.applied..])
  }

  function StoreOf(s: State): Store {
    Store(s.runId, s.log, s.disk, s.memory, s.accepting)
  }

  /** A commit of the service is the machine's two steps with nothing in between. */
  lemma CommitIsItsSteps(s: State, input: Input, candidate: Snapshot, fate: Fate)
    requires s.up && s.accepting && s.pending.None? && s.nextSeq == |s.log| + 1
    ensures fate == AppendFails ==>
              StoreOf(Next(s, Begin(input, candidate, false))) == Committed(StoreOf(s), input, candidate, fate)
    ensures fate != AppendFails ==>
              StoreOf(Next(Next(s, Begin(input, candidate, true)), Step.End(fate))) == Committed(StoreOf(s), input, candidate, fate)
  {
  }

  /** Telemetry carries events the reducer ignores. */
  predicate CarriesInert(step: Step) {
    step.Telemetry? ==> step.event.payload == Inert
  }

  predicate InertRun(steps: seq<Step>) {
    forall i :: 0 <= i < |steps| ==> CarriesInert(steps[i])
  }

  /** Every event that is not a commit's is inert. */
  predicate OthersInert(s: State) {
    |s.commits| == |s.log| && forall i :: 0 <= i < |s.log| && !s.commits[i] ==> s.log[i].payload == Inert
  }

  lemma NextKeepsOthersInert(s: State, step: Step)
    requires OthersInert(s) && CarriesInert(step)
    ensures OthersInert(Next(s, step))
  {
  }

  lemma {:induction false} RunKeepsOthersInert(s: State, steps: seq<Step>)
    requires OthersInert(s) && InertRun(steps)
    ensures OthersInert(Run(s, steps))
  {
    if steps != [] {
      RunKeepsOthersInert(s, steps[..|steps| - 1]);
      NextKeepsOthersInert(Run(s, steps[..|steps| - 1]), steps[|steps| - 1]);
    }
  }

  lemma {:induction false} NoCommitsPast(commits: seq<bool>, k: nat)
    requires CommitsPast(commits, k) == 0
    ensures forall i :: k <= i < |commits| ==> !commits[i]
  {
    if |commits| > k {
      NoCommitsPast(commits[..|commits| - 1], k);
    }
  }

  /** In every run with inert telemetry, between commits the service is settled, so an interrupted commit is completed. */
  lemma {:induction false} RunsAreSettled(runId: string, snapshot: Snapshot, steps: seq<Step>)
    requires runId != [] && snapshot.run.runId == runId && snapshot.applied == 0
    requires LawfulRun(Init(runId, snapshot), steps) && InertRun(steps)
    ensures var s := Run(Init(runId, snapshot), steps);
      s.up && s.accepting && s.pending.None? ==> Settled(StoreOf(s))
  {
    var s := Run(Init(runId, snapshot), steps);
    RunKeepsInv(Init(runId, snapshot), steps);
    RunKeepsOthersInert(Init(runId, snapshot), steps);
    if s.up && s.accepting && s.pending.None? {
      SettledBetweenCommits(s);
    }
  }

  lemma SettledBetweenCommits(s: State)
    requires Inv(s) && OthersInert(s) && s.up && s.accepting && s.pending.None?
    ensures Settled(StoreOf(s))
  {
    NoCommitsPast(s.commits, s.disk.applied);
    var k := s.memory.applied;
    forall i | 0 <= i < |s.log[k..]|
      ensures s.log[k..][i].payload == Inert
    {
      assert s.log[k..][i] == s.log[k + i];
    }
  }

  lemma BehindCheckpoint(st: Store, input: Input)
    requires Settled(st)
    ensures var pre, ev := st.log[st.memory.applied..], Numbered(st, input);
      Behind(st.memory, pre + [ev]) && SingleRun(pre + [ev], st.runId)
  {
    var pre, ev := st.log[st.memory.applied..], Numbered(st, input);
    assert forall i :: 0 <= i < |pre| ==> pre[i] == st.log[st.memory.applied + i];
  }

  lemma SkippedPart(st: Store)
    requires Settled(st)
    ensures var k := st.memory.applied;
      (forall ev :: st.log + [ev] == st.log[..k] + (st.log[k..] + [ev])) && forall i :: 0 <= i < k ==> st.log[..k][i].seq_ <= k
  {
  }

  lemma {:induction false} CutLogReplays(s: Snapshot, skipped: seq<Event>, rest: seq<Event>, log: seq<Event>)
    requires log == skipped + rest && |skipped| == s.applied && forall i :: 0 <= i < |skipped| ==> skipped[i].seq_ <= s.applied
    ensures Replay(s, log) == Replay(s, rest)
  {
    if s.applied == 0 {
      assert skipped + rest == rest;
    } else {
      ReplayFromCheckpoint(s, skipped, rest);
    }
  }

  /**
   If the crash falls between event and snapshot, recovery installs exactly what the commit would
   have, whenever the reducer gives the event the effect the mutation had.
   */
  lemma InterruptedCommitIsCompleted(st: Store, input: Input, candidate: Snapshot)
    requires Settled(st)
    requires Timeless(st.memory, st.log[st.memory.applied..], Numbered(st, input))
    requires Effect(st.memory, Numbered(st, input)) == Some(candidate)
    ensures var cut := Committed(st, input, candidate, PersistFails(0));
      Replay(cut.disk, cut.log) == Some(Committed(st, input, candidate, Succeeds).memory)
  {
    CutCommitReplays(st, input, candidate);
  }

  lemma CutCommitReplays(st: Store, input: Input, candidate: Snapshot)
    requires Settled(st)
    requires Timeless(st.memory, st.log[st.memory.applied..], Numbered(st, input))
    requires Effect(st.memory, Numbered(st, input)) == Some(candidate)
    ensures Replay(st.memory, st.log + [Numbered(st, input)]) == Some(Moved(candidate, Numbered(st, input)))
  {
    var ev := Numbered(st, input);
    BehindCheckpoint(st, input);
    OneBehind(st.memory, st.log[st.memory.applied..], ev, candidate);
    SkippedPart(st);
    var k := st.memory.applied;
    CutLogReplays(st.memory, st.log[..k], st.log[k..] + [ev], st.log + [ev]);
  }

  lemma {:induction false} OneBehind(s: Snapshot, pre: seq<Event>, ev: Event, t: Snapshot)
    requires Behind(s, pre + [ev]) && SingleRun(pre + [ev], s.run.runId) && AllInert(pre)
    requires Timeless(s, pre, ev) && Effect(s, ev) == Some(t)
    ensures Replay(s, pre + [ev]) == Some(Moved(t, ev))
  {
    BehindPrefix(s, pre, [ev]);
    InertReplay(s, pre);
    OneReplay(s, pre, ev);
  }

  /** The three commits whose events replay completes, each with the old status its caller read from the snapshot. */
  lemma InterruptedRunStatus(st: Store, to: RunStatus, reason: string, time: int)
    requires Settled(st) && to != NoStatus
    ensures var input := Input([], time, RunChange(st.memory.run.status, to, reason));
      var candidate := RunMoved(st.memory, to, reason, time);
      var cut := Committed(st, input, candidate, PersistFails(0));
      Replay(cut.disk, cut.log) == Some(Committed(st, input, candidate, Succeeds).memory)
  {
    var input := Input([], time, RunChange(st.memory.run.status, to, reason));
    RunChangeTimeless(st.memory, st.log[st.memory.applied..], Numbered(st, input));
    InterruptedCommitIsCompleted(st, input, RunMoved(st.memory, to, reason, time));
  }

  lemma {:induction false} InterruptedTransition(st: Store, id: string, kind: TaskEvent, to: TaskStatus, time: int)
    requires Settled(st) && id != [] && to != NoTaskStatus && TaskMutation(st.memory, id, to).Some?
    ensures var from := st.memory.tasks[TaskIndex(st.memory.tasks, id)].task.status;
      var input := Input(id, time, TaskChange(kind, id, from, to));
      var candidate := TaskMutation(st.memory, id, to).value;
      var cut := Committed(st, input, candidate, PersistFails(0));
      Replay(cut.disk, cut.log) == Some(Committed(st, input, candidate, Succeeds).memory)
  {
    var from := st.memory.tasks[TaskIndex(st.memory.tasks, id)].task.status;
    var input := Input(id, time, TaskChange(kind, id, from, to));
    TaskChangeTimeless(st.memory, st.log[st.memory.applied..], Numbered(st, input));
    InterruptedCommitIsCompleted(st, input, TaskMutation(st.memory, id, to).value);
  }

  lemma InterruptedFinish(st: Store, id: string, outcome: Outcome, reason: string, time: int)
    requires Settled(st) && id != [] && FinishMutation(st.memory, id, outcome, reason, time).Some?
    ensures var input := Input(id, time, AttemptFinished(Some(outcome), reason));
      var candidate := FinishMutation(st.memory, id, outcome, reason, time).value;
      var cut := Committed(st, input, candidate, PersistFails(0));
      Replay(cut.disk, cut.log) == Some(Committed(st, input, candidate, Succeeds).memory)
  {
    var input := Input(id, time, AttemptFinished(Some(outcome), reason));
    FinishedTimeless(st.memory, st.log[st.memory.applied..], Numbered(st, input));
    InterruptedCommitIsCompleted(st, input, FinishMutation(st.memory, id, outcome, reason, time).value);
  }
}
