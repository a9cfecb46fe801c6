/**
 The event reducer (internal/supervisor/reducer.go:17-451): one event onto one snapshot, and the
 replay of a log onto a checkpoint.
 */
module Reducer {
  import opened Text
  import opened Attempts

  datatype RunStatus = NoStatus | RunPlanned | RunCompleted | RunFailed | RunCancelled | RunDegraded | OtherStatus(name: string)

  datatype WaveStatus = NoWaveStatus | WaveRunning | WaveVerified | WaveBlocked | WaveFailed | WaveCancelled
                      | OtherWaveStatus(name: string)

  datatype Reason = NoReason | SelectWave | BarrierReason | Because(text: string)

  datatype Wave = Wave(id: string, status: WaveStatus, barrier: string, failure: Reason, startedAt: Option<int>,
                       endedAt: Option<int>, details: string)

  datatype Identity = Identity(heartbeatAt: int, details: string)

  datatype RunInfo = RunInfo(runId: string, status: RunStatus, startedAt: Option<int>, endedAt: Option<int>,
                             currentWave: string, identity: Option<Identity>, details: string)

  datatype Snapshot = Snapshot(run: RunInfo, lastError: string, wave: Wave, waves: seq<Wave>, tasks: seq<TaskState>,
                               details: string, applied: nat, updatedAt: int)

  /** The barrier_result field of a wave event. */
  datatype BarrierField = Absent | NotText | Barrier(result: string)

  datatype TaskEvent = StateChanged | ReportedComplete | VerifiedSuccess | VerificationFailed

  /** Beat carries a whole identity, a time, a time that does not parse, or nothing. */
  datatype Beat = Whole(identity: Identity) | At(time: int) | BadTime | Bare

  /** The decoded payloads, by type of event. */
  datatype Payload =
    | RunChange(runFrom: RunStatus, runTo: RunStatus, runReason: string)
    | WaveChange(waveId: string, waveFrom: WaveStatus, waveTo: WaveStatus, waveReason: Reason, barrier: BarrierField)
    | TaskChange(kind: TaskEvent, payloadTask: string, taskFrom: TaskStatus, taskTo: TaskStatus)
    | AttemptStarted(worker: Worker, number: Option<int>, mode: Mode)
    | AttemptFinished(outcome: Option<Outcome>, finishReason: string)
    | RuntimeUpdated(runtime: TaskState)
    | ProcessChange(stateChange: bool, process: Option<Process>, facts: Option<string>)
    | ProtocolChange(protocol: Option<string>)
    | StallAssessed(assessment: string)
    | StallCleared
    | ProgressChange(progressFrom: Option<Progress>, progressTo: Option<Progress>)
    | Heartbeat(beat: Beat)
    | Undecodable
    | Inert

  datatype Event = Event(seq_: nat, runId: string, taskId: string, time: int, payload: Payload)

  /** Position of the task, or the length. */
  function TaskIndex(tasks: seq<TaskState>, id: string): (i: nat)
    ensures i <= |tasks| && (i < |tasks| ==> tasks[i].task.id == id)
    ensures forall k :: 0 <= k < i ==> tasks[k].task.id != id
  {
    if tasks == [] || tasks[0].task.id == id then 0 else 1 + TaskIndex(tasks[1..], id)
  }

  function WithTask(s: Snapshot, i: nat, t: TaskState): Snapshot
    requires i < |s.tasks|
  {
    s.(tasks := s.tasks[i := t])
  }

  // ----- the branches -----

  predicate EndsRun(status: RunStatus) {
    status == RunCompleted || status == RunFailed || status == RunCancelled || status == RunDegraded
  }

  /** What both the reducer and the commit of a run status do. */
  function RunMoved(s: Snapshot, to: RunStatus, reason: string, now: int): Snapshot {
    s.(lastError := if reason != [] then reason else s.lastError,
       run := s.run.(status := to,
                     startedAt := if s.run.startedAt.None? && to != RunPlanned then Some(now) else s.run.startedAt,
                     endedAt := if EndsRun(to) then Some(now) else s.run.endedAt))
  }

  function ReduceRun(s: Snapshot, from: RunStatus, to: RunStatus, reason: string, now: int): Option<Snapshot> {
    if to == NoStatus || (s.run.status != NoStatus && s.run.status != from) then None else Some(RunMoved(s, to, reason, now))
  }

  predicate Special(reason: Reason) {
    reason == SelectWave || reason == BarrierReason
  }

  function WaveApplied(w: Wave, p: Payload): Option<Wave>
    requires p.WaveChange?
  {
    if p.waveTo != NoWaveStatus && w.status != NoWaveStatus && p.waveFrom != NoWaveStatus && w.status != p.waveFrom &&
       w.id == p.waveId && p.waveReason == NoReason
    then None
    else
      var moved := p.waveTo != NoWaveStatus && !Special(p.waveReason);
      Some(w.(status := if moved then p.waveTo else w.status,
              failure := if moved && p.waveReason != NoReason && p.waveTo == WaveFailed then p.waveReason else w.failure,
              barrier := if p.barrier.Barrier? && p.barrier.result != [] then p.barrier.result else w.barrier))
  }

  /** Position of the first wave of the id, or the length. */
  function WaveIndex(waves: seq<Wave>, id: string): (i: nat)
    ensures i <= |waves| && (i < |waves| ==> waves[i].id == id)
    ensures forall k :: 0 <= k < i ==> waves[k].id != id
  {
    if waves == [] || waves[0].id == id then 0 else 1 + WaveIndex(waves[1..], id)
  }

  function CurrentWave(s: Snapshot, p: Payload): Option<Wave>
    requires p.WaveChange?
  {
    if s.wave.id == p.waveId || s.wave.id == [] then WaveApplied(s.wave.(id := p.waveId), p) else Some(s.wave)
  }

  function ReduceWave(s: Snapshot, p: Payload): Option<Snapshot>
    requires p.WaveChange?
  {
    if p.waveId == [] || (p.waveTo == NoWaveStatus && p.barrier == Absent) then None
    else
      match CurrentWave(s, p)
      case None => None
      case Some(current) =>
        var i := WaveIndex(s.waves, p.waveId);
        if i == |s.waves| then
          Some(s.(wave := current, run := if p.waveReason == SelectWave then s.run.(currentWave := p.waveId) else s.run))
        else
          match WaveApplied(s.waves[i], p)
          case None => None
          case Some(w) => Some(s.(waves := s.waves[i := w], wave := if current.id == p.waveId then w else current))
  }

  predicate TaskAllows(from: TaskStatus, to: TaskStatus) {
    match from
    case TaskPlanned => to == TaskRunning || to == TaskBlocked || to == TaskFailed || to == TaskCancelled
    case TaskRunning => to == TaskBlocked || to == TaskReportedComplete || to == TaskFailed || to == TaskCancelled
    case TaskBlocked => to == TaskRunning || to == TaskReportedComplete || to == TaskFailed || to == TaskCancelled
    case TaskReportedComplete => to == TaskVerifying || to == TaskFailed || to == TaskCancelled
    case TaskVerifying => to == TaskVerifiedSuccess || to == TaskVerifiedPartial || to == TaskVerificationFailed || to == TaskCancelled
    case TaskVerificationFailed => to == TaskRunning || to == TaskFailed || to == TaskCancelled
    case TaskVerifiedPartial => to == TaskRunning
    case _ => false
  }

  predicate ValidTaskTransition(from: TaskStatus, to: TaskStatus) {
    from == to || TaskAllows(from, to)
  }

  /** What both the reducer and the commit of a task status do. */
  function TaskMoved(t: TaskState, to: TaskStatus): TaskState {
    t.(task := t.task.(status := to), dims := t.dims.(task := to),
       worker := if t.worker.Some? then Some(t.worker.value.(dims := t.worker.value.dims.(task := to))) else None)
  }

  function DefaultTo(kind: TaskEvent, to: TaskStatus): TaskStatus {
    if to != NoTaskStatus then to
    else
      match kind
      case StateChanged => NoTaskStatus
      case ReportedComplete => TaskReportedComplete
      case VerifiedSuccess => TaskVerifiedSuccess
      case VerificationFailed => TaskVerificationFailed
  }

  function ReduceTask(s: Snapshot, id: string, p: Payload): Option<Snapshot>
    requires p.TaskChange?
  {
    var taskId := if id != [] then id else p.payloadTask;
    var to := DefaultTo(p.kind, p.taskTo);
    var i := TaskIndex(s.tasks, taskId);
    if taskId == [] || to == NoTaskStatus || i == |s.tasks| then None
    else
      var current := s.tasks[i].task.status;
      if (p.taskFrom != NoTaskStatus && current != p.taskFrom) || !ValidTaskTransition(current, to) then None
      else Some(WithTask(s, i, TaskMoved(s.tasks[i], to)))
  }

  function TaskWithAttempt(t: TaskState, number: int, mode: Mode, w: Worker): TaskState {
    var m := Migrate(t);
    m.(attempts := m.attempts + [Attempt(number, mode, w, Running, w.startedAt, None, [])], active := number,
       worker := Some(w), dims := w.dims,
       report := if m.report.Some? then Some(m.report.value.(stale := true)) else None)
  }

  function ReduceStarted(s: Snapshot, id: string, p: Payload): Option<Snapshot>
    requires p.AttemptStarted?
  {
    var i := TaskIndex(s.tasks, if id != [] then id else p.worker.taskId);
    if i == |s.tasks| then None
    else
      var number := if p.worker.attempt <= 0 && p.number.Some? then p.number.value else p.worker.attempt;
      Some(WithTask(s, i, TaskWithAttempt(s.tasks[i], number, if p.mode == NoMode then Fresh else p.mode, p.worker)))
  }

  function ReduceRuntime(s: Snapshot, runtime: TaskState): Option<Snapshot> {
    var i := TaskIndex(s.tasks, runtime.task.id);
    if i == |s.tasks| then None
    else if |s.tasks[i].task.writeScope| > |runtime.task.writeScope| then
      Some(WithTask(s, i, runtime.(task := runtime.task.(writeScope := s.tasks[i].task.writeScope,
                                                         allowPublic := s.tasks[i].task.allowPublic))))
    else Some(WithTask(s, i, runtime))
  }

  function ProcessMoved(t: TaskState, process: Option<Process>, facts: Option<string>): TaskState {
    var u := if process.None? then t else
      t.(dims := t.dims.(process := process.value),
         worker := if t.worker.Some? then Some(t.worker.value.(dims := t.worker.value.dims.(process := process.value))) else None);
    if facts.None? then u else u.(evidence := Some(Evidence(facts.value, u.dims.process)))
  }

  function ProtocolMoved(t: TaskState, protocol: Option<string>): TaskState {
    if protocol.None? then t else
      t.(dims := t.dims.(protocol := protocol.value),
         worker := if t.worker.Some? then Some(t.worker.value.(dims := t.worker.value.dims.(protocol := protocol.value))) else None)
  }

  predicate ProgressAllows(from: Progress, to: Progress) {
    from == to ||
    match from
    case Active => to == Quiet || to == UnknownProgress
    case Quiet => to == Active || to == SuspectedStall || to == UnknownProgress
    case SuspectedStall => to == Active || to == Quiet || to == Stalled || to == UnknownProgress
    case Stalled => to == Active || to == UnknownProgress
    case UnknownProgress => to == Active || to == Quiet || to == SuspectedStall || to == Stalled
    case OtherProgress(_) => false
  }

  function ProgressMoved(t: TaskState, to: Progress): TaskState {
    t.(dims := t.dims.(progress := to),
       worker := if t.worker.Some? then Some(t.worker.value.(dims := t.worker.value.dims.(progress := to))) else None)
  }

  /** Events about one task that change it in place and are ignored when the task is not known. */
  function TaskTouched(t: TaskState, p: Payload, now: int): Option<TaskState> {
    match p
    case AttemptFinished(outcome, reason) => Some(if outcome.Some? then FinishActive(t, outcome.value, reason, now) else t)
    case ProcessChange(_, process, facts) => Some(ProcessMoved(t, process, facts))
    case ProtocolChange(protocol) => Some(ProtocolMoved(t, protocol))
    case StallAssessed(text) => Some(t.(stall := Some(Stall(text, now))))
    case StallCleared => Some(t.(stall := None))
    case ProgressChange(from, to) =>
      if to.None? then Some(t)
      else if from.Some? && !ProgressAllows(from.value, to.value) then None
      else Some(ProgressMoved(t, to.value))
    case _ => Some(t)
  }

  function ReduceTouch(s: Snapshot, id: string, p: Payload, now: int): Option<Snapshot> {
    var i := TaskIndex(s.tasks, id);
    if id == [] || i == |s.tasks| then Some(s)
    else
      match TaskTouched(s.tasks[i], p, now)
      case None => None
      case Some(t) => Some(WithTask(s, i, t))
  }

  function ReduceBeat(s: Snapshot, beat: Beat, now: int): Snapshot {
    match beat
    case Whole(identity) => s.(run := s.run.(identity := Some(identity)))
    case BadTime => s
    case At(time) => if s.run.identity.None? then s else s.(run := s.run.(identity := Some(s.run.identity.value.(heartbeatAt := time))))
    case Bare => if s.run.identity.None? then s else s.(run := s.run.(identity := Some(s.run.identity.value.(heartbeatAt := now))))
  }

  function Effect(s: Snapshot, ev: Event): Option<Snapshot> {
    match ev.payload
    case RunChange(from, to, reason) => ReduceRun(s, from, to, reason, ev.time)
    case WaveChange(_, _, _, _, _) => ReduceWave(s, ev.payload)
    case TaskChange(_, _, _, _) => ReduceTask(s, ev.taskId, ev.payload)
    case AttemptStarted(_, _, _) => ReduceStarted(s, ev.taskId, ev.payload)
    case RuntimeUpdated(runtime) => ReduceRuntime(s, runtime)
    case AttemptFinished(_, _) => ReduceTouch(s, ev.taskId, ev.payload, ev.time)
    case ProcessChange(_, _, _) => ReduceTouch(s, ev.taskId, ev.payload, ev.time)
    case ProtocolChange(_) => ReduceTouch(s, ev.taskId, ev.payload, ev.time)
    case StallAssessed(_) => ReduceTouch(s, ev.taskId, ev.payload, ev.time)
    case StallCleared => ReduceTouch(s, ev.taskId, ev.payload, ev.time)
    case ProgressChange(_, _) => ReduceTouch(s, ev.taskId, ev.payload, ev.time)
    case Heartbeat(beat) => Some(ReduceBeat(s, beat, ev.time))
    case Undecodable => None
    case Inert => Some(s)
  }

  predicate RunIdsClash(a: string, b: string) {
    a != [] && b != [] && a != b
  }

  predicate HeadFits(s: Snapshot, ev: Event) {
    ev.seq_ != 0 && !RunIdsClash(s.run.runId, ev.runId) && (s.applied > 0 ==> ev.seq_ == s.applied + 1)
  }

  function Named(s: Snapshot, ev: Event): Snapshot {
    if s.run.runId == [] then s.(run := s.run.(runId := ev.runId)) else s
  }

  /** ApplyEvent; none is an error, which leaves the checkpoint as it was. */
  function Apply(s: Snapshot, ev: Event): Option<Snapshot> {
    if !HeadFits(s, ev) then None
    else
      match Effect(Named(s, ev), ev)
      case None => None
      case Some(t) => Some(t.(applied := ev.seq_, updatedAt := ev.time))
  }

  predicate IsTelemetry(p: Payload) {
    match p
    case ProcessChange(stateChange, _, _) => !stateChange
    case StallAssessed(_) => true
    case StallCleared => true
    case Inert => true
    case _ => false
  }

  // ----- replay -----

  /** One turn of the replay loop, from the checkpoint s and the running snapshot. */
  function Turn(s: Snapshot, current: Snapshot, previous: Option<Event>, ev: Event): Option<Snapshot> {
    if s.applied > 0 then
      if ev.seq_ <= s.applied then Some(current) else Apply(current, ev)
    else if previous.Some? && previous.value.seq_ != 0 && ev.seq_ != previous.value.seq_ + 1 then None
    else
      match Apply(current, ev)
      case Some(next) => Some(next)
      case None => if IsTelemetry(ev.payload) then Some(current.(applied := ev.seq_)) else None
  }

  function Previous(log: seq<Event>): Option<Event> {
    if log == [] then None else Some(log[|log| - 1])
  }

  /** ReplayEvents; none is an error. */
  function Replay(s: Snapshot, log: seq<Event>): Option<Snapshot> {
    if log == [] then Some(s)
    else
      var n := |log| - 1;
      match Replay(s, log[..n])
      case None => None
      case Some(current) => Turn(s, current, Previous(log[..n]), log[n])
  }

  lemma {:induction false} ReplayPrefix(s: Snapshot, log: seq<Event>, i: nat)
    requires i <= |log| && Replay(s, log).Some?
    ensures Replay(s, log[..i]).Some?
  {
    if i < |log| {
      ReplayPrefix(s, log[..|log| - 1], i);
      assert log[..|log| - 1][..i] == log[..i];
    } else {
      assert log[..i] == log;
    }
  }

  lemma {:induction false} ReplayNext(s: Snapshot, log: seq<Event>, i: nat)
    requires i < |log|
    ensures Replay(s, log[..i + 1]) ==
            match Replay(s, log[..i])
            case None => None
            case Some(current) => Turn(s, current, Previous(log[..i]), log[i])
  {
    assert log[..i + 1][..i] == log[..i];
  }

  /** The loop itself. */
  method ReplayEvents(s: Snapshot, log: seq<Event>) returns (r: Option<Snapshot>)
    ensures r == Replay(s, log)
  {
    var current := s;
    var last: nat := 0;
    for i := 0 to |log|
      invariant Replay(s, log[..i]) == Some(current)
      invariant s.applied == 0 ==> last == if i == 0 then 0 else log[i - 1].seq_
    {
      var ev := log[i];
      ReplayNext(s, log, i);
      if s.applied > 0 && ev.seq_ <= s.applied {
        continue;
      }
      if s.applied == 0 {
        if last != 0 && ev.seq_ != last + 1 {
          FailedPrefix(s, log, i + 1);
          return None;
        }
        last := ev.seq_;
      }
      var applied := Apply(current, ev);
      if applied.None? {
        if s.applied == 0 && IsTelemetry(ev.payload) {
          current := current.(applied := ev.seq_);
          continue;
        }
        FailedPrefix(s, log, i + 1);
        return None;
      }
      current := applied.value;
    }
    assert log[..|log|] == log;
    r := Some(current);
  }

  lemma {:induction false} FailedPrefix(s: Snapshot, log: seq<Event>, i: nat)
    requires i <= |log| && Replay(s, log[..i]).None?
    ensures Replay(s, log).None?
  {
    if Replay(s, log).Some? {
      ReplayPrefix(s, log, i);
    }
  }

  // ----- checkpoint independence -----

  predicate Contiguous(log: seq<Event>) {
    forall i :: 0 <= i < |log| ==> log[i].seq_ == log[0].seq_ + i && log[i].seq_ > 0
  }

  predicate SingleRun(log: seq<Event>, runId: string) {
    runId != [] && forall i :: 0 <= i < |log| ==> log[i].runId == runId
  }

  lemma EffectKeepsRunId(s: Snapshot, ev: Event)
    ensures Effect(s, ev).Some? ==> Effect(s, ev).value.run.runId == s.run.runId
  {
    match ev.payload {
      case RunChange(from, to, reason) =>
      case WaveChange(_, _, _, _, _) =>
      case TaskChange(_, _, _, _) =>
      case AttemptStarted(_, _, _) =>
      case RuntimeUpdated(runtime) =>
      case AttemptFinished(_, _) =>
      case ProcessChange(_, _, _) =>
      case ProtocolChange(_) =>
      case StallAssessed(_) =>
      case StallCleared =>
      case ProgressChange(_, _) =>
      case Heartbeat(beat) =>
      case Undecodable =>
      case Inert =>
    }
  }

  /** Telemetry changes nothing that could refuse it: only the head of an event can. */
  lemma TelemetryApplies(s: Snapshot, ev: Event)
    requires IsTelemetry(ev.payload)
    ensures Apply(s, ev).Some? <==> HeadFits(s, ev)
  {
  }

  /** After any prefix the running snapshot stands at the last event and has not changed its run. */
  ghost predicate Stands(s: Snapshot, log: seq<Event>, current: Snapshot) {
    && (current.run.runId == s.run.runId || (log != [] && s.run.runId == [] && current.run.runId == log[0].runId))
    && current.applied == if log != [] && log[|log| - 1].seq_ > s.applied then log[|log| - 1].seq_ else s.applied
  }

  lemma AppliedStands(s: Snapshot, ev: Event)
    requires Apply(s, ev).Some?
    ensures Apply(s, ev).value.applied == ev.seq_
    ensures Apply(s, ev).value.run.runId == if s.run.runId == [] then ev.runId else s.run.runId
  {
    EffectKeepsRunId(Named(s, ev), ev);
  }

  lemma {:induction false} ReplayStands(s: Snapshot, log: seq<Event>, runId: string)
    requires Contiguous(log) && SingleRun(log, runId) && Replay(s, log).Some?
    ensures Stands(s, log, Replay(s, log).value)
  {
    if log != [] {
      var n := |log| - 1;
      ReplayStands(s, log[..n], runId);
      var current := Replay(s, log[..n]).value;
      if Apply(current, log[n]).Some? {
        AppliedStands(current, log[n]);
      }
      assert n > 0 ==> log[..n][n - 1].seq_ + 1 == log[n].seq_;
    }
  }

  /** In a run whose ids agree, replay applies every event past the checkpoint, telemetry included. */
  lemma {:induction false} TurnApplies(s: Snapshot, log: seq<Event>, runId: string)
    requires Contiguous(log) && SingleRun(log, runId) && !RunIdsClash(s.run.runId, runId)
    requires log != [] && log[|log| - 1].seq_ > s.applied && Replay(s, log).Some?
    ensures Replay(s, log[..|log| - 1]).Some?
    ensures Replay(s, log) == Apply(Replay(s, log[..|log| - 1]).value, log[|log| - 1])
  {
    var n := |log| - 1;
    var current := Replay(s, log[..n]).value;
    ReplayStands(s, log[..n], runId);
    assert n > 0 ==> log[n - 1].seq_ + 1 == log[n].seq_;
    if IsTelemetry(log[n].payload) {
      TelemetryApplies(current, log[n]);
    }
  }

  lemma {:induction false} ReplaySkips(c: Snapshot, log: seq<Event>)
    requires c.applied > 0 && forall i :: 0 <= i < |log| ==> log[i].seq_ <= c.applied
    ensures Replay(c, log) == Some(c)
  {
    if log != [] {
      ReplaySkips(c, log[..|log| - 1]);
    }
  }

  lemma ContiguousPrefix(log: seq<Event>, runId: string)
    requires Contiguous(log) && SingleRun(log, runId) && log != []
    ensures Contiguous(log[..|log| - 1]) && SingleRun(log[..|log| - 1], runId)
  {
  }

  /** From the checkpoint on, both replays apply the same events to the same snapshots. */
  lemma {:induction false} SuffixAgrees(s: Snapshot, c: Snapshot, log: seq<Event>, runId: string, k: nat)
    requires Contiguous(log) && SingleRun(log, runId) && !RunIdsClash(s.run.runId, runId) && Replay(s, log).Some?
    requires 0 < k <= |log| && Replay(s, log[..k]) == Some(c) && c.applied == log[k - 1].seq_ > s.applied
    ensures Replay(c, log) == Replay(s, log)
    decreases |log|
  {
    var n := |log| - 1;
    if k == |log| {
      assert log[..k] == log;
      ReplaySkips(c, log);
    } else {
      assert log[..n][..k] == log[..k];
      ContiguousPrefix(log, runId);
      TurnApplies(s, log, runId);
      SuffixAgrees(s, c, log[..n], runId, k);
      assert log[n].seq_ > log[k - 1].seq_;
    }
  }

  /** When log and checkpoint do not name different runs, any prefix will do. */
  lemma {:induction false} AgreeingRunIsIndependent(s: Snapshot, log: seq<Event>, runId: string, k: nat)
    requires Contiguous(log) && SingleRun(log, runId) && Replay(s, log).Some? && k <= |log|
    requires !RunIdsClash(s.run.runId, runId)
    ensures Replay(s, log[..k]).Some? && Replay(Replay(s, log[..k]).value, log) == Replay(s, log)
  {
    ReplayPrefix(s, log, k);
    if k > 0 && log[k - 1].seq_ > s.applied {
      ReplayStands(s, log[..k], runId);
      SuffixAgrees(s, Replay(s, log[..k]).value, log, runId, k);
    } else if s.applied > 0 {
      ReplaySkips(s, log[..k]);
    } else {
      assert log[..k] == [];
    }
  }

  /** With a clash, a checkpoint above 0 replays only a log that lies behind it altogether. */
  lemma {:induction false} ClashNeedsOldLog(s: Snapshot, log: seq<Event>, runId: string)
    requires Contiguous(log) && SingleRun(log, runId) && Replay(s, log).Some?
    requires RunIdsClash(s.run.runId, runId) && s.applied > 0
    ensures forall i :: 0 <= i < |log| ==> log[i].seq_ <= s.applied
  {
    if log != [] {
      var n := |log| - 1;
      ReplayPrefix(s, log, n);
      ReplayStands(s, log[..n], runId);
      assert forall i :: 0 <= i < |log| ==> log[i].seq_ <= log[n].seq_;
    }
  }

  /** A clash of run ids is tolerated from checkpoint 0 only, so there independence fails for every proper prefix. */
  lemma {:induction false} ClashBreaksIndependence(s: Snapshot, log: seq<Event>, runId: string, k: nat)
    requires Contiguous(log) && SingleRun(log, runId) && Replay(s, log).Some? && 0 < k < |log|
    requires RunIdsClash(s.run.runId, runId) && s.applied == 0
    ensures Replay(s, log[..k]).Some? && Replay(Replay(s, log[..k]).value, log).None?
  {
    ReplayPrefix(s, log, k);
    var c := Replay(s, log[..k]).value;
    ReplayStands(s, log[..k], runId);
    ReplaySkips(c, log[..k]);
    ReplayNext(c, log, k);
    FailedPrefix(c, log, k + 1);
  }

  lemma {:induction false} WholeLogIsIndependent(s: Snapshot, log: seq<Event>, runId: string)
    requires Contiguous(log) && SingleRun(log, runId) && Replay(s, log).Some? && s.applied == 0
    ensures Replay(Replay(s, log).value, log) == Replay(s, log)
  {
    if log != [] {
      ReplayStands(s, log, runId);
      ReplaySkips(Replay(s, log).value, log);
    }
  }

  /**
   Checkpoint independence: replaying the whole log onto the checkpoint a prefix produced gives the
   snapshot of the full replay, except exactly when log and checkpoint name different runs, the
   checkpoint is 0 and the prefix is neither empty nor the whole log.
   */
  lemma {:induction false} CheckpointIndependence(s: Snapshot, log: seq<Event>, runId: string, k: nat)
    requires Contiguous(log) && SingleRun(log, runId) && Replay(s, log).Some? && k <= |log|
    ensures Replay(s, log[..k]).Some?
    ensures Replay(Replay(s, log[..k]).value, log) == Replay(s, log) <==>
            !(RunIdsClash(s.run.runId, runId) && s.applied == 0 && 0 < k < |log|)
  {
    ReplayPrefix(s, log, k);
    if !RunIdsClash(s.run.runId, runId) {
      AgreeingRunIsIndependent(s, log, runId, k);
    } else if s.applied > 0 {
      ClashNeedsOldLog(s, log, runId);
      ReplaySkips(s, log[..k]);
    } else if 0 < k < |log| {
      ClashBreaksIndependence(s, log, runId, k);
    } else if k == 0 {
      assert log[..k] == [];
    } else {
      assert log[..k] == log;
      WholeLogIsIndependent(s, log, runId);
    }
  }

  // ----- a log of another run -----

  /** A run "a" that has applied nothing yet. */
  const RunA := Snapshot(RunInfo("a", NoStatus, None, None, [], None, []), [], Wave([], NoWaveStatus, [], NoReason, None, None, []), [], [], [], 0, 0)

  /** Two inert events of a run "b". */
  const LogB: seq<Event> := [Event(1, "b", [], 1, Inert), Event(2, "b", [], 2, Inert)]

  /** The whole log of run "b" replays onto run "a" from checkpoint 0, but not from the checkpoint its first event leaves. */
  lemma ForeignLogReplaysOnce()
    ensures Contiguous(LogB) && SingleRun(LogB, "b") && Replay(RunA, LogB).Some?
    ensures Replay(RunA, LogB[..1]).Some? && Replay(Replay(RunA, LogB[..1]).value, LogB).None?
  {
    assert LogB[..1][..0] == [];
    assert Replay(RunA, LogB[..1]) == Some(RunA.(applied := 1));
    assert LogB[..|LogB| - 1] == LogB[..1];
    assert Replay(RunA, LogB) == Some(RunA.(applied := 2));
    ClashBreaksIndependence(RunA, LogB, "b", 1);
  }

  // ----- what a wave event says -----

  /** A wave the event has been applied to: status, reason and barrier result as far as the event gives them, all else kept. */
  predicate ToldOf(w: Wave, v: Wave, p: Payload)
    requires p.WaveChange?
  {
    && v.id == p.waveId && v.startedAt == w.startedAt && v.endedAt == w.endedAt && v.details == w.details
    && (p.waveTo != NoWaveStatus && p.waveReason != SelectWave && p.waveReason != BarrierReason ==> v.status == p.waveTo)
    && (p.waveTo == NoWaveStatus || p.waveReason == SelectWave || p.waveReason == BarrierReason ==> v.status == w.status)
    && (p.waveTo == WaveFailed && p.waveReason.Because? ==> v.failure == p.waveReason)
    && (!(p.waveTo == WaveFailed && p.waveReason.Because?) ==> v.failure == w.failure)
    && v.barrier == match p.barrier { case Barrier(text) => if text == [] then w.barrier else text case _ => w.barrier }
  }

  /**
   A wave event that reduces reaches the first wave of its id and, when that is the current wave or
   there is none, the current wave, which then equals the listed one; a selection of a wave that is
   not listed becomes the run's current wave; nothing else changes.
   */
  lemma WaveEventReaches(s: Snapshot, p: Payload, t: Snapshot)
    requires p.WaveChange? && ReduceWave(s, p) == Some(t)
    ensures var i := WaveIndex(s.waves, p.waveId);
      && |t.waves| == |s.waves| && (forall k :: 0 <= k < |s.waves| && k != i ==> t.waves[k] == s.waves[k])
      && (i < |s.waves| ==> ToldOf(s.waves[i], t.waves[i], p))
      && (s.wave.id != p.waveId && s.wave.id != [] ==> t.wave == s.wave)
      && (s.wave.id == p.waveId || s.wave.id == [] ==> if i < |s.waves| then t.wave == t.waves[i] else ToldOf(s.wave, t.wave, p))
      && t.run == s.run.(currentWave := if i == |s.waves| && p.waveReason == SelectWave then p.waveId else s.run.currentWave)
      && t == s.(wave := t.wave, waves := t.waves, run := t.run)
  {
  }

  /** An event without a reason is for a wave in the status it names. */
  predicate StatusClashes(w: Wave, p: Payload)
    requires p.WaveChange?
  {
    && p.waveReason == NoReason && p.waveTo != NoWaveStatus && p.waveFrom != NoWaveStatus
    && w.status != NoWaveStatus && w.status != p.waveFrom
  }

  /** A wave event is refused exactly when it names no wave, says nothing, or one of the waves it reaches is not where it says. */
  lemma WaveEventRefusedIff(s: Snapshot, p: Payload)
    requires p.WaveChange?
    ensures ReduceWave(s, p).None? <==>
            || p.waveId == [] || (p.waveTo == NoWaveStatus && p.barrier == Absent)
            || ((s.wave.id == p.waveId || s.wave.id == []) && StatusClashes(s.wave, p))
            || (exists i :: 0 <= i < |s.waves| && i == WaveIndex(s.waves, p.waveId) && StatusClashes(s.waves[i], p))
  {
  }

  // ----- what task events leave out -----

  /** An event of the verifier without a payload says what its type says. */
  lemma BareVerdicts(s: Snapshot, id: string, payloadTask: string, from: TaskStatus)
    ensures ReduceTask(s, id, TaskChange(StateChanged, payloadTask, from, NoTaskStatus)).None?
    ensures ReduceTask(s, id, TaskChange(ReportedComplete, payloadTask, from, NoTaskStatus)) ==
            ReduceTask(s, id, TaskChange(StateChanged, payloadTask, from, TaskReportedComplete))
    ensures ReduceTask(s, id, TaskChange(VerifiedSuccess, payloadTask, from, NoTaskStatus)) ==
            ReduceTask(s, id, TaskChange(StateChanged, payloadTask, from, TaskVerifiedSuccess))
    ensures ReduceTask(s, id, TaskChange(VerificationFailed, payloadTask, from, NoTaskStatus)) ==
            ReduceTask(s, id, TaskChange(StateChanged, payloadTask, from, TaskVerificationFailed))
  {
  }

  /** An event without a task id is for the task its payload names. */
  lemma NamedInPayload(s: Snapshot, p: Payload)
    ensures p.TaskChange? ==> ReduceTask(s, [], p) == ReduceTask(s, p.payloadTask, p)
    ensures p.AttemptStarted? ==> ReduceStarted(s, [], p) == ReduceStarted(s, p.worker.taskId, p)
  {
  }

  /** The attempt an event opens has the worker's number, or the payload's when the worker has none, and is fresh by default. */
  lemma {:induction false} StartedFields(s: Snapshot, id: string, p: Payload, i: nat)
    requires p.AttemptStarted? && id != [] && i == TaskIndex(s.tasks, id) < |s.tasks|
    ensures ReduceStarted(s, id, p).Some?
    ensures var t := ReduceStarted(s, id, p).value.tasks[i];
      var number := if p.worker.attempt > 0 || p.number.None? then p.worker.attempt else p.number.value;
      && t.active == number && t.attempts != [] && t.attempts[|t.attempts| - 1].number == number
      && t.attempts[|t.attempts| - 1].mode == if p.mode == NoMode then Fresh else p.mode
  {
  }

  /** The task's dimensions and its worker's agree. */
  predicate DimsTold(t: TaskState) {
    t.worker.Some? ==> t.worker.value.dims == t.dims
  }

  /** Events that touch a known task: each sets what it is about, in the worker's dimensions as well, and keeps the rest. */
  lemma {:induction false} TouchSets(s: Snapshot, id: string, p: Payload, now: int, i: nat)
    requires id != [] && i == TaskIndex(s.tasks, id) < |s.tasks| && DimsTold(s.tasks[i])
    ensures var t, r := s.tasks[i], ReduceTouch(s, id, p, now);
      && (p.StallAssessed? ==> r == Some(WithTask(s, i, t.(stall := Some(Stall(p.assessment, now))))))
      && (p.StallCleared? ==> r == Some(WithTask(s, i, t.(stall := None))))
      && (p.ProtocolChange? && p.protocol.Some? ==>
            r.Some? && r.value.tasks[i].dims == t.dims.(protocol := p.protocol.value) && DimsTold(r.value.tasks[i]))
      && (p.ProgressChange? && p.progressTo.Some? ==>
            && (r.None? <==> p.progressFrom.Some? && !ProgressAllows(p.progressFrom.value, p.progressTo.value))
            && (r.Some? ==> r.value.tasks[i].dims == t.dims.(progress := p.progressTo.value) && DimsTold(r.value.tasks[i])))
      && (p.ProcessChange? && p.process.Some? ==>
            r.Some? && r.value.tasks[i].dims == t.dims.(process := p.process.value) && DimsTold(r.value.tasks[i]))
  {
  }

  /** Events for a task nobody knows are no error and change nothing. */
  lemma {:induction false} UnknownTaskIgnored(s: Snapshot, id: string, p: Payload, now: int)
    requires id == [] || TaskIndex(s.tasks, id) == |s.tasks|
    ensures ReduceTouch(s, id, p, now) == Some(s)
  {
  }

  /** An event of another run is skipped from checkpoint 0 exactly when its type is none of those that carry state. */
  lemma {:induction false} ForeignEventSkippedIff(s: Snapshot, ev: Event)
    requires s.applied == 0 && ev.seq_ > 0 && RunIdsClash(s.run.runId, ev.runId)
    ensures var p := ev.payload;
      Replay(s, [ev]) ==
        if p.StallAssessed? || p.StallCleared? || p.Inert? || (p.ProcessChange? && !p.stateChange) then Some(s.(applied := ev.seq_))
        else None
  {
    assert [ev][..0] == [];
  }

  // ----- the tables of task and progress -----

  /** By target: where each status of a task can be entered from. */
  lemma TaskEntries(from: TaskStatus, to: TaskStatus)
    ensures TaskAllows(from, to) <==>
            match to
            case TaskRunning => from in {TaskPlanned, TaskBlocked, TaskVerificationFailed, TaskVerifiedPartial}
            case TaskBlocked => from in {TaskPlanned, TaskRunning}
            case TaskReportedComplete => from in {TaskRunning, TaskBlocked}
            case TaskVerifying => from == TaskReportedComplete
            case TaskVerifiedSuccess => from == TaskVerifying
            case TaskVerifiedPartial => from == TaskVerifying
            case TaskVerificationFailed => from == TaskVerifying
            case TaskFailed => from in {TaskPlanned, TaskRunning, TaskBlocked, TaskReportedComplete, TaskVerificationFailed}
            case TaskCancelled =>
              from in {TaskPlanned, TaskRunning, TaskBlocked, TaskReportedComplete, TaskVerifying, TaskVerificationFailed}
            case _ => false
  {
  }

  /** A history of statuses in which every change is allowed. */
  predicate Walk(statuses: seq<TaskStatus>) {
    forall i :: 0 < i < |statuses| ==> ValidTaskTransition(statuses[i - 1], statuses[i])
  }

  /** The last place before i with another status than that at i. */
  lemma {:induction false} EnteredFrom(statuses: seq<TaskStatus>, i: nat) returns (k: nat)
    requires Walk(statuses) && i < |statuses| && statuses[0] != statuses[i]
    ensures k < i && TaskAllows(statuses[k], statuses[i])
  {
    if statuses[i - 1] == statuses[i] {
      k := EnteredFrom(statuses, i - 1);
    } else {
      k := i - 1;
    }
  }

  /** No task counts as verified unless it ran or was blocked, then reported complete, then was being verified. */
  lemma VerifiedWasReported(statuses: seq<TaskStatus>, i: nat) returns (a: nat, b: nat, c: nat)
    requires Walk(statuses) && i < |statuses| && statuses[0] == TaskPlanned
    requires statuses[i] in {TaskVerifiedSuccess, TaskVerifiedPartial, TaskVerificationFailed}
    ensures a < b < c < i && statuses[a] in {TaskRunning, TaskBlocked}
    ensures statuses[b] == TaskReportedComplete && statuses[c] == TaskVerifying
  {
    c := EnteredFrom(statuses, i);
    b := EnteredFrom(statuses, c);
    a := EnteredFrom(statuses, b);
  }

  /** Nothing follows success, failure and cancellation. */
  lemma {:induction false} EndIsFinal(statuses: seq<TaskStatus>, i: nat, j: nat)
    requires Walk(statuses) && i <= j < |statuses| && statuses[i] in {TaskVerifiedSuccess, TaskFailed, TaskCancelled}
    ensures statuses[j] == statuses[i]
    decreases j
  {
    if i < j {
      EndIsFinal(statuses, i, j - 1);
    }
  }

  /** By target: a stall is only assessed in order, and activity or doubt from anywhere. */
  lemma ProgressEntries(from: Progress, to: Progress)
    ensures ProgressAllows(from, to) <==>
            || from == to
            || (&& !from.OtherProgress?
                && match to
                   case Active => true
                   case UnknownProgress => true
                   case Quiet => from == Active || from == SuspectedStall || from == UnknownProgress
                   case SuspectedStall => from == Quiet || from == UnknownProgress
                   case Stalled => from == SuspectedStall || from == UnknownProgress
                   case OtherProgress(_) => false)
  {
  }

  // ----- write scopes never shrink -----

  /** The same tasks in the same places, none with a shorter write scope. */
  predicate ScopesKept(s: Snapshot, t: Snapshot) {
    && |t.tasks| == |s.tasks|
    && forall i :: 0 <= i < |s.tasks| ==>
         t.tasks[i].task.id == s.tasks[i].task.id && |t.tasks[i].task.writeScope| >= |s.tasks[i].task.writeScope|
  }

  lemma TouchKeepsCore(t: TaskState, p: Payload, now: int)
    ensures TaskTouched(t, p, now).Some? ==> TaskTouched(t, p, now).value.task == t.task
  {
  }

  lemma TouchKeepsScopes(s: Snapshot, id: string, p: Payload, now: int)
    ensures ReduceTouch(s, id, p, now).Some? ==> ScopesKept(s, ReduceTouch(s, id, p, now).value)
  {
    var i := TaskIndex(s.tasks, id);
    if i < |s.tasks| {
      TouchKeepsCore(s.tasks[i], p, now);
    }
  }

  lemma TaskKeepsScopes(s: Snapshot, id: string, p: Payload)
    requires p.TaskChange?
    ensures ReduceTask(s, id, p).Some? ==> ScopesKept(s, ReduceTask(s, id, p).value)
  {
  }

  lemma StartedKeepsScopes(s: Snapshot, id: string, p: Payload)
    requires p.AttemptStarted?
    ensures ReduceStarted(s, id, p).Some? ==> ScopesKept(s, ReduceStarted(s, id, p).value)
  {
  }

  lemma RuntimeKeepsScopes(s: Snapshot, runtime: TaskState)
    ensures ReduceRuntime(s, runtime).Some? ==> ScopesKept(s, ReduceRuntime(s, runtime).value)
  {
  }

  lemma WaveKeepsTasks(s: Snapshot, p: Payload)
    requires p.WaveChange?
    ensures ReduceWave(s, p).Some? ==> ReduceWave(s, p).value.tasks == s.tasks && ReduceWave(s, p).value.run.runId == s.run.runId
  {
  }

  /** Branches that leave the tasks alone. */
  predicate TaskFree(p: Payload) {
    p.RunChange? || p.WaveChange? || p.Heartbeat? || p.Undecodable? || p.Inert?
  }

  lemma TaskFreeKeepsTasks(s: Snapshot, ev: Event)
    requires TaskFree(ev.payload)
    ensures Effect(s, ev).Some? ==> Effect(s, ev).value.tasks == s.tasks
  {
    if ev.payload.WaveChange? {
      WaveKeepsTasks(s, ev.payload);
    }
  }

  lemma EffectKeepsScopes(s: Snapshot, ev: Event)
    ensures Effect(s, ev).Some? ==> ScopesKept(s, Effect(s, ev).value)
  {
    if TaskFree(ev.payload) {
      TaskFreeKeepsTasks(s, ev);
    } else if ev.payload.TaskChange? {
      TaskKeepsScopes(s, ev.taskId, ev.payload);
    } else if ev.payload.AttemptStarted? {
      StartedKeepsScopes(s, ev.taskId, ev.payload);
    } else if ev.payload.RuntimeUpdated? {
      RuntimeKeepsScopes(s, ev.payload.runtime);
    } else {
      TouchKeepsScopes(s, ev.taskId, ev.payload, ev.time);
    }
  }

  /** Along any replay, with or without errors tolerated, no task's write scope gets shorter. */
  lemma {:induction false} ReplayKeepsScopes(s: Snapshot, log: seq<Event>)
    requires Replay(s, log).Some?
    ensures ScopesKept(s, Replay(s, log).value)
  {
    if log != [] {
      var n := |log| - 1;
      ReplayKeepsScopes(s, log[..n]);
      var current := Replay(s, log[..n]).value;
      EffectKeepsScopes(Named(current, log[n]), log[n]);
    }
  }
}
