/**
 From an ended worker to the next attempt: the exit matrix (internal/supervisor/execute_task.go:648-713),
 the classes of recovery after a restart (internal/supervisor/recovery.go:42-146, 205-345) and the gate
 in front of a new attempt (internal/supervisor/execute_task.go:24-52).
 */
module Recovery {
  import opened Text
  import opened Attempts
  import Reducer
  import Termination

  // ----- the exit matrix -----

  /** The orphan risk noted before the mapping is replaced by it. */
  datatype Resolution = Resolution(exitObserved: bool, treeConfirmed: bool, remaining: seq<int>)

  /** The facts of the last termination of the session. */
  function Resolved(exitObserved: bool, last: Termination.Report): Resolution {
    Resolution(exitObserved, last.treeExited || last.pidReused, last.remaining)
  }

  function MapWorkerExit(r: Resolution): (Process, bool) {
    if r.remaining != [] then (ProcessOrphaned, true)
    else if r.treeConfirmed then (ProcessExited, false)
    else (ProcessUnknown, true)
  }

  /** Exited is reported exactly for a confirmed tree without survivors, and then without orphan risk. */
  lemma ExitMatrix(r: Resolution)
    ensures MapWorkerExit(r).0 == ProcessExited <==> r.treeConfirmed && r.remaining == []
    ensures MapWorkerExit(r).0 == ProcessExited <==> !MapWorkerExit(r).1
    ensures MapWorkerExit(r).0 == ProcessOrphaned <==> r.remaining != []
  {
  }

  // ----- classes of recovery -----

  datatype Class =
    | AlreadyTerminal | AliveOrphaned | PidWasReused | ExitedResumable | ExitedUnresumable | NeverStarted | MissingIdentity
    | IdentityIncomplete | InspectUnknown

  /** What inspecting the recorded pid gave. */
  datatype Probe = NotFound | ProbeError | Found(same: bool)

  predicate TaskTerminal(ts: TaskState, blockedForGood: bool) {
    match ts.task.status
    case TaskVerifiedSuccess => true
    case TaskVerifiedPartial => true
    case TaskVerificationFailed => true
    case TaskFailed => true
    case TaskCancelled => true
    case TaskBlocked => blockedForGood
    case _ => false
  }

  predicate TaskNeverStarted(ts: TaskState) {
    && ts.worker.None? && ts.active == 0 && ts.attempts == [] && ts.task.status == TaskPlanned
    && (ts.dims.process == ProcessQueued || ts.dims.process == OtherProcess([]))
  }

  function RecordedWorker(ts: TaskState): Option<Worker> {
    if ts.worker.Some? then ts.worker
    else if ts.attempts != [] then Some(ts.attempts[|ts.attempts| - 1].worker)
    else None
  }

  /** Complete tells whether pid and start token of the worker are recorded. */
  function ClassifyRecovery(ts: TaskState, blockedForGood: bool, complete: bool, probe: Probe, resumes: bool): Class {
    if TaskTerminal(ts, blockedForGood) then AlreadyTerminal
    else if TaskNeverStarted(ts) then NeverStarted
    else if RecordedWorker(ts).None? then MissingIdentity
    else if !complete then IdentityIncomplete
    else
      match probe
      case NotFound => if RecordedWorker(ts).value.session != [] && resumes then ExitedResumable else ExitedUnresumable
      case ProbeError => InspectUnknown
      case Found(same) => if same then AliveOrphaned else PidWasReused
  }

  /** Only a typed "not found" on a complete identity proves the exit. */
  lemma ExitNeedsNotFound(ts: TaskState, blockedForGood: bool, complete: bool, probe: Probe, resumes: bool)
    ensures var c := ClassifyRecovery(ts, blockedForGood, complete, probe, resumes);
      c == ExitedResumable || c == ExitedUnresumable <==>
        probe == NotFound && complete && RecordedWorker(ts).Some? && !TaskTerminal(ts, blockedForGood) && !TaskNeverStarted(ts)
  {
  }

  function WithProcess(ts: TaskState, p: Process, both: bool): TaskState {
    ts.(dims := ts.dims.(process := p),
        worker := if both && ts.worker.Some? then Some(ts.worker.value.(dims := ts.worker.value.dims.(process := p))) else ts.worker)
  }

  /** The task fails if its status allows that. */
  function Failing(ts: TaskState): TaskState {
    if Reducer.ValidTaskTransition(ts.task.status, TaskFailed)
    then ts.(task := ts.task.(status := TaskFailed), dims := ts.dims.(task := TaskFailed)) else ts
  }

  /** applyRecoveryDecision. */
  function Applied(ts: TaskState, c: Class, reason: string, now: int): TaskState {
    match c
    case AlreadyTerminal => ts
    case NeverStarted => ts
    case AliveOrphaned => FinishActive(WithProcess(ts, ProcessOrphaned, true), Orphaned, reason, now)
    case PidWasReused => Failing(FinishActive(WithProcess(ts, ProcessUnknown, false), PidReused, reason, now))
    case InspectUnknown =>
      var t := WithProcess(ts, ProcessUnknown, true);
      if t.active > 0 then FinishActive(t, Orphaned, reason, now) else t
    case IdentityIncomplete =>
      var t := WithProcess(ts, ProcessUnknown, true);
      if t.active > 0 then FinishActive(t, Orphaned, reason, now) else t
    case ExitedUnresumable => Failing(FinishActive(WithProcess(ts, ProcessExited, false), Exited, reason, now))
    case MissingIdentity => Failing(FinishActive(WithProcess(ts, ProcessUnknown, false), Orphaned, reason, now))
    case ExitedResumable => FinishActive(WithProcess(ts, ProcessExited, true), Exited, reason, now)
  }

  lemma FinishKeepsDims(ts: TaskState, outcome: Outcome, reason: string, now: int)
    ensures FinishActive(ts, outcome, reason, now).dims == ts.dims
  {
  }

  lemma AppliedProcess(ts: TaskState, c: Class, reason: string, now: int)
    ensures Applied(ts, c, reason, now).dims.process ==
            match c
            case AlreadyTerminal => ts.dims.process
            case NeverStarted => ts.dims.process
            case AliveOrphaned => ProcessOrphaned
            case ExitedUnresumable => ProcessExited
            case ExitedResumable => ProcessExited
            case PidWasReused => ProcessUnknown
            case InspectUnknown => ProcessUnknown
            case IdentityIncomplete => ProcessUnknown
            case MissingIdentity => ProcessUnknown
  {
    match c {
      case AlreadyTerminal =>
      case NeverStarted =>
      case AliveOrphaned => FinishKeepsDims(WithProcess(ts, ProcessOrphaned, true), Orphaned, reason, now);
      case PidWasReused => FinishKeepsDims(WithProcess(ts, ProcessUnknown, false), PidReused, reason, now);
      case InspectUnknown => FinishKeepsDims(WithProcess(ts, ProcessUnknown, true), Orphaned, reason, now);
      case IdentityIncomplete => FinishKeepsDims(WithProcess(ts, ProcessUnknown, true), Orphaned, reason, now);
      case ExitedUnresumable => FinishKeepsDims(WithProcess(ts, ProcessExited, false), Exited, reason, now);
      case MissingIdentity => FinishKeepsDims(WithProcess(ts, ProcessUnknown, false), Orphaned, reason, now);
      case ExitedResumable => FinishKeepsDims(WithProcess(ts, ProcessExited, true), Exited, reason, now);
    }
  }

  // ----- the start gate -----

  /** The mode executeTask opens an attempt with, or none; seen is the caller's copy, latest the reread state. */
  function Gate(seen: TaskState, latest: TaskState, blockedForGood: bool): Option<Mode> {
    if TaskTerminal(seen, blockedForGood) || seen.dims.process == ProcessOrphaned || seen.dims.process == ProcessUnknown then None
    else
      var m := Migrate(latest);
      if m.attempts == [] then Some(Fresh)
      else if m.worker.Some? && m.worker.value.session != [] && m.dims.process == ProcessExited then Some(RecoveryResume)
      else if m.active == 0 then None
      else Some(Fresh)
  }

  /** The gate and Begin together: what is opened, if anything. */
  function Opened(seen: TaskState, latest: TaskState, blockedForGood: bool, seed: Worker, now: int): TaskState {
    match Gate(seen, latest, blockedForGood)
    case None => latest
    case Some(mode) => Started(latest, mode, seed, now)
  }

  predicate IsSecond(latest: TaskState, after: TaskState) {
    Migrate(latest).attempts != [] && |after.attempts| > |Migrate(latest).attempts|
  }

  /** Behind an earlier attempt only a resumption is opened, and only from an exited process. */
  lemma SecondAttemptNeedsExit(seen: TaskState, latest: TaskState, blockedForGood: bool, seed: Worker, now: int)
    requires IsSecond(latest, Opened(seen, latest, blockedForGood, seed, now))
    ensures latest.dims.process == ProcessExited
    ensures Gate(seen, latest, blockedForGood) == Some(RecoveryResume)
  {
  }

  /** The caller's copy shows no reason against a start. */
  predicate MayBegin(seen: TaskState, blockedForGood: bool) {
    && seen.task.status !in {TaskVerifiedSuccess, TaskVerifiedPartial, TaskVerificationFailed, TaskFailed, TaskCancelled}
    && (seen.task.status == TaskBlocked ==> !blockedForGood)
    && seen.dims.process != ProcessOrphaned && seen.dims.process != ProcessUnknown
  }

  /**
   Gate and Begin open an attempt exactly when the caller's copy allows a start, the seed is the task's
   or nobody's, and either nothing was ever attempted or nothing runs, the process has exited and the
   worker has a session to resume.
   */
  lemma OpensIff(seen: TaskState, latest: TaskState, blockedForGood: bool, seed: Worker, now: int)
    ensures var m := Migrate(latest);
      var after := Opened(seen, latest, blockedForGood, seed, now);
      |after.attempts| == |m.attempts| + 1 <==>
        && MayBegin(seen, blockedForGood) && (seed.taskId == [] || seed.taskId == latest.task.id)
        && (m.attempts != [] ==>
              && (forall i :: 0 <= i < |m.attempts| ==> m.attempts[i].outcome != Running)
              && latest.dims.process == ProcessExited && m.worker.Some? && m.worker.value.session != [])
  {
    var m := Migrate(latest);
    RunningOrNot(m.attempts);
    assert TaskTerminal(seen, blockedForGood) || seen.dims.process == ProcessOrphaned || seen.dims.process == ProcessUnknown <==>
           !MayBegin(seen, blockedForGood);
    assert m.dims == latest.dims && m.task == latest.task;
    match Gate(seen, latest, blockedForGood) {
      case None => assert |latest.attempts| <= |m.attempts|;
      case Some(mode) =>
        assert |Started(latest, mode, seed, now).attempts| == |m.attempts| + 1 <==>
               !SomeRunning(m.attempts) && ModeFits(mode, m.attempts) && OwnerFits(m.task.id, seed);
    }
  }

  lemma RunningOrNot(history: seq<Attempt>)
    ensures SomeRunning(history) <==> exists i :: 0 <= i < |history| && history[i].outcome == Running
  {
    if i :| 0 <= i < |history| && history[i].outcome == Running {
      assert RunningAt(history, i);
    }
  }

  // ----- evidence over whole lives -----

  datatype Evidence = ByInspection(log: seq<Termination.Act>) | ByNotFound

  predicate Sound(e: Evidence) {
    e.ByInspection? ==> Termination.EndsExited(e.log)
  }

  /** The task and, for an exited process, what it was reported on. */
  datatype State = State(ts: TaskState, evidence: Option<Evidence>)

  datatype Step =
    | SessionEnds(exitObserved: bool, last: Termination.Report, log: seq<Termination.Act>)
    | Recover(blockedForGood: bool, complete: bool, probe: Probe, resumes: bool, reason: string, at: int)
    | Open(seen: TaskState, finalBlock: bool, seed: Worker, now: int)
    | Finish(outcome: Outcome, why: string, when: int)
    | Report(process: Process)

  function Next(s: State, step: Step): State {
    match step
    case SessionEnds(exitObserved, last, log) =>
      var p := MapWorkerExit(Resolved(exitObserved, last)).0;
      State(WithProcess(s.ts, p, true), if p == ProcessExited then Some(ByInspection(log)) else None)
    case Recover(blocked, complete, probe, resumes, reason, at) =>
      var c := ClassifyRecovery(s.ts, blocked, complete, probe, resumes);
      var t := Applied(s.ts, c, reason, at);
      State(t, if c == AlreadyTerminal || c == NeverStarted then s.evidence
               else if c == ExitedResumable || c == ExitedUnresumable then Some(ByNotFound) else None)
    case Open(seen, blocked, seed, now) => State(Opened(seen, s.ts, blocked, seed, now), s.evidence)
    case Finish(outcome, why, when) => State(FinishActive(s.ts, outcome, why, when), s.evidence)
    case Report(p) => State(WithProcess(s.ts, p, true), None)
  }

  /** The end of a session: survivors mean orphaned, a confirmed tree exited, anything else unknown; the worker is told. */
  lemma SessionEndIsTold(s: State, exitObserved: bool, last: Termination.Report, log: seq<Termination.Act>)
    ensures var r := Next(s, SessionEnds(exitObserved, last, log));
      var p := if last.remaining != [] then ProcessOrphaned
               else if last.treeExited || last.pidReused then ProcessExited
               else ProcessUnknown;
      && r.ts.dims == s.ts.dims.(process := p) && r.evidence == (if p == ProcessExited then Some(ByInspection(log)) else None)
      && r.ts.worker.Some? == s.ts.worker.Some?
      && (s.ts.worker.Some? ==> r.ts.worker.value == s.ts.worker.value.(dims := s.ts.worker.value.dims.(process := p)))
  {
  }

  /** The attempt the task names as running. */
  predicate HasActive(ts: TaskState) {
    ts.active > 0 && Position(ts.attempts, ts.active) < |ts.attempts|
  }

  /** The attempt that was active has ended like this, its worker is the task's, and none is active any more. */
  predicate EndedAs(before: TaskState, after: TaskState, outcome: Outcome) {
    var i := Position(before.attempts, before.active);
    HasActive(before) ==>
      && |after.attempts| == |before.attempts| && after.attempts[i].outcome == outcome && after.active == 0
      && after.worker == Some(before.attempts[i].worker)
  }

  /** Without an active attempt the history stays and the worker, if it is told, has the process state too. */
  predicate WorkerTold(before: TaskState, after: TaskState, p: Process, told: bool) {
    !HasActive(before) && before.attempts != [] ==>
      && after.attempts == before.attempts
      && after.worker == if told && before.worker.Some?
                         then Some(before.worker.value.(dims := before.worker.value.dims.(process := p))) else before.worker
  }

  predicate StatusKept(before: TaskState, after: TaskState) {
    after.task == before.task && after.dims.task == before.dims.task
  }

  /** Failed, unless the task is being verified or in a status of no meaning. */
  predicate FailedIfAllowed(before: TaskState, after: TaskState) {
    if before.task.status in {TaskPlanned, TaskRunning, TaskBlocked, TaskReportedComplete}
    then after.task == before.task.(status := TaskFailed) && after.dims.task == TaskFailed
    else StatusKept(before, after)
  }

  lemma FinishEnds(ts: TaskState, outcome: Outcome, reason: string, now: int)
    ensures EndedAs(ts, FinishActive(ts, outcome, reason, now), outcome)
    ensures StatusKept(ts, FinishActive(ts, outcome, reason, now))
    ensures FinishActive(ts, outcome, reason, now).dims == ts.dims
    ensures !HasActive(ts) && ts.attempts != [] ==> FinishActive(ts, outcome, reason, now) == ts
  {
  }

  lemma FailingFails(before: TaskState, t: TaskState)
    requires StatusKept(before, t) && !TaskTerminal(before, false)
    ensures FailedIfAllowed(before, Failing(t))
    ensures Failing(t).attempts == t.attempts && Failing(t).active == t.active && Failing(t).worker == t.worker
  {
  }

  /** The task has come to an end, as far as recovery is concerned. */
  predicate HasEnded(ts: TaskState, blockedForGood: bool) {
    || ts.task.status in {TaskVerifiedSuccess, TaskVerifiedPartial, TaskVerificationFailed, TaskFailed, TaskCancelled}
    || (ts.task.status == TaskBlocked && blockedForGood)
  }

  /** The worker of the task, or of its last attempt when the task has none. */
  predicate WorkedBy(ts: TaskState, w: Worker) {
    ts.worker == Some(w) || (ts.worker.None? && ts.attempts != [] && ts.attempts[|ts.attempts| - 1].worker == w)
  }

  /** What recovery has made of a task: process state, the outcome of its attempt, whether the worker was told, whether it may fail. */
  predicate RecoveredAs(before: TaskState, after: TaskState, p: Process, outcome: Outcome, told: bool, fails: bool) {
    && after.dims.process == p && EndedAs(before, after, outcome) && WorkerTold(before, after, p, told)
    && if fails then FailedIfAllowed(before, after) else StatusKept(before, after)
  }

  /** Inspecting found the recorded process, another one, none, or did not work. */
  lemma RecoveryByProbe(s: State, blocked: bool, w: Worker, probe: Probe, resumes: bool, reason: string, at: int)
    requires !HasEnded(s.ts, blocked) && WorkedBy(s.ts, w)
    ensures var r := Next(s, Recover(blocked, true, probe, resumes, reason, at));
      match probe
      case Found(same) =>
        && r.evidence.None?
        && if same then RecoveredAs(s.ts, r.ts, ProcessOrphaned, Orphaned, true, false)
           else RecoveredAs(s.ts, r.ts, ProcessUnknown, PidReused, false, true)
      case NotFound =>
        && r.evidence == Some(ByNotFound)
        && if w.session != [] && resumes then RecoveredAs(s.ts, r.ts, ProcessExited, Exited, true, false)
           else RecoveredAs(s.ts, r.ts, ProcessExited, Exited, false, true)
      case ProbeError => r.evidence.None? && RecoveredAs(s.ts, r.ts, ProcessUnknown, Orphaned, true, false)
  {
    var c := ClassifyRecovery(s.ts, blocked, true, probe, resumes);
    AppliedProcess(s.ts, c, reason, at);
    AppliedEnds(s.ts, c, reason, at);
  }

  /** Without a complete identity nothing is inspected. */
  lemma RecoveryWithoutIdentity(s: State, blocked: bool, w: Worker, probe: Probe, resumes: bool, reason: string, at: int)
    requires !HasEnded(s.ts, blocked) && WorkedBy(s.ts, w)
    ensures var r := Next(s, Recover(blocked, false, probe, resumes, reason, at));
      r.evidence.None? && RecoveredAs(s.ts, r.ts, ProcessUnknown, Orphaned, true, false)
  {
    var c := ClassifyRecovery(s.ts, blocked, false, probe, resumes);
    AppliedProcess(s.ts, c, reason, at);
    AppliedEnds(s.ts, c, reason, at);
  }

  /** Without any record of a worker the task fails, unless it shows no sign of ever having started; one that has ended stays. */
  lemma RecoveryWithoutWorker(s: State, blocked: bool, complete: bool, probe: Probe, resumes: bool, reason: string, at: int)
    requires HasEnded(s.ts, blocked) || (s.ts.worker.None? && s.ts.attempts == [])
    ensures var r := Next(s, Recover(blocked, complete, probe, resumes, reason, at));
      var untouched := s.ts.task.status == TaskPlanned && s.ts.active == 0 && s.ts.dims.process in {ProcessQueued, OtherProcess([])};
      if HasEnded(s.ts, blocked) || untouched then r == s
      else r.evidence.None? && RecoveredAs(s.ts, r.ts, ProcessUnknown, Orphaned, false, true)
  {
    var c := ClassifyRecovery(s.ts, blocked, complete, probe, resumes);
    AppliedProcess(s.ts, c, reason, at);
    if c != NeverStarted && c != AlreadyTerminal {
      AppliedEnds(s.ts, c, reason, at);
    }
  }

  lemma AppliedEnds(ts: TaskState, c: Class, reason: string, now: int)
    requires c != AlreadyTerminal && c != NeverStarted && !TaskTerminal(ts, false)
    ensures var t := Applied(ts, c, reason, now);
      var fails := c == PidWasReused || c == ExitedUnresumable || c == MissingIdentity;
      && EndedAs(ts, t, if c == PidWasReused then PidReused else if c == ExitedResumable || c == ExitedUnresumable then Exited else Orphaned)
      && (if fails then FailedIfAllowed(ts, t) else StatusKept(ts, t))
      && WorkerTold(ts, t, t.dims.process, !fails)
  {
    match c {
      case AliveOrphaned => FinishEnds(WithProcess(ts, ProcessOrphaned, true), Orphaned, reason, now);
      case PidWasReused =>
        FinishEnds(WithProcess(ts, ProcessUnknown, false), PidReused, reason, now);
        FailingFails(ts, FinishActive(WithProcess(ts, ProcessUnknown, false), PidReused, reason, now));
      case InspectUnknown => FinishEnds(WithProcess(ts, ProcessUnknown, true), Orphaned, reason, now);
      case IdentityIncomplete => FinishEnds(WithProcess(ts, ProcessUnknown, true), Orphaned, reason, now);
      case ExitedUnresumable =>
        FinishEnds(WithProcess(ts, ProcessExited, false), Exited, reason, now);
        FailingFails(ts, FinishActive(WithProcess(ts, ProcessExited, false), Exited, reason, now));
      case MissingIdentity =>
        FinishEnds(WithProcess(ts, ProcessUnknown, false), Orphaned, reason, now);
        FailingFails(ts, FinishActive(WithProcess(ts, ProcessUnknown, false), Orphaned, reason, now));
      case ExitedResumable => FinishEnds(WithProcess(ts, ProcessExited, true), Exited, reason, now);
    }
  }

  /**
   A confirmed exit comes from the controller, whose reports are honest; what the session notes for an
   incomplete identity confirms nothing. New workers and ordinary process reports do not claim that a
   process has exited.
   */
  predicate Lawful(step: Step) {
    match step
    case SessionEnds(_, last, log) => last.treeExited || last.pidReused ==> Termination.EndsExited(log)
    case Recover(_, _, _, _, _, _) => true
    case Open(_, _, seed, _) => seed.dims.process != ProcessExited
    case Finish(_, _, _) => true
    case Report(p) => p != ProcessExited
  }

  /** So every report of the controller is lawful, and so is one that confirms nothing. */
  lemma ControllerReportsAreLawful(exitObserved: bool, last: Termination.Report, log: seq<Termination.Act>)
    ensures Termination.Honest(log, last) ==> Lawful(SessionEnds(exitObserved, last, log))
    ensures !last.treeExited && !last.pidReused ==> Lawful(SessionEnds(exitObserved, last, log))
  {
  }

  /** An exited process state has sound evidence. */
  predicate Backed(s: State) {
    s.ts.dims.process == ProcessExited ==> s.evidence.Some? && Sound(s.evidence.value)
  }

  lemma OpenKeepsBacked(s: State, seen: TaskState, blocked: bool, seed: Worker, now: int)
    requires Backed(s) && seed.dims.process != ProcessExited
    ensures Backed(Next(s, Open(seen, blocked, seed, now)))
  {
  }

  lemma NextKeepsBacked(s: State, step: Step)
    requires Backed(s) && Lawful(step)
    ensures Backed(Next(s, step))
  {
    match step {
      case SessionEnds(exitObserved, last, log) => ExitMatrix(Resolved(exitObserved, last));
      case Recover(blocked, complete, probe, resumes, reason, at) =>
        AppliedProcess(s.ts, ClassifyRecovery(s.ts, blocked, complete, probe, resumes), reason, at);
      case Open(seen, blocked, seed, now) => OpenKeepsBacked(s, seen, blocked, seed, now);
      case Finish(outcome, why, when) => FinishKeepsDims(s.ts, outcome, why, when);
      case Report(p) =>
    }
  }

  function Run(s: State, steps: seq<Step>): State {
    if steps == [] then s else Next(Run(s, steps[..|steps| - 1]), steps[|steps| - 1])
  }

  lemma {:induction false} RunKeepsBacked(s: State, steps: seq<Step>)
    requires Backed(s) && forall i :: 0 <= i < |steps| ==> Lawful(steps[i])
    ensures Backed(Run(s, steps))
  {
    if steps != [] {
      RunKeepsBacked(s, steps[..|steps| - 1]);
      NextKeepsBacked(Run(s, steps[..|steps| - 1]), steps[|steps| - 1]);
    }
  }

  /**
   A second attempt starts only from an exited state whose evidence is an inspection that found the
   tree gone or the pid reused, or a typed "not found".
   */
  lemma {:induction false} SecondAttemptIsBacked(s: State, steps: seq<Step>, seen: TaskState, blocked: bool, seed: Worker, now: int)
    requires s.ts.dims.process != ProcessExited && forall i :: 0 <= i < |steps| ==> Lawful(steps[i])
    requires IsSecond(Run(s, steps).ts, Opened(seen, Run(s, steps).ts, blocked, seed, now))
    ensures Run(s, steps).ts.dims.process == ProcessExited
    ensures Run(s, steps).evidence.Some? && Sound(Run(s, steps).evidence.value)
  {
    RunKeepsBacked(s, steps);
    SecondAttemptNeedsExit(seen, Run(s, steps).ts, blocked, seed, now);
  }
}
