/**
 Worker attempts of a task (internal/worker/attempt.go:42-145, internal/supervisor/recovery.go:346-401,
 internal/supervisor/execute_task.go:88-137, 821-831): numbered, at most one running, and a resumed
 attempt keeps the session it resumes.
 */
module Attempts {
  import opened Text

  datatype Process = ProcessQueued | ProcessStarting | ProcessAlive | ProcessExited | ProcessOrphaned | ProcessUnknown
                   | OtherProcess(name: string)

  datatype TaskStatus =
    | NoTaskStatus | TaskPlanned | TaskRunning | TaskBlocked | TaskReportedComplete | TaskVerifying | TaskVerifiedSuccess
    | TaskVerifiedPartial | TaskVerificationFailed | TaskFailed | TaskCancelled | OtherTask(name: string)

  datatype Progress = Active | Quiet | SuspectedStall | Stalled | UnknownProgress | OtherProgress(name: string)

  datatype Dimensions = Dimensions(process: Process, protocol: string, progress: Progress, task: TaskStatus)

  datatype Mode = NoMode | Fresh | RecoveryResume | ExplicitRetry | OtherMode(name: string)

  datatype Outcome = Running | Exited | Orphaned | PidReused | FailedStart | OtherOutcome(name: string)

  /** The rest of a worker session, which no rule here looks at, is one value. */
  datatype Worker = Worker(workerId: string, taskId: string, session: string, attempt: int, mode: Mode, exitCode: Option<int>,
                           startedAt: int, endedAt: Option<int>, lastProgressAt: int, dims: Dimensions, details: string)

  datatype Attempt = Attempt(number: int, mode: Mode, worker: Worker, outcome: Outcome, startedAt: int, endedAt: Option<int>,
                             reason: string)

  datatype Core = Core(id: string, wave: string, status: TaskStatus, writeScope: seq<string>, allowPublic: bool, contract: string)

  datatype Report = Report(identity: string, stale: bool)

  datatype Stall = Stall(assessment: string, evaluatedAt: int)

  /** Termination facts of the worker process and the process state they led to. */
  datatype Evidence = Evidence(facts: string, process: Process)

  datatype TaskState = TaskState(task: Core, worker: Option<Worker>, attempts: seq<Attempt>, active: int, dims: Dimensions,
                                 report: Option<Report>, stall: Option<Stall>, evidence: Option<Evidence>, lastProgress: int,
                                 details: string)

  // ----- the attempt package -----

  function MaxNumber(history: seq<Attempt>): (m: nat)
    ensures forall i :: 0 <= i < |history| ==> history[i].number <= m
  {
    if history == [] then 0
    else
      var n := |history| - 1;
      var m := MaxNumber(history[..n]);
      assert forall i :: 0 <= i < n ==> history[..n][i] == history[i];
      if history[n].number > m then history[n].number else m
  }

  method NextNumber(history: seq<Attempt>) returns (number: int)
    ensures number == MaxNumber(history) + 1
    ensures forall i :: 0 <= i < |history| ==> history[i].number < number
  {
    var max := 0;
    for i := 0 to |history|
      invariant max == MaxNumber(history[..i])
    {
      assert history[..i + 1][..i] == history[..i];
      if history[i].number > max {
        max := history[i].number;
      }
    }
    assert history[..|history|] == history;
    number := max + 1;
  }

  predicate RunningAt(history: seq<Attempt>, i: int) {
    0 <= i < |history| && history[i].outcome == Running
  }

  predicate SomeRunning(history: seq<Attempt>) {
    exists i :: 0 <= i < |history| && RunningAt(history, i)
  }

  datatype Finding = Nothing | Single(attempt: Attempt) | Several

  /** The single running attempt; an error when there are two. */
  method FindActive(history: seq<Attempt>) returns (found: Finding)
    ensures found == Nothing <==> !SomeRunning(history)
    ensures found.Single? ==>
              exists i :: RunningAt(history, i) && history[i] == found.attempt && forall j :: RunningAt(history, j) ==> j == i
    ensures found == Several <==> exists i, j :: RunningAt(history, i) && RunningAt(history, j) && i != j
  {
    found := Nothing;
    ghost var at := -1;
    for i := 0 to |history|
      invariant found != Several
      invariant found == Nothing ==> forall j :: 0 <= j < i ==> !RunningAt(history, j)
      invariant found.Single? ==> 0 <= at < i && RunningAt(history, at) && history[at] == found.attempt
      invariant found.Single? ==> forall j :: 0 <= j < i && RunningAt(history, j) ==> j == at
    {
      if history[i].outcome == Running {
        assert RunningAt(history, i);
        if found.Single? {
          return Several;
        }
        found := Single(history[i]);
        at := i;
      }
    }
  }

  /** The last session id that is known. */
  function LatestSession(history: seq<Attempt>): string {
    if history == [] then []
    else
      var n := |history| - 1;
      if history[n].worker.session != [] then history[n].worker.session else LatestSession(history[..n])
  }

  method SearchSession(history: seq<Attempt>) returns (session: string)
    ensures session == LatestSession(history)
  {
    var i := |history|;
    assert history[..i] == history;
    while i > 0
      invariant 0 <= i <= |history|
      invariant LatestSession(history) == LatestSession(history[..i])
    {
      assert history[..i][..i - 1] == history[..i - 1];
      if history[i - 1].worker.session != [] {
        return history[i - 1].worker.session;
      }
      i := i - 1;
    }
    session := [];
  }

  predicate ModeFits(mode: Mode, history: seq<Attempt>) {
    match mode
    case Fresh => history == []
    case RecoveryResume => history != []
    case ExplicitRetry => history != []
    case NoMode => false
    case OtherMode(_) => false
  }

  predicate OwnerFits(taskId: string, w: Worker) {
    w.taskId == [] || w.taskId == taskId
  }

  /** The worker record of the new attempt. */
  function Seeded(taskId: string, history: seq<Attempt>, mode: Mode, w: Worker): Worker {
    w.(taskId := taskId, attempt := MaxNumber(history) + 1, mode := mode,
       session := if mode == RecoveryResume && w.session == [] then LatestSession(history) else w.session)
  }

  /** Begin succeeds exactly when nothing runs, the mode fits the history and the worker is the task's. */
  method Begin(taskId: string, history: seq<Attempt>, mode: Mode, worker: Worker, now: int) returns (r: Option<Attempt>)
    ensures r.Some? <==> !SomeRunning(history) && ModeFits(mode, history) && OwnerFits(taskId, worker)
    ensures r.Some? ==>
              r.value == Attempt(MaxNumber(history) + 1, mode, Seeded(taskId, history, mode, worker), Running, now, None, [])
  {
    var active := FindActive(history);
    if active != Nothing {
      return None;
    }
    match mode {
      case Fresh =>
        if |history| > 0 {
          return None;
        }
      case RecoveryResume | ExplicitRetry =>
        if |history| == 0 {
          return None;
        }
      case _ => return None;
    }
    var w := worker;
    if w.taskId == [] {
      w := w.(taskId := taskId);
    }
    if w.taskId != taskId {
      return None;
    }
    if mode == RecoveryResume && w.session == [] {
      var latest := SearchSession(history);
      w := w.(session := latest);
    }
    var number := NextNumber(history);
    w := w.(attempt := number, mode := mode);
    r := Some(Attempt(number, mode, w, Running, now, None, []));
  }

  predicate Terminal(o: Outcome) {
    o == Exited || o == Orphaned || o == PidReused || o == FailedStart
  }

  /** Finish refuses a finished attempt and an outcome that is not terminal. */
  function Finish(a: Attempt, outcome: Outcome, reason: string, now: int): (r: Option<Attempt>)
    ensures r.Some? <==> a.outcome == Running && outcome in {Exited, Orphaned, PidReused, FailedStart}
    ensures r.Some? ==> r.value.outcome == outcome && r.value.number == a.number && r.value.worker == a.worker && r.value.mode == a.mode
  {
    if a.outcome != Running || !Terminal(outcome) then None
    else Some(a.(outcome := outcome, reason := reason, endedAt := Some(now)))
  }

  // ----- the task's history -----

  function Migrate(ts: TaskState): TaskState {
    if ts.attempts != [] || ts.worker.None? then ts
    else
      var w := ts.worker.value;
      var number := if w.attempt <= 0 then 1 else w.attempt;
      var outcome :=
        if ts.dims.process == ProcessOrphaned then Orphaned
        else if w.exitCode.Some? || ts.dims.process == ProcessExited then Exited
        else Running;
      ts.(attempts := [Attempt(number, if w.mode == NoMode then Fresh else w.mode, w, outcome, w.startedAt, w.endedAt, [])],
          active := if outcome == Running then number else ts.active)
  }

  /** Position of the attempt with the number, or the length. */
  function Position(history: seq<Attempt>, number: int): (i: nat)
    ensures i <= |history|
    ensures i < |history| ==> history[i].number == number
    ensures forall k :: 0 <= k < i ==> history[k].number != number
  {
    if history == [] then 0
    else if history[0].number == number then 0
    else 1 + Position(history[1..], number)
  }

  /** The attempt as it is left: Finish when that applies, the fields overwritten when it does not. */
  function Ended(a: Attempt, outcome: Outcome, reason: string, now: int): Attempt {
    a.(outcome := outcome, reason := reason, endedAt := Some(now))
  }

  function FinishActive(ts: TaskState, outcome: Outcome, reason: string, now: int): TaskState {
    var m := Migrate(ts);
    var i := Position(m.attempts, m.active);
    if m.active <= 0 || i == |m.attempts| then m
    else
      m.(attempts := m.attempts[i := Ended(m.attempts[i], outcome, reason, now)], worker := Some(m.attempts[i].worker), active := 0)
  }

  /** executeTask opening an attempt: refused, or appended and made the active one. */
  function Started(ts: TaskState, mode: Mode, seed: Worker, now: int): TaskState {
    var m := Migrate(ts);
    if SomeRunning(m.attempts) || !ModeFits(mode, m.attempts) || !OwnerFits(m.task.id, seed) then m
    else
      var w := Seeded(m.task.id, m.attempts, mode, seed);
      m.(attempts := m.attempts + [Attempt(MaxNumber(m.attempts) + 1, mode, w, Running, now, None, [])],
         active := MaxNumber(m.attempts) + 1, worker := Some(w), dims := w.dims, lastProgress := w.lastProgressAt,
         report := if m.report.Some? then Some(m.report.value.(stale := true)) else None)
  }

  /** updateAttemptWorker, after the task's own worker was updated. */
  function Updated(ts: TaskState, w: Worker): TaskState {
    var i := Position(ts.attempts, ts.active);
    var t := ts.(worker := Some(w));
    if ts.active <= 0 || i == |ts.attempts| then t else t.(attempts := t.attempts[i := t.attempts[i].(worker := w)])
  }

  /** A task's record, changed in place. */
  class TaskCell {
    var ts: TaskState

    constructor (ts: TaskState)
      ensures this.ts == ts
    {
      this.ts := ts;
    }

    method MigrateAttempts()
      modifies this
      ensures ts == Migrate(old(ts))
    {
      if ts.attempts != [] || ts.worker.None? {
        return;
      }
      var w := ts.worker.value;
      var mode := if w.mode != NoMode then w.mode else Fresh;
      var number := w.attempt;
      if number <= 0 {
        number := 1;
      }
      var outcome := Running;
      if w.exitCode.Some? || ts.dims.process == ProcessExited {
        outcome := Exited;
      }
      if ts.dims.process == ProcessOrphaned {
        outcome := Orphaned;
      }
      ts := ts.(attempts := [Attempt(number, mode, w, outcome, w.startedAt, w.endedAt, [])]);
      if outcome == Running {
        ts := ts.(active := number);
      }
    }

    method FinishActiveAttempt(outcome: Outcome, reason: string, now: int)
      modifies this
      ensures ts == FinishActive(old(ts), outcome, reason, now)
    {
      MigrateAttempts();
      if ts.active <= 0 {
        return;
      }
      ghost var m := ts;
      for i := 0 to |ts.attempts|
        invariant ts == m
        invariant forall k :: 0 <= k < i ==> ts.attempts[k].number != ts.active
      {
        if ts.attempts[i].number == ts.active {
          PositionIs(ts.attempts, ts.active, i);
          var finished := Finish(ts.attempts[i], outcome, reason, now);
          var ended := if finished.Some? then finished.value
                       else ts.attempts[i].(outcome := outcome, reason := reason, endedAt := Some(now));
          ts := ts.(attempts := ts.attempts[i := ended], worker := Some(ts.attempts[i].worker), active := 0);
          return;
        }
      }
    }

    method StartAttempt(mode: Mode, seed: Worker, now: int) returns (ok: bool)
      modifies this
      ensures ts == Started(old(ts), mode, seed, now)
      ensures ok ==> ts.active > 0 && ts.attempts != [] && ts.attempts[|ts.attempts| - 1].outcome == Running
      ensures !ok ==> ts == Migrate(old(ts))
    {
      MigrateAttempts();
      var attempt := Begin(ts.task.id, ts.attempts, mode, seed, now);
      if attempt.None? {
        return false;
      }
      var w := attempt.value.worker;
      ts := ts.(attempts := ts.attempts + [attempt.value], active := attempt.value.number, worker := Some(w), dims := w.dims,
                lastProgress := w.lastProgressAt);
      if ts.report.Some? {
        ts := ts.(report := Some(ts.report.value.(stale := true)));
      }
      ok := true;
    }
  }

  lemma {:induction false} PositionIs(history: seq<Attempt>, number: int, i: nat)
    requires i < |history| && history[i].number == number && forall k :: 0 <= k < i ==> history[k].number != number
    ensures Position(history, number) == i
  {
  }

  // ----- what every history keeps -----

  predicate Increasing(history: seq<Attempt>) {
    && (forall i :: 0 <= i < |history| ==> history[i].number >= 1)
    && (forall i, j :: 0 <= i < j < |history| ==> history[i].number < history[j].number)
  }

  predicate FreshOnlyFirst(history: seq<Attempt>) {
    forall i :: 0 < i < |history| ==> history[i].mode != Fresh
  }

  /** At most one attempt runs; it is the last one and the one named active. */
  ghost predicate ActiveIsLast(ts: TaskState) {
    && (forall i :: RunningAt(ts.attempts, i) ==> i == |ts.attempts| - 1 && ts.active == ts.attempts[i].number)
    && (ts.active != 0 ==> RunningAt(ts.attempts, |ts.attempts| - 1) && ts.attempts[|ts.attempts| - 1].number == ts.active)
  }

  /** Behind an attempt with a known session no resumed attempt is without one. */
  predicate SessionsKept(history: seq<Attempt>) {
    forall i, j :: 0 <= i < j < |history| && history[j].mode == RecoveryResume && history[i].worker.session != [] ==>
      history[j].worker.session != []
  }

  ghost predicate HistoryFits(ts: TaskState) {
    Increasing(ts.attempts) && FreshOnlyFirst(ts.attempts) && ActiveIsLast(ts) && SessionsKept(ts.attempts)
  }

  lemma MigrateKeepsHistory(ts: TaskState)
    requires HistoryFits(ts)
    ensures HistoryFits(Migrate(ts))
  {
  }

  lemma {:induction false} LatestSessionKnown(history: seq<Attempt>, i: nat)
    requires i < |history| && history[i].worker.session != []
    ensures LatestSession(history) != []
  {
    var n := |history| - 1;
    if i < n {
      LatestSessionKnown(history[..n], i);
    }
  }

  lemma StartKeepsHistory(ts: TaskState, mode: Mode, seed: Worker, now: int)
    requires HistoryFits(ts)
    ensures HistoryFits(Started(ts, mode, seed, now))
  {
    MigrateKeepsHistory(ts);
    var m, t := Migrate(ts), Started(ts, mode, seed, now);
    if !SomeRunning(m.attempts) && ModeFits(mode, m.attempts) && OwnerFits(m.task.id, seed) {
      var a := t.attempts[|m.attempts|];
      forall i | 0 <= i < |m.attempts| && mode == RecoveryResume && m.attempts[i].worker.session != []
        ensures a.worker.session != []
      {
        LatestSessionKnown(m.attempts, i);
      }
      AppendedFits(m, t, a);
    }
  }

  /** A larger number, not fresh unless first, running and active, with a session if one is owed. */
  lemma AppendedFits(m: TaskState, t: TaskState, a: Attempt)
    requires HistoryFits(m) && !SomeRunning(m.attempts) && t.attempts == m.attempts + [a]
    requires a.number == MaxNumber(m.attempts) + 1 == t.active && a.outcome == Running && (a.mode == Fresh ==> m.attempts == [])
    requires a.mode == RecoveryResume ==>
               forall i :: 0 <= i < |m.attempts| && m.attempts[i].worker.session != [] ==> a.worker.session != []
    ensures HistoryFits(t)
  {
    AppendedOrder(m.attempts, a);
    AppendedSession(m.attempts, a);
    AppendedRuns(m.attempts, a);
  }

  lemma AppendedRuns(history: seq<Attempt>, a: Attempt)
    requires !SomeRunning(history) && a.outcome == Running
    ensures forall i :: RunningAt(history + [a], i) <==> i == |history|
  {
    forall i
      ensures RunningAt(history + [a], i) <==> i == |history|
    {
      assert 0 <= i < |history| ==> !RunningAt(history, i);
    }
  }

  lemma {:induction false} AppendedOrder(history: seq<Attempt>, a: Attempt)
    requires Increasing(history) && FreshOnlyFirst(history)
    requires a.number == MaxNumber(history) + 1 && (a.mode == Fresh ==> history == [])
    ensures Increasing(history + [a]) && FreshOnlyFirst(history + [a])
  {
  }

  lemma AppendedSession(history: seq<Attempt>, a: Attempt)
    requires SessionsKept(history)
    requires a.mode == RecoveryResume ==>
               forall i :: 0 <= i < |history| && history[i].worker.session != [] ==> a.worker.session != []
    ensures SessionsKept(history + [a])
  {
  }

  lemma {:induction false} PositionOfLast(history: seq<Attempt>)
    requires history != [] && Increasing(history)
    ensures Position(history, history[|history| - 1].number) == |history| - 1
  {
    PositionIs(history, history[|history| - 1].number, |history| - 1);
  }

  /** Ending the active attempt keeps the history in order exactly when the outcome is not "running". */
  lemma FinishKeepsHistoryIff(ts: TaskState, outcome: Outcome, reason: string, now: int)
    requires HistoryFits(ts)
    ensures HistoryFits(FinishActive(ts, outcome, reason, now)) <==> outcome != Running || Migrate(ts).active == 0
  {
    MigrateKeepsHistory(ts);
    if Migrate(ts).active != 0 {
      FinishEndsLast(ts, outcome, reason, now);
      EndedFits(Migrate(ts), FinishActive(ts, outcome, reason, now));
    }
  }

  /** It is the last attempt that ends, and nothing else of the history changes. */
  lemma FinishEndsLast(ts: TaskState, outcome: Outcome, reason: string, now: int)
    requires HistoryFits(Migrate(ts)) && Migrate(ts).active != 0
    ensures var m, t := Migrate(ts), FinishActive(ts, outcome, reason, now);
      var n := |m.attempts| - 1;
      && n >= 0 && t.active == 0 && t.attempts == m.attempts[..n] + [Ended(m.attempts[n], outcome, reason, now)]
      && t.worker == Some(m.attempts[n].worker)
  {
    PositionOfLast(Migrate(ts).attempts);
  }

  lemma EndedFits(m: TaskState, t: TaskState)
    requires HistoryFits(m) && m.attempts != [] && t.active == 0 && |t.attempts| == |m.attempts|
    requires forall i :: 0 <= i < |m.attempts| - 1 ==> t.attempts[i] == m.attempts[i]
    requires var n := |m.attempts| - 1;
      t.attempts[n].number == m.attempts[n].number && t.attempts[n].mode == m.attempts[n].mode && t.attempts[n].worker == m.attempts[n].worker
    ensures HistoryFits(t) <==> t.attempts[|t.attempts| - 1].outcome != Running
  {
    var n := |m.attempts| - 1;
    assert forall i :: RunningAt(t.attempts, i) && i != n ==> RunningAt(m.attempts, i);
    if t.attempts[n].outcome == Running {
      assert RunningAt(t.attempts, n);
    }
  }

  /** The running attempt resumes a history in which a session is known. */
  ghost predicate OwesSession(ts: TaskState) {
    && ts.active != 0 && ts.attempts != [] && ts.attempts[|ts.attempts| - 1].mode == RecoveryResume
    && exists i :: 0 <= i < |ts.attempts| - 1 && ts.attempts[i].worker.session != []
  }

  /** An update keeps the history in order exactly when it does not clear a session a resumed attempt owes. */
  lemma UpdateKeepsHistoryIff(ts: TaskState, w: Worker)
    requires HistoryFits(ts)
    ensures HistoryFits(Updated(ts, w)) <==> !(OwesSession(ts) && w.session == [])
  {
    if ts.active != 0 {
      PositionOfLast(ts.attempts);
      UpdatedLast(ts, Updated(ts, w), w);
    }
  }

  lemma UpdatedLast(ts: TaskState, t: TaskState, w: Worker)
    requires HistoryFits(ts) && ts.active != 0 && t.active == ts.active
    requires var n := |ts.attempts| - 1; t.attempts == ts.attempts[n := ts.attempts[n].(worker := w)]
    ensures HistoryFits(t) <==> !(OwesSession(ts) && w.session == [])
  {
    var n := |ts.attempts| - 1;
    assert forall i :: 0 <= i < n ==> t.attempts[i] == ts.attempts[i];
    assert forall i :: RunningAt(t.attempts, i) <==> RunningAt(ts.attempts, i);
    if OwesSession(ts) && w.session == [] {
      var i :| 0 <= i < n && ts.attempts[i].worker.session != [];
      assert t.attempts[i].worker.session != [] && t.attempts[n].mode == RecoveryResume && t.attempts[n].worker.session == [];
    }
  }

  // ----- whole lives -----

  datatype Step =
    | Start(mode: Mode, seed: Worker, now: int)
    | End(outcome: Outcome, reason: string, at: int)
    | Update(worker: Worker)
    | Load

  function Next(ts: TaskState, step: Step): TaskState {
    match step
    case Start(mode, seed, now) => Started(ts, mode, seed, now)
    case End(outcome, reason, at) => FinishActive(ts, outcome, reason, at)
    case Update(w) => Updated(ts, w)
    case Load => Migrate(ts)
  }

  /** Attempts end with an outcome other than running, and updates clear no session that is owed. */
  ghost predicate Lawful(ts: TaskState, step: Step) {
    match step
    case Start(_, _, _) => true
    case End(outcome, _, _) => outcome != Running
    case Update(w) => !(OwesSession(ts) && w.session == [])
    case Load => true
  }

  function Run(ts: TaskState, steps: seq<Step>): TaskState {
    if steps == [] then ts else Next(Run(ts, steps[..|steps| - 1]), steps[|steps| - 1])
  }

  ghost predicate LawfulRun(ts: TaskState, steps: seq<Step>) {
    steps == [] || (LawfulRun(ts, steps[..|steps| - 1]) && Lawful(Run(ts, steps[..|steps| - 1]), steps[|steps| - 1]))
  }

  /** Every history built by starting and ending attempts is in order. */
  lemma {:induction false} RunKeepsHistory(ts: TaskState, steps: seq<Step>)
    requires HistoryFits(ts) && LawfulRun(ts, steps)
    ensures HistoryFits(Run(ts, steps))
  {
    if steps != [] {
      var before := Run(ts, steps[..|steps| - 1]);
      RunKeepsHistory(ts, steps[..|steps| - 1]);
      match steps[|steps| - 1]
      case Start(mode, seed, now) => StartKeepsHistory(before, mode, seed, now);
      case End(outcome, reason, at) => FinishKeepsHistoryIff(before, outcome, reason, at);
      case Update(w) => UpdateKeepsHistoryIff(before, w);
      case Load => MigrateKeepsHistory(before);
    }
  }

  /** The session the task's worker names, if it names one, is the latest the history knows. */
  predicate SessionKnown(ts: TaskState) {
    ts.attempts != [] ==>
      ts.worker.Some? && (ts.worker.value.session == [] || ts.worker.value.session == LatestSession(ts.attempts))
  }

  lemma EndKeepsSessionKnown(ts: TaskState, outcome: Outcome, reason: string, at: int)
    requires HistoryFits(ts) && SessionKnown(ts)
    ensures SessionKnown(FinishActive(ts, outcome, reason, at))
  {
    MigrateKeepsHistory(ts);
    if Migrate(ts).active != 0 {
      FinishEndsLast(ts, outcome, reason, at);
      EndedSessionKnown(Migrate(ts), FinishActive(ts, outcome, reason, at), outcome, reason, at);
    }
  }

  lemma EndedSessionKnown(m: TaskState, t: TaskState, outcome: Outcome, reason: string, at: int)
    requires m.attempts != []
    requires var n := |m.attempts| - 1;
      t.attempts == m.attempts[..n] + [Ended(m.attempts[n], outcome, reason, at)] && t.worker == Some(m.attempts[n].worker)
    ensures SessionKnown(t)
  {
  }

  /**
   An update between attempts, as the resume path makes, leaves the worker without a session or gives it
   the latest one; an update of the running attempt may set any.
   */
  predicate UpdatesKnown(ts: TaskState, step: Step) {
    step.Update? && ts.active == 0 && ts.attempts != [] ==>
      step.worker.session == [] || step.worker.session == LatestSession(ts.attempts)
  }

  predicate UpdatesKnownRun(ts: TaskState, steps: seq<Step>) {
    steps == [] ||
    (UpdatesKnownRun(ts, steps[..|steps| - 1]) && UpdatesKnown(Run(ts, steps[..|steps| - 1]), steps[|steps| - 1]))
  }

  lemma StepKeepsSessionKnown(ts: TaskState, step: Step)
    requires HistoryFits(ts) && SessionKnown(ts) && UpdatesKnown(ts, step)
    ensures SessionKnown(Next(ts, step))
  {
    match step {
      case Start(mode, seed, now) =>
      case End(outcome, reason, at) => EndKeepsSessionKnown(ts, outcome, reason, at);
      case Update(w) =>
        if ts.active != 0 {
          PositionOfLast(ts.attempts);
        }
      case Load =>
    }
  }

  /** Over every such life the session of the task's worker stays the latest one. */
  lemma {:induction false} RunKeepsSessionKnown(ts: TaskState, steps: seq<Step>)
    requires HistoryFits(ts) && SessionKnown(ts) && LawfulRun(ts, steps) && UpdatesKnownRun(ts, steps)
    ensures SessionKnown(Run(ts, steps))
  {
    if steps != [] {
      RunKeepsSessionKnown(ts, steps[..|steps| - 1]);
      RunKeepsHistory(ts, steps[..|steps| - 1]);
      StepKeepsSessionKnown(Run(ts, steps[..|steps| - 1]), steps[|steps| - 1]);
    }
  }

  /** Seeded with the task's worker as executeTask does, a resumed attempt takes the latest session of the history. */
  lemma ResumeTakesSession(ts: TaskState, seed: Worker, now: int)
    requires SessionKnown(ts) && Migrate(ts).attempts != [] && !SomeRunning(Migrate(ts).attempts)
    requires Migrate(ts).worker.Some? && seed.session == Migrate(ts).worker.value.session && OwnerFits(ts.task.id, seed)
    ensures var m, t := Migrate(ts), Started(ts, RecoveryResume, seed, now);
      |t.attempts| == |m.attempts| + 1 && t.attempts[|m.attempts|].worker.session == LatestSession(m.attempts)
  {
    MigratedKnown(ts);
  }

  lemma MigratedKnown(ts: TaskState)
    requires SessionKnown(ts)
    ensures SessionKnown(Migrate(ts)) && (Migrate(ts).attempts != [] ==> Migrate(ts).worker.Some?)
  {
  }

  /** After any life a resumed attempt has the latest known native session id. */
  lemma {:induction false} ResumeTakesLatestSession(ts: TaskState, steps: seq<Step>, seed: Worker, now: int)
    requires HistoryFits(ts) && SessionKnown(ts) && LawfulRun(ts, steps) && UpdatesKnownRun(ts, steps)
    requires var m := Migrate(Run(ts, steps));
      && m.attempts != [] && !SomeRunning(m.attempts) && OwnerFits(m.task.id, seed)
      && (m.worker.Some? ==> seed.session == m.worker.value.session)
    ensures var m, t := Migrate(Run(ts, steps)), Started(Run(ts, steps), RecoveryResume, seed, now);
      |t.attempts| == |m.attempts| + 1 && t.attempts[|m.attempts|].worker.session == LatestSession(m.attempts)
  {
    RunKeepsSessionKnown(ts, steps);
    MigratedKnown(Run(ts, steps));
    ResumeTakesSession(Run(ts, steps), seed, now);
  }
}
