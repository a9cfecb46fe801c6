/**
 What recovery makes of a commit that was cut off between its event and its snapshot. For every kind of
 commit whose event the reducer acts on: the mutation of the live code
 (internal/supervisor/state_commit.go:101-235, internal/supervisor/execute_task.go:106-137, 744-789,
 internal/supervisor/runtime.go:1026-1053, 1961-1975, 2444-2482), and exactly when replaying the event
 gives what the mutation would have.
 */
module Completion {
  import opened Text
  import opened Attempts
  import opened Reducer
  import opened Commit

  /** Recovery installs what the whole commit would have. */
  ghost predicate Completed(st: Store, input: Input, candidate: Snapshot) {
    var cut := Committed(st, input, candidate, PersistFails(0));
    Replay(cut.disk, cut.log) == Some(Committed(st, input, candidate, Succeeds).memory)
  }

  /** What recovery installs, with the event's number and time. */
  ghost predicate RecoversTo(st: Store, input: Input, t: Snapshot) {
    Replay(st.disk, st.log + [Numbered(st, input)]) == Some(Moved(t, Numbered(st, input)))
  }

  lemma EffectKeepsCheckpoint(s: Snapshot, ev: Event)
    ensures Effect(s, ev).Some? ==> Effect(s, ev).value.applied == s.applied && Effect(s, ev).value.updatedAt == s.updatedAt
  {
    match ev.payload {
      case RunChange(from, to, reason) =>
      case WaveChange(_, _, _, _, _) =>
      case TaskChange(_, _, _, _) =>
      case AttemptStarted(_, _, _) =>
      case RuntimeUpdated(runtime) =>
      case AttemptFinished(_, _) =>
      case ProcessChange(_, _, _) =>
      case ProtocolChange(_) =>
      case StallAssessed(_) =>
      case StallCleared =>
      case ProgressChange(_, _) =>
      case Heartbeat(beat) =>
      case Undecodable =>
      case Inert =>
    }
  }

  lemma WaveTimeless(s: Snapshot, pre: seq<Event>, ev: Event)
    requires ev.payload.WaveChange?
    ensures Timeless(s, pre, ev)
  {
  }

  lemma TouchTimeless(s: Snapshot, pre: seq<Event>, ev: Event)
    requires ev.payload.ProcessChange? || ev.payload.ProtocolChange? || ev.payload.StallAssessed? || ev.payload.StallCleared?
    ensures Timeless(s, pre, ev)
  {
  }

  lemma OthersTimeless(s: Snapshot, pre: seq<Event>, ev: Event)
    requires ev.payload.AttemptStarted? || ev.payload.RuntimeUpdated? || ev.payload.ProgressChange? || ev.payload.Heartbeat?
             || ev.payload.Undecodable? || ev.payload.Inert?
    ensures Timeless(s, pre, ev)
  {
  }

  /** No branch of the reducer looks at the checkpoint's number or time. */
  lemma EffectTimeless(s: Snapshot, pre: seq<Event>, ev: Event)
    ensures Timeless(s, pre, ev)
  {
    match ev.payload {
      case RunChange(from, to, reason) => RunChangeTimeless(s, pre, ev);
      case WaveChange(_, _, _, _, _) => WaveTimeless(s, pre, ev);
      case TaskChange(_, _, _, _) => TaskChangeTimeless(s, pre, ev);
      case AttemptFinished(_, _) => FinishedTimeless(s, pre, ev);
      case ProcessChange(_, _, _) => TouchTimeless(s, pre, ev);
      case ProtocolChange(_) => TouchTimeless(s, pre, ev);
      case StallAssessed(_) => TouchTimeless(s, pre, ev);
      case StallCleared => TouchTimeless(s, pre, ev);
      case _ => OthersTimeless(s, pre, ev);
    }
  }

  /** The mutation starts from the snapshot in memory; number and time are set by the commit. */
  predicate Mutated(s: Snapshot, candidate: Snapshot) {
    candidate.applied == s.applied && candidate.updatedAt == s.updatedAt
  }

  lemma RecoversToEffect(st: Store, input: Input, t: Snapshot)
    requires Settled(st) && Effect(st.memory, Numbered(st, input)) == Some(t)
    ensures RecoversTo(st, input, t)
  {
    EffectTimeless(st.memory, st.log[st.memory.applied..], Numbered(st, input));
    CutCommitReplays(st, input, t);
  }

  /** An interrupted commit is completed exactly when the reducer gives its event the effect of its mutation. */
  lemma CompletedIff(st: Store, input: Input, candidate: Snapshot, t: Snapshot)
    requires Settled(st) && Mutated(st.memory, candidate) && Effect(st.memory, Numbered(st, input)) == Some(t)
    ensures Completed(st, input, candidate) <==> t == candidate
  {
    RecoversToEffect(st, input, t);
    EffectKeepsCheckpoint(st.memory, Numbered(st, input));
    var ev := Numbered(st, input);
    assert Moved(t, ev) == Moved(candidate, ev) <==> t == candidate by {
      assert t == Moved(t, ev).(applied := t.applied, updatedAt := t.updatedAt);
      assert candidate == Moved(candidate, ev).(applied := candidate.applied, updatedAt := candidate.updatedAt);
    }
  }

  // ----- waves -----

  predicate EndsWave(status: WaveStatus) {
    status == WaveVerified || status == WaveFailed || status == WaveCancelled || status == WaveBlocked
  }

  /** setWaveStatusReason. */
  function WaveMutation(s: Snapshot, to: WaveStatus, reason: Reason, now: int): Snapshot {
    var w := s.wave.(status := to, failure := if reason != NoReason then reason else s.wave.failure,
                     startedAt := if to == WaveRunning then Some(now) else s.wave.startedAt,
                     endedAt := if EndsWave(to) then Some(now) else s.wave.endedAt);
    var i := WaveIndex(s.waves, s.wave.id);
    s.(wave := w, waves := if i < |s.waves| then s.waves[i := w] else s.waves)
  }

  /** The current wave is the listed one. */
  predicate InStep(s: Snapshot) {
    WaveIndex(s.waves, s.wave.id) < |s.waves| ==> s.waves[WaveIndex(s.waves, s.wave.id)] == s.wave
  }

  /**
   setWaveStatus cut off after its event: recovery gives the current wave the status the commit would
   have given it, but not the times it would have set; so the commit is completed exactly when there
   are none to set and the reason belongs to a failure.
   */
  lemma InterruptedWaveStatus(st: Store, to: WaveStatus, reason: Reason, time: int)
    requires Settled(st) && InStep(st.memory) && st.memory.wave.id != [] && to != NoWaveStatus && !Special(reason)
    ensures var s := st.memory;
      var input := Input([], time, WaveChange(s.wave.id, s.wave.status, to, reason, Absent));
      var candidate := WaveMutation(s, to, reason, time);
      && (exists t :: RecoversTo(st, input, t) && t.wave.status == candidate.wave.status == to && InStep(t))
      && (Completed(st, input, candidate) <==>
            && (to == WaveRunning ==> s.wave.startedAt == Some(time)) && (EndsWave(to) ==> s.wave.endedAt == Some(time))
            && (reason != NoReason && to != WaveFailed ==> s.wave.failure == reason))
  {
    var s := st.memory;
    var p := WaveChange(s.wave.id, s.wave.status, to, reason, Absent);
    var input := Input([], time, p);
    WaveEventRefusedIff(s, p);
    var t := Effect(s, Numbered(st, input)).value;
    WaveEventReaches(s, p, t);
    RecoversToEffect(st, input, t);
    CompletedIff(st, input, WaveMutation(s, to, reason, time), t);
    SameWave(s, t, WaveMutation(s, to, reason, time));
  }

  /** Two snapshots that differ in the current wave and its place in the list are equal when the waves are. */
  lemma SameWave(s: Snapshot, t: Snapshot, c: Snapshot)
    requires InStep(s) && t == s.(wave := t.wave, waves := t.waves) && c == s.(wave := c.wave, waves := c.waves)
    requires var i := WaveIndex(s.waves, s.wave.id);
      && |t.waves| == |s.waves| == |c.waves|
      && (forall k :: 0 <= k < |s.waves| && k != i ==> t.waves[k] == s.waves[k] && c.waves[k] == s.waves[k])
      && (i < |s.waves| ==> t.waves[i] == t.wave && c.waves[i] == c.wave)
    ensures t == c <==> t.wave == c.wave
  {
  }

  /** selectWave. */
  function SelectMutation(s: Snapshot, id: string): Snapshot {
    var i := WaveIndex(s.waves, id);
    s.(run := s.run.(currentWave := id), wave := if i < |s.waves| then s.waves[i] else s.wave)
  }

  /**
   selectWave cut off after its event: a listed wave is selected by recovery only if it was selected
   already, and one that is not listed only if there is a current wave.
   */
  lemma {:induction false} InterruptedSelection(st: Store, id: string, from: WaveStatus, to: WaveStatus, time: int)
    requires Settled(st) && id != [] && to != NoWaveStatus
    ensures var s := st.memory;
      var input := Input([], time, WaveChange(id, from, to, SelectWave, Absent));
      Completed(st, input, SelectMutation(s, id)) <==>
        if WaveIndex(s.waves, id) < |s.waves| then s.run.currentWave == id && (s.wave.id == id || s.wave.id == [])
        else s.wave.id != []
  {
    var s := st.memory;
    var p := WaveChange(id, from, to, SelectWave, Absent);
    WaveEventRefusedIff(s, p);
    var t := Effect(s, Numbered(st, Input([], time, p))).value;
    WaveEventReaches(s, p, t);
    CompletedIff(st, Input([], time, p), SelectMutation(s, id), t);
  }

  // ----- attempts -----

  /** The commit of executeTask, for an attempt that may begin. */
  function StartMutation(s: Snapshot, i: nat, mode: Mode, seed: Worker, now: int): Snapshot
    requires i < |s.tasks|
  {
    WithTask(s, i, Started(s.tasks[i], mode, seed, now))
  }

  predicate MayStart(ts: TaskState, mode: Mode, seed: Worker) {
    !SomeRunning(Migrate(ts).attempts) && ModeFits(mode, Migrate(ts).attempts) && OwnerFits(ts.task.id, seed)
  }

  /** The same history but for the time the last attempt began and the time of the last progress. */
  predicate OpensSame(ts: TaskState, live: TaskState, replayed: TaskState) {
    && live.attempts != [] && |replayed.attempts| == |live.attempts|
    && var n := |live.attempts| - 1;
    && replayed == live.(lastProgress := ts.lastProgress,
                         attempts := live.attempts[n := live.attempts[n].(startedAt := live.attempts[n].worker.startedAt)])
  }

  lemma StartedReduces(ts: TaskState, mode: Mode, seed: Worker, now: int)
    requires MayStart(ts, mode, seed)
    ensures var live := Started(ts, mode, seed, now);
      && live.worker.Some? && live.worker.value.attempt == live.active > 0 && live.task == ts.task
      && OpensSame(ts, live, TaskWithAttempt(ts, live.active, mode, live.worker.value))
  {
  }

  /**
   The opening of an attempt cut off after its event: recovery opens the same attempt with the same
   number, mode, worker and dimensions and marks the report stale, but dates it by the worker's start
   and keeps the task's last progress.
   */
  lemma {:induction false} InterruptedStart(st: Store, id: string, mode: Mode, seed: Worker, time: int)
    requires Settled(st) && id != [] && TaskIndex(st.memory.tasks, id) < |st.memory.tasks|
    requires MayStart(st.memory.tasks[TaskIndex(st.memory.tasks, id)], mode, seed)
    ensures var s, i := st.memory, TaskIndex(st.memory.tasks, id);
      var live := Started(s.tasks[i], mode, seed, time);
      var input := Input(id, time, AttemptStarted(live.worker.value, Some(live.active), mode));
      && (exists t :: OpensSame(s.tasks[i], live, t) && RecoversTo(st, input, WithTask(s, i, t)))
      && (Completed(st, input, StartMutation(s, i, mode, seed, time)) <==>
            seed.startedAt == time && seed.lastProgressAt == s.tasks[i].lastProgress)
  {
    var s, i := st.memory, TaskIndex(st.memory.tasks, id);
    StartedReduces(s.tasks[i], mode, seed, time);
    var live := Started(s.tasks[i], mode, seed, time);
    var input := Input(id, time, AttemptStarted(live.worker.value, Some(live.active), mode));
    var replayed := TaskWithAttempt(s.tasks[i], live.active, mode, live.worker.value);
    assert Effect(s, Numbered(st, input)) == Some(WithTask(s, i, replayed));
    RecoversToEffect(st, input, WithTask(s, i, replayed));
    CompletedIff(st, input, StartMutation(s, i, mode, seed, time), WithTask(s, i, replayed));
    SameTask(s, i, replayed, live);
    OpensSameIff(s.tasks[i], mode, seed, time, replayed);
  }

  lemma SameTask(s: Snapshot, i: nat, t: TaskState, u: TaskState)
    requires i < |s.tasks|
    ensures WithTask(s, i, t) == WithTask(s, i, u) <==> t == u
  {
    assert WithTask(s, i, t).tasks[i] == t && WithTask(s, i, u).tasks[i] == u;
  }

  lemma OpensSameIff(ts: TaskState, mode: Mode, seed: Worker, now: int, replayed: TaskState)
    requires MayStart(ts, mode, seed) && OpensSame(ts, Started(ts, mode, seed, now), replayed)
    ensures replayed == Started(ts, mode, seed, now) <==> seed.startedAt == now && seed.lastProgressAt == ts.lastProgress
  {
    var live := Started(ts, mode, seed, now);
    var n := |live.attempts| - 1;
    assert live.attempts[n].startedAt == now && live.attempts[n].worker.startedAt == seed.startedAt;
    if seed.startedAt == now {
      assert live.attempts[n := live.attempts[n].(startedAt := seed.startedAt)] == live.attempts;
    } else {
      assert replayed.attempts[n] != live.attempts[n];
    }
  }

  // ----- whole task records -----

  /** saveRuntime: the scope is the snapshot's, and a pending decision keeps the task blocked. */
  function SaveMutation(s: Snapshot, runtime: TaskState, pending: bool): Snapshot
    requires TaskIndex(s.tasks, runtime.task.id) < |s.tasks|
  {
    var i := TaskIndex(s.tasks, runtime.task.id);
    var r := runtime.(task := runtime.task.(writeScope := s.tasks[i].task.writeScope, allowPublic := s.tasks[i].task.allowPublic));
    WithTask(s, i, if pending then r.(task := r.task.(status := TaskBlocked), dims := r.dims.(task := TaskBlocked, progress := Quiet)) else r)
  }

  predicate IsBlocked(ts: TaskState) {
    ts.task.status == TaskBlocked && ts.dims.task == TaskBlocked && ts.dims.progress == Quiet
  }

  /**
   saveRuntime cut off after its event: completed exactly when no pending decision had to keep the
   task blocked against the record, and the record's scope is either the snapshot's or shorter.
   */
  lemma InterruptedSave(st: Store, runtime: TaskState, pending: bool, time: int)
    requires Settled(st) && TaskIndex(st.memory.tasks, runtime.task.id) < |st.memory.tasks|
    ensures var s := st.memory;
      var held := s.tasks[TaskIndex(s.tasks, runtime.task.id)].task;
      var input := Input(runtime.task.id, time, RuntimeUpdated(runtime));
      Completed(st, input, SaveMutation(s, runtime, pending)) <==>
        && (pending ==> IsBlocked(runtime))
        && (|held.writeScope| > |runtime.task.writeScope| ||
            (held.writeScope == runtime.task.writeScope && held.allowPublic == runtime.task.allowPublic))
  {
    var s, i := st.memory, TaskIndex(st.memory.tasks, runtime.task.id);
    var input := Input(runtime.task.id, time, RuntimeUpdated(runtime));
    var t := ReduceRuntime(s, runtime).value;
    CompletedIff(st, input, SaveMutation(s, runtime, pending), t);
    SameTask(s, i, t.tasks[i], SaveMutation(s, runtime, pending).tasks[i]);
  }

  // ----- heartbeats -----

  /** writeSupervisorIdentity and heartbeat are always completed. */
  lemma InterruptedHeartbeat(st: Store, identity: Identity, at: int, time: int)
    requires Settled(st)
    ensures var s := st.memory;
      && Completed(st, Input([], time, Heartbeat(Whole(identity))), s.(run := s.run.(identity := Some(identity))))
      && Completed(st, Input([], time, Heartbeat(At(at))),
                   if s.run.identity.None? then s else s.(run := s.run.(identity := Some(s.run.identity.value.(heartbeatAt := at)))))
  {
    var s := st.memory;
    var whole := s.(run := s.run.(identity := Some(identity)));
    CompletedIff(st, Input([], time, Heartbeat(Whole(identity))), whole, whole);
    var beaten := if s.run.identity.None? then s else s.(run := s.run.(identity := Some(s.run.identity.value.(heartbeatAt := at))));
    CompletedIff(st, Input([], time, Heartbeat(At(at))), beaten, beaten);
  }

  // ----- processes -----

  function ProcessTo(ts: TaskState, p: Process): TaskState {
    ts.(dims := ts.dims.(process := p),
        worker := if ts.worker.Some? then Some(ts.worker.value.(dims := ts.worker.value.dims.(process := p))) else None)
  }

  /** A cancelled worker whose tree did not go away. */
  function OrphanMutation(s: Snapshot, i: nat, p: Process, facts: string, reason: string): Snapshot
    requires i < |s.tasks|
  {
    WithTask(s, i, ProcessTo(s.tasks[i], p).(evidence := Some(Evidence(facts, p)))).(lastError := reason)
  }

  /** Recovery restores process state and evidence, but not the run's last error. */
  lemma {:induction false} InterruptedOrphan(st: Store, id: string, p: Process, facts: string, reason: string, time: int)
    requires Settled(st) && id != [] && TaskIndex(st.memory.tasks, id) < |st.memory.tasks|
    ensures var s, i := st.memory, TaskIndex(st.memory.tasks, id);
      var input := Input(id, time, ProcessChange(false, Some(p), Some(facts)));
      && RecoversTo(st, input, OrphanMutation(s, i, p, facts, s.lastError))
      && (Completed(st, input, OrphanMutation(s, i, p, facts, reason)) <==> s.lastError == reason)
  {
    var s, i := st.memory, TaskIndex(st.memory.tasks, id);
    var input := Input(id, time, ProcessChange(false, Some(p), Some(facts)));
    RecoversToEffect(st, input, OrphanMutation(s, i, p, facts, s.lastError));
    CompletedIff(st, input, OrphanMutation(s, i, p, facts, reason), OrphanMutation(s, i, p, facts, s.lastError));
  }

  function WithFacts(ts: TaskState, p: Process, facts: Option<string>): TaskState {
    ts.(evidence := if facts.Some? then Some(Evidence(facts.value, p)) else ts.evidence)
  }

  /** A new process state together with a new worker record, in the task and in its active attempt. */
  function WorkerMutation(s: Snapshot, i: nat, p: Process, facts: Option<string>, w: Worker): Snapshot
    requires i < |s.tasks|
  {
    WithTask(s, i, Updated(WithFacts(ProcessTo(s.tasks[i], p), p, facts), w))
  }

  /** The record of the active attempt, if there is one, is this worker. */
  predicate AttemptHolds(ts: TaskState, w: Worker) {
    var k := Position(ts.attempts, ts.active);
    ts.active > 0 && k < |ts.attempts| ==> ts.attempts[k].worker == w
  }

  lemma UpdateChangesNothingIff(ts: TaskState, w: Worker)
    ensures Updated(ts, w) == ts <==> ts.worker == Some(w) && AttemptHolds(ts, w)
  {
    var k := Position(ts.attempts, ts.active);
    if ts.active > 0 && k < |ts.attempts| {
      assert Updated(ts, w).attempts[k].worker == w;
      if ts.attempts[k].worker == w {
        assert ts.attempts[k := ts.attempts[k].(worker := w)] == ts.attempts;
      }
    }
  }

  /**
   Such a commit cut off after its event: recovery restores process state and evidence and nothing of
   the new worker record, so it is completed exactly when the record was there before.
   */
  lemma {:induction false} InterruptedProcess(st: Store, id: string, stateChange: bool, p: Process, facts: Option<string>, w: Worker, time: int)
    requires Settled(st) && id != [] && TaskIndex(st.memory.tasks, id) < |st.memory.tasks|
    ensures var s, i := st.memory, TaskIndex(st.memory.tasks, id);
      var input := Input(id, time, ProcessChange(stateChange, Some(p), facts));
      var t := WithFacts(ProcessTo(s.tasks[i], p), p, facts);
      && RecoversTo(st, input, WithTask(s, i, t))
      && (Completed(st, input, WorkerMutation(s, i, p, facts, w)) <==> t.worker == Some(w) && AttemptHolds(t, w))
  {
    var s, i := st.memory, TaskIndex(st.memory.tasks, id);
    var input := Input(id, time, ProcessChange(stateChange, Some(p), facts));
    var t := WithFacts(ProcessTo(s.tasks[i], p), p, facts);
    assert ProcessMoved(s.tasks[i], Some(p), facts) == t;
    RecoversToEffect(st, input, WithTask(s, i, t));
    CompletedIff(st, input, WorkerMutation(s, i, p, facts, w), WithTask(s, i, t));
    SameTask(s, i, t, Updated(t, w));
    UpdateChangesNothingIff(t, w);
  }

  /** The worker of a spawned process, with its session and its identity, and of one that has ended. */
  function SpawnedWorker(w: Worker, session: string, identity: string): Worker {
    w.(session := session, details := identity, dims := w.dims.(process := ProcessAlive))
  }

  function EndedWorker(w: Worker, p: Process, code: Option<int>, now: int): Worker {
    w.(endedAt := Some(now), exitCode := if code.Some? then code else w.exitCode, dims := w.dims.(process := p))
  }

  /** A session recorded with its process is lost by a cut behind the event: the worker is alive with the identity it had. */
  lemma {:induction false} InterruptedSpawn(st: Store, id: string, session: string, identity: string, time: int)
    requires Settled(st) && id != [] && TaskIndex(st.memory.tasks, id) < |st.memory.tasks|
    requires st.memory.tasks[TaskIndex(st.memory.tasks, id)].worker.Some?
    ensures var s, i := st.memory, TaskIndex(st.memory.tasks, id);
      var w := s.tasks[i].worker.value;
      var input := Input(id, time, ProcessChange(false, Some(ProcessAlive), None));
      && RecoversTo(st, input, WithTask(s, i, ProcessTo(s.tasks[i], ProcessAlive)))
      && (Completed(st, input, WorkerMutation(s, i, ProcessAlive, None, SpawnedWorker(w, session, identity))) <==>
            w.session == session && w.details == identity && AttemptHolds(s.tasks[i], SpawnedWorker(w, session, identity)))
  {
    var s, i := st.memory, TaskIndex(st.memory.tasks, id);
    InterruptedProcess(st, id, false, ProcessAlive, None, SpawnedWorker(s.tasks[i].worker.value, session, identity), time);
  }

  /** So are the end and the exit code of a worker, while its process state and the evidence for it are kept. */
  lemma {:induction false} InterruptedExit(st: Store, id: string, stateChange: bool, p: Process, facts: string, code: Option<int>, time: int)
    requires Settled(st) && id != [] && TaskIndex(st.memory.tasks, id) < |st.memory.tasks|
    requires st.memory.tasks[TaskIndex(st.memory.tasks, id)].worker.Some?
    ensures var s, i := st.memory, TaskIndex(st.memory.tasks, id);
      var w := s.tasks[i].worker.value;
      var input := Input(id, time, ProcessChange(stateChange, Some(p), Some(facts)));
      && RecoversTo(st, input, WithTask(s, i, ProcessTo(s.tasks[i], p).(evidence := Some(Evidence(facts, p)))))
      && (Completed(st, input, WorkerMutation(s, i, p, Some(facts), EndedWorker(w, p, code, time))) <==>
            && w.endedAt == Some(time) && (code.Some? ==> w.exitCode == code)
            && AttemptHolds(s.tasks[i], EndedWorker(w, p, code, time)))
  {
    var s, i := st.memory, TaskIndex(st.memory.tasks, id);
    InterruptedProcess(st, id, stateChange, p, Some(facts), EndedWorker(s.tasks[i].worker.value, p, code, time), time);
  }
}
