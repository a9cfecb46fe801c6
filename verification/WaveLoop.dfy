/**
 The wave loop (internal/supervisor/runtime.go:745-759, 1055-1183, 1584-1708, 1978-1994): execute goes
 through the plan's waves from the first one on every entry, skips those that are complete and
 starts the first that is not, while calls that accept or reject barrier warnings run beside it.
 */
module WaveLoop {
  import Plan

  datatype Status = Planned | Running | InBarrier | Waiting | Blocked | Verified | Failed | Cancelled

  datatype Result = NoResult | Passed | PassedWithWarnings | BlockedResult | FailedResult | CancelledResult

  datatype Wave = Wave(status: Status, result: Result, accepted: bool)

  /** waveAlreadyVerified. */
  predicate Done(w: Wave) {
    w.status == Verified || (w.result == PassedWithWarnings && w.accepted)
  }

  /** What is asked of every wave once more before the run completes. */
  predicate Settled(w: Wave) {
    w.status == Verified && (w.result == PassedWithWarnings ==> w.accepted)
  }

  predicate AllSettled(waves: seq<Wave>) {
    forall i :: 0 <= i < |waves| ==> Settled(waves[i])
  }

  /** Where the executor is. */
  datatype Place =
    | Outside
    | Scanning(i: nat)
    | Selected(i: nat)
    | Executing(i: nat)
    | AtBarrier(i: nat)
    | Final
    | Rechecking
    | Completing
    | Stopped

  /** A call that has checked that the wave awaits acceptance and has not committed yet. */
  datatype Call = Accepting(i: nat) | Rejecting(i: nat) | FailingRun

  /** What final verification said, warnings being accepted or not. */
  datatype FinalResult = FinalPassed | FinalAccepted | FinalWarned | FinalFailed

  /** Over tells that the run has a terminal status, completed that the status is "completed". */
  datatype State = State(waves: seq<Wave>, current: nat, place: Place, over: bool, completed: bool, calls: multiset<Call>,
                         started: seq<nat>)

  datatype Step =
    | Enter
    | Scan
    | Start(ok: bool)
    | FinishTasks(ok: bool)
    | Judge(result: Result)
    | Verify(final: FinalResult)
    | Recheck
    | Complete
    | Cancel
    | Restart(lost: bool)
    | CheckAccept(i: nat)
    | CheckReject(i: nat)
    | CommitAccept(i: nat)
    | CommitReject(i: nat)
    | CommitFailed

  function SetWave(s: State, i: nat, w: Wave): State {
    if i < |s.waves| then s.(waves := s.waves[i := w]) else s
  }

  /**
   finishRun: the current wave gets the terminal status, and the executor stops. A crash in between
   can lose the run's own terminal status (Restart with lost).
   */
  function FinishRun(s: State, status: Status): State {
    var t := s.(place := Stopped, over := true);
    if s.current < |s.waves| then SetWave(t, s.current, s.waves[s.current].(status := status)) else t
  }

  function StatusOf(r: Result): Status {
    match r
    case Passed => Verified
    case PassedWithWarnings => Waiting
    case BlockedResult => Blocked
    case FailedResult => Failed
    case CancelledResult => Cancelled
    case NoResult => InBarrier
  }

  function DoJudge(s: State, i: nat, r: Result): State
    requires i < |s.waves|
  {
    var t := SetWave(s, i, s.waves[i].(result := r, status := StatusOf(r)));
    match r
    case Passed => t.(place := Scanning(i + 1))
    case PassedWithWarnings => t.(place := Outside)
    case BlockedResult => t.(place := Outside)
    case FailedResult => FinishRun(t, Failed)
    case CancelledResult => FinishRun(t, Cancelled)
    case NoResult => FinishRun(t, Failed)
  }

  predicate AwaitsAcceptance(w: Wave) {
    w.status == Waiting && w.result == PassedWithWarnings && !w.accepted
  }

  function DoScan(s: State): State {
    if !s.place.Scanning? then s
    else if s.place.i >= |s.waves| then s.(place := Final)
    else if Done(s.waves[s.place.i]) then s.(place := Scanning(s.place.i + 1))
    else s.(place := Selected(s.place.i), current := s.place.i)
  }

  function DoStart(s: State, ok: bool): State {
    if !s.place.Selected? || s.place.i >= |s.waves| then s
    else if !ok then FinishRun(s, Failed)
    else
      s.(waves := s.waves[s.place.i := s.waves[s.place.i].(status := Running)], place := Executing(s.place.i),
         started := s.started + [s.place.i])
  }

  function DoFinishTasks(s: State, ok: bool): State {
    if !s.place.Executing? || s.place.i >= |s.waves| then s
    else if !ok then FinishRun(s, Failed)
    else s.(waves := s.waves[s.place.i := s.waves[s.place.i].(status := InBarrier)], place := AtBarrier(s.place.i))
  }

  function DoVerify(s: State, final: FinalResult): State {
    if s.place != Final then s
    else
      match final
      case FinalPassed => s.(place := Rechecking)
      case FinalAccepted => s.(place := Rechecking)
      case FinalWarned => s.(place := Outside)
      case FinalFailed => FinishRun(s, Failed)
  }

  function DoRecheck(s: State): State {
    if s.place != Rechecking then s
    else if AllSettled(s.waves) then s.(place := Completing)
    else s.(place := Stopped, over := true)
  }

  function DoComplete(s: State): State {
    if s.place == Completing then s.(place := Stopped, over := true, completed := true) else s
  }

  function DoAccept(s: State, i: nat): State {
    if Accepting(i) in s.calls && i < |s.waves| then
      s.(waves := s.waves[i := s.waves[i].(accepted := true, status := Verified)], calls := s.calls - multiset{Accepting(i)})
    else s
  }

  function DoReject(s: State, i: nat): State {
    if Rejecting(i) in s.calls && i < |s.waves| then
      s.(waves := s.waves[i := s.waves[i].(accepted := false, status := Failed)],
         calls := s.calls - multiset{Rejecting(i)} + multiset{FailingRun})
    else s
  }

  function DoCheck(s: State, i: nat, call: Call): State {
    if i < |s.waves| && AwaitsAcceptance(s.waves[i]) then s.(calls := s.calls + multiset{call}) else s
  }

  function Next(s: State, step: Step): State {
    match step
    case Enter => if s.place != Outside then s else if s.over then s.(place := Stopped) else s.(place := Scanning(0))
    case Scan => DoScan(s)
    case Start(ok) => DoStart(s, ok)
    case FinishTasks(ok) => DoFinishTasks(s, ok)
    case Judge(r) => if s.place.AtBarrier? && s.place.i < |s.waves| then DoJudge(s, s.place.i, r) else s
    case Verify(final) => DoVerify(s, final)
    case Recheck => DoRecheck(s)
    case Complete => DoComplete(s)
    case Cancel => if s.place.Outside? || s.place.Stopped? then s else FinishRun(s, Cancelled)
    case Restart(lost) => s.(place := Outside, over := s.over && !lost, completed := s.completed && !lost, calls := multiset{})
    case CheckAccept(i) => DoCheck(s, i, Accepting(i))
    case CheckReject(i) => DoCheck(s, i, Rejecting(i))
    case CommitAccept(i) => DoAccept(s, i)
    case CommitReject(i) => DoReject(s, i)
    case CommitFailed => if FailingRun in s.calls then s.(over := true, calls := s.calls - multiset{FailingRun}) else s
  }

  function Run(s: State, steps: seq<Step>): State {
    if steps == [] then s else Next(Run(s, steps[..|steps| - 1]), steps[|steps| - 1])
  }

  function Init(n: nat): State {
    State(seq(n, _ => Wave(Planned, NoResult, false)), 0, Outside, false, false, multiset{}, [])
  }

  predicate DoneBefore(s: State, i: nat) {
    i <= |s.waves| && forall j :: 0 <= j < i ==> Done(s.waves[j])
  }

  /** How far the executor has come on this entry. */
  function Reached(p: Place, n: nat): nat {
    match p
    case Scanning(i) => i
    case Selected(i) => i
    case Executing(i) => i
    case AtBarrier(i) => i
    case Final => n
    case Rechecking => n
    case Completing => n
    case Outside => 0
    case Stopped => 0
  }

  predicate Inv(s: State) {
    && DoneBefore(s, Reached(s.place, |s.waves|))
    && (s.place.Selected? || s.place.Executing? || s.place.AtBarrier? ==> s.place.i == s.current < |s.waves|)
    && (s.place == Completing ==> AllSettled(s.waves))
  }

  /** No rejection commits for a wave the executor has passed on this entry. */
  predicate Timely(s: State, step: Step) {
    match step
    case CommitReject(j) => j < |s.waves| && Rejecting(j) in s.calls ==> Reached(s.place, |s.waves|) <= j
    case _ => true
  }

  predicate TimelyRun(s: State, steps: seq<Step>) {
    steps == [] || (TimelyRun(s, steps[..|steps| - 1]) && Timely(Run(s, steps[..|steps| - 1]), steps[|steps| - 1]))
  }

  /** That is exactly what a committed rejection must observe: otherwise a wave passed as done no longer is. */
  lemma RejectionKeepsOrderIff(s: State, j: nat)
    requires Inv(s) && j < |s.waves| && Rejecting(j) in s.calls
    ensures Inv(Next(s, CommitReject(j))) <==> Reached(s.place, |s.waves|) <= j
  {
    assert !Done(Next(s, CommitReject(j)).waves[j]);
  }

  predicate ByCaller(step: Step) {
    step.CheckAccept? || step.CheckReject? || step.CommitAccept? || step.CommitReject? || step.CommitFailed?
  }

  lemma CallsKeepInv(s: State, step: Step)
    requires Inv(s) && Timely(s, step) && ByCaller(step)
    ensures Inv(Next(s, step))
  {
    match step {
      case CommitAccept(i) => AcceptKeepsInv(s, i);
      case CommitReject(i) =>
        if i < |s.waves| && Rejecting(i) in s.calls {
          RejectionKeepsOrderIff(s, i);
        }
      case _ =>
    }
  }

  lemma AcceptKeepsInv(s: State, i: nat)
    requires Inv(s)
    ensures Inv(DoAccept(s, i))
  {
  }

  lemma FinishKeepsInv(s: State, status: Status)
    ensures Inv(FinishRun(s, status))
  {
  }

  lemma JudgeKeepsInv(s: State, r: Result)
    requires Inv(s) && s.place.AtBarrier?
    ensures Inv(DoJudge(s, s.place.i, r))
  {
    var t := SetWave(s, s.place.i, s.waves[s.place.i].(result := r, status := StatusOf(r)));
    FinishKeepsInv(t, Failed);
    FinishKeepsInv(t, Cancelled);
  }

  lemma ScanKeepsInv(s: State)
    requires Inv(s)
    ensures Inv(DoScan(s))
  {
  }

  lemma StartKeepsInv(s: State, ok: bool)
    requires Inv(s)
    ensures Inv(DoStart(s, ok)) && Inv(DoFinishTasks(s, ok))
  {
    FinishKeepsInv(s, Failed);
  }

  lemma EndKeepsInv(s: State, final: FinalResult)
    requires Inv(s)
    ensures Inv(DoVerify(s, final)) && Inv(DoRecheck(s)) && Inv(DoComplete(s))
  {
    FinishKeepsInv(s, Failed);
  }

  lemma ExecutorKeepsInv(s: State, step: Step)
    requires Inv(s) && !ByCaller(step)
    ensures Inv(Next(s, step))
  {
    match step {
      case Enter =>
      case Scan => ScanKeepsInv(s);
      case Start(ok) => StartKeepsInv(s, ok);
      case FinishTasks(ok) => StartKeepsInv(s, ok);
      case Judge(r) =>
        if s.place.AtBarrier? {
          JudgeKeepsInv(s, r);
        }
      case Verify(final) => EndKeepsInv(s, final);
      case Recheck => EndKeepsInv(s, FinalPassed);
      case Complete => EndKeepsInv(s, FinalPassed);
      case Cancel => FinishKeepsInv(s, Cancelled);
      case Restart(lost) =>
      case _ =>
    }
  }

  lemma {:induction false} RunKeepsInv(s: State, steps: seq<Step>)
    requires Inv(s) && TimelyRun(s, steps)
    ensures Inv(Run(s, steps))
  {
    if steps != [] {
      RunKeepsInv(s, steps[..|steps| - 1]);
      var before, step := Run(s, steps[..|steps| - 1]), steps[|steps| - 1];
      if ByCaller(step) {
        CallsKeepInv(before, step);
      } else {
        ExecutorKeepsInv(before, step);
      }
    }
  }

  /** The step starts wave i. */
  predicate Starts(s: State, step: Step, i: nat) {
    step == Start(true) && s.place == Selected(i) && i < |s.waves|
  }

  /** Over any number of entries, a wave starts only when every earlier wave is verified or accepted. */
  lemma {:induction false} StartsInOrder(n: nat, steps: seq<Step>, step: Step, i: nat)
    requires TimelyRun(Init(n), steps) && Starts(Run(Init(n), steps), step, i)
    ensures DoneBefore(Run(Init(n), steps), i)
    ensures Next(Run(Init(n), steps), step).started == Run(Init(n), steps).started + [i]
  {
    RunKeepsInv(Init(n), steps);
  }

  /** With an accepted plan no wave starts before the waves of its tasks' dependencies are complete. */
  lemma StartsAfterDependencies(check: Plan.WaveCheck, plan: Plan.RunPlan, steps: seq<Step>, step: Step, i: nat, a: string, b: string)
    returns (j: int)
    requires Plan.PlanFits(check, plan)
    requires TimelyRun(Init(|plan.waves|), steps) && Starts(Run(Init(|plan.waves|), steps), step, i)
    requires Plan.InWave(plan.waves, i, a) && Plan.DependsOn(plan.waves, a, b)
    ensures Plan.InWave(plan.waves, j, b) && 0 <= j < i && j < |Run(Init(|plan.waves|), steps).waves|
    ensures Done(Run(Init(|plan.waves|), steps).waves[j])
  {
    j := Plan.DependencyIsEarlier(check, plan, a, b, i);
    StartsInOrder(|plan.waves|, steps, step, i);
  }

  /** Final verification is entered only with every wave done. */
  lemma {:induction false} FinalMeansDone(n: nat, steps: seq<Step>)
    requires TimelyRun(Init(n), steps) && Run(Init(n), steps).place == Final
    ensures DoneBefore(Run(Init(n), steps), |Run(Init(n), steps).waves|)
  {
    RunKeepsInv(Init(n), steps);
  }

  /** Whatever is rejected when: the step that lets a run complete finds every wave verified, its warnings accepted. */
  lemma RecheckMeansSettled(s: State, step: Step)
    requires s.place != Completing && Next(s, step).place == Completing
    ensures step == Recheck && AllSettled(s.waves) && Next(s, step).waves == s.waves
  {
  }

  /** When no rejection comes late, a run is completed only with every wave verified, its warnings accepted. */
  lemma {:induction false} CompletedMeansSettled(n: nat, steps: seq<Step>, step: Step)
    requires TimelyRun(Init(n), steps) && !Run(Init(n), steps).completed && Next(Run(Init(n), steps), step).completed
    ensures step == Complete && AllSettled(Next(Run(Init(n), steps), step).waves)
  {
    RunKeepsInv(Init(n), steps);
    OnlyCompleteCompletes(Run(Init(n), steps), step);
  }

  lemma OnlyCompleteCompletes(s: State, step: Step)
    requires !s.completed && Next(s, step).completed
    ensures step == Complete && s.place == Completing && Next(s, step).waves == s.waves
  {
  }

  // ----- the condition is needed -----

  /** A wave is about to start, or will be with the next look: it is the one the executor has come to. */
  predicate AboutToStart(s: State, i: nat) {
    i < |s.waves| && (s.place == Selected(i) || (s.place == Scanning(i) && !Done(s.waves[i])))
  }

  /** The executor's next steps from there. */
  function Onward(s: State): seq<Step> {
    if s.place.Scanning? then [Scan, Start(true)] else [Start(true)]
  }

  /** Rejecting a wave the executor has passed, with another about to start, starts that one behind a failed wave. */
  lemma LateRejectionBreaksOrder(s: State, i: nat, j: nat)
    requires AboutToStart(s, i) && j < i && Rejecting(j) in s.calls
    ensures var t := Run(Next(s, CommitReject(j)), Onward(s));
      t.started == s.started + [i] && |t.waves| == |s.waves| && t.waves[j].status == Failed && !DoneBefore(t, i)
  {
    var a := DoReject(s, j);
    assert a.waves[i] == s.waves[i] && a.place == s.place && a.waves[j].status == Failed && !Done(a.waves[j]);
    if s.place.Scanning? {
      RunTwo(a, Scan, Start(true));
      StartsBehind(DoScan(a), i, j);
    } else {
      RunOne(a, Start(true));
      StartsBehind(a, i, j);
    }
  }

  lemma StartsBehind(s: State, i: nat, j: nat)
    requires s.place == Selected(i) && j < i < |s.waves| && s.waves[j].status == Failed && !Done(s.waves[j])
    ensures var t := DoStart(s, true);
      t.started == s.started + [i] && |t.waves| == |s.waves| && t.waves[j].status == Failed && !DoneBefore(t, i)
  {
    assert !Done(DoStart(s, true).waves[j]);
  }

  lemma {:induction false} RunOne(s: State, a: Step)
    ensures Run(s, [a]) == Next(s, a)
  {
    assert [a][..0] == [];
  }

  lemma {:induction false} RunTwo(s: State, a: Step, b: Step)
    ensures Run(s, [a, b]) == Next(Next(s, a), b)
  {
    RunOne(s, a);
    assert [a, b][..1] == [a];
  }

  lemma {:induction false} RunThree(s: State, a: Step, b: Step, c: Step)
    ensures Run(s, [a, b, c]) == Next(Next(Next(s, a), b), c)
  {
    RunTwo(s, a, b);
    assert [a, b, c][..2] == [a, b];
  }

  lemma {:induction false} RunConcat(s: State, a: seq<Step>, b: seq<Step>)
    ensures Run(s, a + b) == Run(Run(s, a), b)
    decreases |b|
  {
    if b == [] {
      assert a + b == a;
    } else {
      var front, last := b[..|b| - 1], b[|b| - 1];
      assert b == front + [last] && a + b == a + front + [last];
      RunConcat(s, a, front);
      RunSnoc(s, a + front, last);
      RunSnoc(Run(s, a), front, last);
    }
  }

  lemma {:induction false} RunSnoc(s: State, steps: seq<Step>, step: Step)
    ensures Run(s, steps + [step]) == Next(Run(s, steps), step)
  {
    assert (steps + [step])[..|steps|] == steps;
  }

  const Fresh := Wave(Planned, NoResult, false)

  /** The first of two waves runs. */
  const Begin: seq<Step> := [Enter, Scan, Start(true)]

  /** It passes with warnings and awaits a decision. */
  const Warn: seq<Step> := [FinishTasks(true), Judge(PassedWithWarnings)]

  /** An acceptance and a rejection both check the wave before the acceptance commits. */
  const Race: seq<Step> := [CheckAccept(0), CheckReject(0), CommitAccept(0)]

  /** The executor passes the accepted wave and comes to the next. */
  const Pass: seq<Step> := [Enter, Scan, Scan]

  /** Now the rejection commits, and the next wave starts. */
  const Late: seq<Step> := [CommitReject(0), Start(true)]

  lemma AfterBegin()
    ensures Run(Init(2), Begin) == State([Wave(Running, NoResult, false), Fresh], 0, Executing(0), false, false, multiset{}, [0])
  {
    RunThree(Init(2), Enter, Scan, Start(true));
    var a := DoScan(Init(2).(place := Scanning(0)));
    assert a == State([Fresh, Fresh], 0, Selected(0), false, false, multiset{}, []);
  }

  lemma {:induction false} AfterWarn(s: State)
    requires s == State([Wave(Running, NoResult, false), Fresh], 0, Executing(0), false, false, multiset{}, [0])
    ensures Run(s, Warn) == State([Wave(Waiting, PassedWithWarnings, false), Fresh], 0, Outside, false, false, multiset{}, [0])
  {
    RunTwo(s, FinishTasks(true), Judge(PassedWithWarnings));
    assert Next(s, FinishTasks(true)) == s.(waves := [Wave(InBarrier, NoResult, false), Fresh], place := AtBarrier(0));
  }

  lemma {:induction false} AfterRace(s: State)
    requires s == State([Wave(Waiting, PassedWithWarnings, false), Fresh], 0, Outside, false, false, multiset{}, [0])
    ensures Run(s, Race) ==
            State([Wave(Verified, PassedWithWarnings, true), Fresh], 0, Outside, false, false, multiset{Rejecting(0)}, [0])
  {
    RunThree(s, CheckAccept(0), CheckReject(0), CommitAccept(0));
    var a := DoCheck(DoCheck(s, 0, Accepting(0)), 0, Rejecting(0));
    assert a == s.(calls := multiset{Accepting(0), Rejecting(0)});
    AcceptedRace(a);
  }

  lemma AcceptedRace(a: State)
    requires a.waves == [Wave(Waiting, PassedWithWarnings, false), Fresh] && a.calls == multiset{Accepting(0), Rejecting(0)}
    ensures DoAccept(a, 0) == a.(waves := [Wave(Verified, PassedWithWarnings, true), Fresh], calls := multiset{Rejecting(0)})
  {
    assert multiset{Accepting(0), Rejecting(0)} - multiset{Accepting(0)} == multiset{Rejecting(0)};
  }

  lemma {:induction false} AfterPass(s: State)
    requires s == State([Wave(Verified, PassedWithWarnings, true), Fresh], 0, Outside, false, false, multiset{Rejecting(0)}, [0])
    ensures Run(s, Pass) == s.(place := Selected(1), current := 1)
  {
    RunThree(s, Enter, Scan, Scan);
    assert Next(Next(s, Enter), Scan) == s.(place := Scanning(1));
  }

  lemma {:induction false} AfterLate(s: State)
    requires s.waves == [Wave(Verified, PassedWithWarnings, true), Fresh] && s.place == Selected(1)
    requires s.calls == multiset{Rejecting(0)} && s.started == [0]
    ensures var t := Run(s, Late); t.started == [0, 1] && |t.waves| == 2 && t.waves[0].status == Failed && !DoneBefore(t, 1)
  {
    RunTwo(s, CommitReject(0), Start(true));
    LateRejectionBreaksOrder(s, 1, 0);
    RunOne(Next(s, CommitReject(0)), Start(true));
  }

  /** A whole run from the start in which the second wave starts behind a first one that is failed. */
  lemma LateRejectionReachable()
    ensures var t := Run(Init(2), Begin + Warn + Race + Pass + Late);
      t.started == [0, 1] && |t.waves| == 2 && t.waves[0].status == Failed && !DoneBefore(t, 1)
  {
    var a, b := Begin + Warn, Begin + Warn + Race;
    AfterBegin();
    RunConcat(Init(2), Begin, Warn);
    AfterWarn(Run(Init(2), Begin));
    RunConcat(Init(2), a, Race);
    AfterRace(Run(Init(2), a));
    RunConcat(Init(2), b, Pass);
    AfterPass(Run(Init(2), b));
    RunConcat(Init(2), b + Pass, Late);
    AfterLate(Run(Init(2), b + Pass));
  }

  // ----- a plan can be finished -----

  function Times(step: Step, n: nat): seq<Step> {
    if n == 0 then [] else Times(step, n - 1) + [step]
  }

  function Scanned(s: State, k: nat): State {
    if k == 0 then s else DoScan(Scanned(s, k - 1))
  }

  lemma {:induction false} RunsOfScan(s: State, k: nat)
    ensures Run(s, Times(Scan, k)) == Scanned(s, k)
  {
    if k > 0 {
      RunsOfScan(s, k - 1);
      RunSnoc(s, Times(Scan, k - 1), Scan);
    }
  }

  lemma {:induction false} ScannedPast(s: State, k: nat)
    requires s.place == Scanning(0) && DoneBefore(s, k)
    ensures Scanned(s, k) == s.(place := Scanning(k))
  {
    if k > 0 {
      ScannedPast(s, k - 1);
    }
  }

  /** A new entry passes the waves that are done. */
  lemma {:induction false} ScansOver(s: State, k: nat)
    requires s.place == Scanning(0) && DoneBefore(s, k)
    ensures Run(s, Times(Scan, k)) == s.(place := Scanning(k))
  {
    RunsOfScan(s, k);
    ScannedPast(s, k);
  }

  /** The steps of one wave: it passes, or its warnings are accepted and the executor enters again. */
  function WaveSteps(i: nat, warned: bool): seq<Step> {
    [Scan, Start(true), FinishTasks(true)]
    + if warned then [Judge(PassedWithWarnings), CheckAccept(i), CommitAccept(i)] + [Enter] + Times(Scan, i + 1) else [Judge(Passed)]
  }

  function PlanSteps(warned: seq<bool>): seq<Step> {
    if warned == [] then [Enter] else PlanSteps(warned[..|warned| - 1]) + WaveSteps(|warned| - 1, warned[|warned| - 1])
  }

  function Indices(n: nat): seq<nat> {
    if n == 0 then [] else Indices(n - 1) + [n - 1]
  }

  /** The first k waves are settled and were started in order, the executor comes to the next, the others are untouched. */
  predicate Progressed(s: State, k: nat) {
    && k <= |s.waves| && s.place == Scanning(k) && !s.over && !s.completed && s.calls == multiset{} && s.started == Indices(k)
    && (forall j :: 0 <= j < k ==> Settled(s.waves[j])) && (forall j :: k <= j < |s.waves| ==> s.waves[j] == Fresh)
  }

  /** One wave from its selection to its verdict. */
  lemma {:induction false} ReachesBarrier(s: State, k: nat)
    requires Progressed(s, k) && k < |s.waves|
    ensures Run(s, [Scan, Start(true), FinishTasks(true)]) ==
            s.(waves := s.waves[k := Fresh.(status := InBarrier)], current := k, place := AtBarrier(k), started := Indices(k + 1))
  {
    RunThree(s, Scan, Start(true), FinishTasks(true));
    var a := DoStart(DoScan(s), true);
    assert s.waves[k := Fresh.(status := Running)][k := Fresh.(status := InBarrier)] == s.waves[k := Fresh.(status := InBarrier)];
  }

  lemma {:induction false} PassedProgresses(s: State, b: State, k: nat)
    requires Progressed(s, k) && k < |s.waves|
    requires b == s.(waves := s.waves[k := Fresh.(status := InBarrier)], current := k, place := AtBarrier(k), started := Indices(k + 1))
    ensures Progressed(Run(b, [Judge(Passed)]), k + 1) && |Run(b, [Judge(Passed)]).waves| == |s.waves|
  {
    RunOne(b, Judge(Passed));
  }

  lemma WarnedWave(b: State, k: nat)
    requires b.place == AtBarrier(k) && k < |b.waves| && b.waves[k] == Fresh.(status := InBarrier)
    ensures Next(b, Judge(PassedWithWarnings)) == b.(waves := b.waves[k := Wave(Waiting, PassedWithWarnings, false)], place := Outside)
  {
  }

  lemma AcceptedCall(j: State, k: nat)
    requires k < |j.waves| && j.waves[k] == Wave(Waiting, PassedWithWarnings, false) && j.calls == multiset{}
    ensures DoAccept(DoCheck(j, k, Accepting(k)), k) == j.(waves := j.waves[k := Wave(Verified, PassedWithWarnings, true)])
  {
    var c := DoCheck(j, k, Accepting(k));
    assert c == j.(calls := multiset{Accepting(k)});
    assert c.calls - multiset{Accepting(k)} == multiset{};
  }

  lemma {:induction false} AcceptedWave(b: State, k: nat)
    requires b.place == AtBarrier(k) && k < |b.waves| && b.waves[k] == Fresh.(status := InBarrier) && b.calls == multiset{}
    ensures Run(b, [Judge(PassedWithWarnings), CheckAccept(k), CommitAccept(k)]) ==
            b.(waves := b.waves[k := Wave(Verified, PassedWithWarnings, true)], place := Outside)
  {
    RunThree(b, Judge(PassedWithWarnings), CheckAccept(k), CommitAccept(k));
    WarnedWave(b, k);
    AcceptedCall(Next(b, Judge(PassedWithWarnings)), k);
    var w, v := Wave(Waiting, PassedWithWarnings, false), Wave(Verified, PassedWithWarnings, true);
    assert b.waves[k := w][k := v] == b.waves[k := v];
  }

  lemma AcceptedIsDone(s: State, o: State, k: nat)
    requires Progressed(s, k) && k < |s.waves| && o.waves == s.waves[k := Wave(Verified, PassedWithWarnings, true)]
    ensures DoneBefore(o, k + 1) && (forall j :: 0 <= j < k + 1 ==> Settled(o.waves[j]))
    ensures forall j :: k + 1 <= j < |o.waves| ==> o.waves[j] == Fresh
  {
  }

  lemma {:induction false} EntersAgain(o: State, k: nat)
    requires o.place == Outside && !o.over && DoneBefore(o, k)
    ensures Run(o, [Enter] + Times(Scan, k)) == o.(place := Scanning(k))
  {
    RunConcat(o, [Enter], Times(Scan, k));
    RunOne(o, Enter);
    var e := o.(place := Scanning(0));
    assert Next(o, Enter) == e && DoneBefore(e, k);
    ScansOver(e, k);
  }

  lemma AcceptedProgresses(s: State, o: State, k: nat)
    requires Progressed(s, k) && k < |s.waves|
    requires o.waves == s.waves[k := Wave(Verified, PassedWithWarnings, true)] && o.place == Outside && o.started == Indices(k + 1)
    requires !o.over && !o.completed && o.calls == multiset{}
    ensures Progressed(Run(o, [Enter] + Times(Scan, k + 1)), k + 1) && |Run(o, [Enter] + Times(Scan, k + 1)).waves| == |s.waves|
  {
    AcceptedIsDone(s, o, k);
    EntersAgain(o, k + 1);
  }

  lemma {:induction false} WaveProgresses(s: State, k: nat, warned: bool)
    requires Progressed(s, k) && k < |s.waves|
    ensures Progressed(Run(s, WaveSteps(k, warned)), k + 1) && |Run(s, WaveSteps(k, warned)).waves| == |s.waves|
  {
    var to := [Scan, Start(true), FinishTasks(true)];
    ReachesBarrier(s, k);
    var b := Run(s, to);
    if warned {
      var accept, again := [Judge(PassedWithWarnings), CheckAccept(k), CommitAccept(k)], [Enter] + Times(Scan, k + 1);
      assert WaveSteps(k, warned) == to + (accept + again);
      RunConcat(s, to, accept + again);
      RunConcat(b, accept, again);
      AcceptedWave(b, k);
      var v := Wave(Verified, PassedWithWarnings, true);
      assert b.waves[k := v] == s.waves[k := v];
      AcceptedProgresses(s, Run(b, accept), k);
    } else {
      RunConcat(s, to, [Judge(Passed)]);
      PassedProgresses(s, b, k);
    }
  }

  lemma {:induction false} PlanProgresses(n: nat, warned: seq<bool>)
    requires |warned| <= n
    ensures Progressed(Run(Init(n), PlanSteps(warned)), |warned|) && |Run(Init(n), PlanSteps(warned)).waves| == n
  {
    if warned == [] {
      RunOne(Init(n), Enter);
    } else {
      var k := |warned| - 1;
      PlanProgresses(n, warned[..k]);
      RunConcat(Init(n), PlanSteps(warned[..k]), WaveSteps(k, warned[k]));
      WaveProgresses(Run(Init(n), PlanSteps(warned[..k])), k, warned[k]);
    }
  }

  lemma {:induction false} Finishes(s: State, final: FinalResult)
    requires Progressed(s, |s.waves|) && final in {FinalPassed, FinalAccepted}
    ensures var t := Run(s, [Scan, Verify(final)] + [Recheck, Complete]);
      t.completed && AtRest(t) && t.started == s.started && t.waves == s.waves
  {
    RunConcat(s, [Scan, Verify(final)], [Recheck, Complete]);
    RunTwo(s, Scan, Verify(final));
    var a := Run(s, [Scan, Verify(final)]);
    RunTwo(a, Recheck, Complete);
  }

  /**
   Every plan can be finished: whichever of its waves pass with warnings, when those and the ones of
   the final verification are accepted, the waves start one after the other, each once, and the run
   completes with all of them settled.
   */
  lemma {:induction false} EveryPlanCanComplete(warned: seq<bool>, final: FinalResult)
    requires final in {FinalPassed, FinalAccepted}
    ensures var t := Run(Init(|warned|), PlanSteps(warned) + [Scan, Verify(final)] + [Recheck, Complete]);
      t.completed && AtRest(t) && |t.waves| == |warned| && AllSettled(t.waves) && t.started == Indices(|warned|)
  {
    var n, last := |warned|, [Scan, Verify(final)] + [Recheck, Complete];
    PlanProgresses(n, warned);
    assert PlanSteps(warned) + [Scan, Verify(final)] + [Recheck, Complete] == PlanSteps(warned) + last;
    RunConcat(Init(n), PlanSteps(warned), last);
    Finishes(Run(Init(n), PlanSteps(warned)), final);
  }

  /** The executor goes past a wave exactly when it is verified or its warnings are accepted, whatever became of its status since. */
  lemma PassedOverIff(s: State, i: nat)
    requires s.place == Scanning(i) && i < |s.waves|
    ensures var w, t := s.waves[i], Next(s, Scan);
      && t.waves == s.waves && t.started == s.started && t.over == s.over
      && t.place == if w.status == Verified || (w.result == PassedWithWarnings && w.accepted) then Scanning(i + 1) else Selected(i)
  {
  }

  /** A call to accept or reject gets past its check exactly for a wave that waits with warnings nobody has accepted. */
  lemma DecisionNeedsWarning(s: State, i: nat)
    requires Accepting(i) !in s.calls && Rejecting(i) !in s.calls
    ensures Accepting(i) in Next(s, CheckAccept(i)).calls <==> i < |s.waves| && s.waves[i] == Wave(Waiting, PassedWithWarnings, false)
    ensures Rejecting(i) in Next(s, CheckReject(i)).calls <==> i < |s.waves| && s.waves[i] == Wave(Waiting, PassedWithWarnings, false)
  {
  }

  /** With every wave done, final warnings wait outside and are looked at again on the next entry. */
  lemma FinalWarningsAreSeenAgain(s: State)
    requires s.place == Final && DoneBefore(s, |s.waves|) && !s.over
    ensures var t := Next(s, Verify(FinalWarned));
      t.place == Outside && !t.over && Run(t, [Enter] + Times(Scan, |s.waves|) + [Scan]).place == Final
  {
    var t := Next(s, Verify(FinalWarned));
    RunSnoc(t, [Enter] + Times(Scan, |s.waves|), Scan);
    EntersAgain(t, |s.waves|);
  }

  /** A restart forgets the calls under way and keeps the waves; a run that is not over, or whose end was lost, is entered from the first wave. */
  lemma RestartReenters(s: State, lost: bool)
    ensures var t := Next(Next(s, Restart(lost)), Enter);
      && t.waves == s.waves && t.started == s.started && t.calls == multiset{}
      && t.place == if s.over && !lost then Stopped else Scanning(0)
  {
  }

  // ----- and a run that is over starts nothing -----

  predicate AtRest(s: State) {
    s.over && (s.place == Outside || s.place == Stopped)
  }

  lemma RestStep(s: State, step: Step)
    requires AtRest(s) && step != Restart(true)
    ensures AtRest(Next(s, step)) && Next(s, step).started == s.started
  {
  }

  lemma {:induction false} NothingStartsAtRest(s: State, steps: seq<Step>)
    requires AtRest(s) && forall i :: 0 <= i < |steps| ==> steps[i] != Restart(true)
    ensures AtRest(Run(s, steps)) && Run(s, steps).started == s.started
  {
    if steps != [] {
      NothingStartsAtRest(s, steps[..|steps| - 1]);
      RestStep(Run(s, steps[..|steps| - 1]), steps[|steps| - 1]);
    }
  }

  /** A failed final verification, or a last look that finds a wave not settled, ends the run without completing it. */
  lemma UnsettledEndsRun(s: State)
    ensures s.place == Final ==> AtRest(Next(s, Verify(FinalFailed))) && Next(s, Verify(FinalFailed)).completed == s.completed
    ensures s.place == Rechecking && !AllSettled(s.waves) ==> AtRest(Next(s, Recheck)) && Next(s, Recheck).completed == s.completed
  {
  }

  /** Cancelling ends a run that is inside its loop, with the current wave cancelled, and nothing starts any more. */
  lemma {:induction false} CancelEndsRun(s: State, steps: seq<Step>)
    requires s.place != Outside && s.place != Stopped && forall k :: 0 <= k < |steps| ==> steps[k] != Restart(true)
    ensures var t := Next(s, Cancel);
      && t.over && t.completed == s.completed && (s.current < |s.waves| ==> t.waves[s.current].status == Cancelled)
      && Run(t, steps).started == s.started
  {
    NothingStartsAtRest(Next(s, Cancel), steps);
  }

  /** The executor is at the barrier of wave i, which is the current one. */
  predicate AtVerdict(s: State, i: nat) {
    s.place == AtBarrier(i) && s.current == i < |s.waves|
  }

  /** A verdict that is neither passed, warned nor blocked ends the run with the wave failed or cancelled, and nothing starts any more. */
  lemma {:induction false} BadVerdictEndsRun(s: State, i: nat, r: Result, steps: seq<Step>)
    requires AtVerdict(s, i) && r in {FailedResult, CancelledResult, NoResult}
    requires forall k :: 0 <= k < |steps| ==> steps[k] != Restart(true)
    ensures var t := Next(s, Judge(r));
      && t.over && t.completed == s.completed && t.waves[i].status == (if r == CancelledResult then Cancelled else Failed)
      && Run(t, steps).started == s.started
  {
    NothingStartsAtRest(Next(s, Judge(r)), steps);
  }

  /** A blocked or warned wave waits outside, and the next entry of a run that is not over comes back to it. */
  lemma {:induction false} HeldWaveIsTakenUpAgain(s: State, i: nat, r: Result)
    requires AtVerdict(s, i) && DoneBefore(s, i) && !s.over && !s.waves[i].accepted && r in {PassedWithWarnings, BlockedResult}
    ensures var t := Next(s, Judge(r));
      && t.place == Outside && t.waves[i].status == (if r == BlockedResult then Blocked else Waiting)
      && Run(t, [Enter] + Times(Scan, i) + [Scan]).place == Selected(i)
  {
    var t := Next(s, Judge(r));
    RunSnoc(t, [Enter] + Times(Scan, i), Scan);
    EntersAgain(t, i);
  }
}
