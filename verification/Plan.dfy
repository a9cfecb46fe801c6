/** Run plans (internal/run/plan.go:47-92): waves in order, tasks that depend only on earlier waves. */
module Plan {
  import opened Paths
  import opened Preflight

  datatype WavePlan = WavePlan(id: string, tasks: seq<Task>)

  /** SchemaOk tells whether the schema version is the supported one. */
  datatype RunPlan = RunPlan(schemaOk: bool, waves: seq<WavePlan>)

  predicate WaveIdsFit(waves: seq<WavePlan>) {
    && (forall i :: 0 <= i < |waves| ==> TrimSpace(waves[i].id) != [])
    && (forall i, j :: 0 <= i < j < |waves| ==> waves[i].id != waves[j].id)
  }

  /** The wave check the plan is validated with. */
  type WaveCheck = seq<Task> -> bool

  /** No task id occurs at two places. */
  predicate TasksDistinct(waves: seq<WavePlan>) {
    forall i, k, j, l ::
      (0 <= i < |waves| && 0 <= k < |waves[i].tasks| && 0 <= j < |waves| && 0 <= l < |waves[j].tasks| &&
       waves[i].tasks[k].id == waves[j].tasks[l].id) ==> i == j && k == l
  }

  /** The wave before index n that holds the task, if there is one. */
  predicate HeldBefore(waves: seq<WavePlan>, n: nat, id: string) {
    exists j :: 0 <= j < n && j < |waves| && id in Ids(waves[j].tasks)
  }

  predicate DependsBackwards(waves: seq<WavePlan>, i: nat)
    requires i < |waves|
  {
    forall t, d :: t in waves[i].tasks && d in t.dependsOn ==> HeldBefore(waves, i, d)
  }

  predicate PlanFits(check: WaveCheck, plan: RunPlan) {
    && plan.schemaOk && plan.waves != []
    && WaveIdsFit(plan.waves) && TasksDistinct(plan.waves)
    && (forall i :: 0 <= i < |plan.waves| ==> plan.waves[i].tasks != [] && check(plan.waves[i].tasks))
    && (forall i :: 0 <= i < |plan.waves| ==> DependsBackwards(plan.waves, i))
  }

  // ----- the two passes -----

  /** TaskWave maps exactly the tasks of the first n waves to their wave. */
  ghost predicate Maps(waves: seq<WavePlan>, n: nat, taskWave: map<string, nat>) {
    && n <= |waves|
    && (forall id :: id in taskWave ==> taskWave[id] < n && id in Ids(waves[taskWave[id]].tasks))
    && (forall j, t :: 0 <= j < n && t in waves[j].tasks ==> t.id in taskWave)
  }

  /** The inner loop of the first pass: enter the tasks of wave n, refusing one seen before. */
  method EnterTasks(waves: seq<WavePlan>, n: nat, before: map<string, nat>) returns (ok: bool, taskWave: map<string, nat>)
    requires n < |waves| && Maps(waves, n, before) && TasksDistinct(waves[..n])
    ensures ok <==> TasksDistinct(waves[..n + 1])
    ensures ok ==> Maps(waves, n + 1, taskWave)
  {
    taskWave := before;
    var tasks := waves[n].tasks;
    for k := 0 to |tasks|
      invariant taskWave.Keys == before.Keys + Ids(tasks[..k])
      invariant forall id :: id in before ==> id in taskWave && taskWave[id] == before[id]
      invariant forall id :: id in taskWave && id !in before ==> taskWave[id] == n
      invariant forall i :: 0 <= i < k ==> tasks[i].id !in before
      invariant DistinctIds(tasks[..k])
    {
      IdsGrow(tasks, k);
      if tasks[k].id in taskWave {
        Repeated(waves, n, before, k);
        return false, taskWave;
      }
      taskWave := taskWave[tasks[k].id := n];
    }
    assert tasks[..|tasks|] == tasks;
    ok := true;
    StillDistinct(waves, n, before);
    Entered(waves, n, before, taskWave);
  }

  lemma IdsGrow(tasks: seq<Task>, k: nat)
    requires k < |tasks|
    ensures Ids(tasks[..k + 1]) == Ids(tasks[..k]) + {tasks[k].id}
    ensures DistinctIds(tasks[..k + 1]) <==> DistinctIds(tasks[..k]) && tasks[k].id !in Ids(tasks[..k])
  {
    ScopesGrow(tasks, k);
    DistinctGrow(tasks, k);
  }

  lemma Repeated(waves: seq<WavePlan>, n: nat, before: map<string, nat>, k: nat)
    requires n < |waves| && Maps(waves, n, before) && k < |waves[n].tasks|
    requires waves[n].tasks[k].id in before.Keys + Ids(waves[n].tasks[..k])
    ensures !TasksDistinct(waves[..n + 1])
  {
    var upto, id := waves[..n + 1], waves[n].tasks[k].id;
    assert upto[n] == waves[n];
    if id in before {
      var j := before[id];
      var t :| t in waves[j].tasks && t.id == id;
      var l :| 0 <= l < |waves[j].tasks| && waves[j].tasks[l] == t;
      assert upto[j].tasks[l].id == upto[n].tasks[k].id;
    } else {
      var t :| t in waves[n].tasks[..k] && t.id == id;
      var l :| 0 <= l < k && waves[n].tasks[l] == t;
      assert upto[n].tasks[l].id == upto[n].tasks[k].id;
    }
  }

  lemma StillDistinct(waves: seq<WavePlan>, n: nat, before: map<string, nat>)
    requires n < |waves| && Maps(waves, n, before) && TasksDistinct(waves[..n])
    requires DistinctIds(waves[n].tasks) && forall k :: 0 <= k < |waves[n].tasks| ==> waves[n].tasks[k].id !in before
    ensures TasksDistinct(waves[..n + 1])
  {
    var upto := waves[..n + 1];
    forall i, k, j, l | 0 <= i <= n && 0 <= k < |upto[i].tasks| && 0 <= j <= n && 0 <= l < |upto[j].tasks| &&
      upto[i].tasks[k].id == upto[j].tasks[l].id
      ensures i == j && k == l
    {
      EarlierIsMapped(waves, n, before, i, k);
      EarlierIsMapped(waves, n, before, j, l);
      if i < n && j < n {
        assert waves[..n][i].tasks[k].id == waves[..n][j].tasks[l].id;
      }
    }
  }

  lemma EarlierIsMapped(waves: seq<WavePlan>, n: nat, before: map<string, nat>, i: nat, k: nat)
    requires Maps(waves, n, before) && i < |waves| && k < |waves[i].tasks|
    ensures i < n ==> waves[i].tasks[k].id in before
  {
    assert waves[i].tasks[k] in waves[i].tasks;
  }

  lemma Entered(waves: seq<WavePlan>, n: nat, before: map<string, nat>, taskWave: map<string, nat>)
    requires n < |waves| && Maps(waves, n, before) && taskWave.Keys == before.Keys + Ids(waves[n].tasks)
    requires forall id :: id in before ==> id in taskWave && taskWave[id] == before[id]
    requires forall id :: id in taskWave && id !in before ==> taskWave[id] == n
    ensures Maps(waves, n + 1, taskWave)
  {
  }

  /** What the first pass has established about the first n waves. */
  ghost predicate PassedFirst(check: WaveCheck, waves: seq<WavePlan>, n: nat) {
    && n <= |waves| && WaveIdsFit(waves[..n]) && TasksDistinct(waves[..n])
    && forall i :: 0 <= i < n ==> waves[i].tasks != [] && check(waves[i].tasks)
  }

  lemma WaveIdsGrow(waves: seq<WavePlan>, n: nat)
    requires n < |waves|
    ensures WaveIdsFit(waves[..n + 1]) <==>
            && WaveIdsFit(waves[..n]) && TrimSpace(waves[n].id) != []
            && forall i :: 0 <= i < n ==> waves[i].id != waves[n].id
  {
    assert waves[..n + 1] == waves[..n] + [waves[n]];
  }

  lemma FirstPassShrinks(check: WaveCheck, waves: seq<WavePlan>, n: nat)
    requires PassedFirst(check, waves, |waves|) && n <= |waves|
    ensures PassedFirst(check, waves, n)
  {
    assert waves[..|waves|] == waves;
    var front := waves[..n];
    assert forall i :: 0 <= i < n ==> front[i] == waves[i];
  }

  /** Preflight of one wave, as the check the plan is stated with. */
  method CheckWave(tasks: seq<Task>) returns (allowed: bool)
    ensures allowed <==> StaticCheck()(tasks)
  {
    var issues;
    allowed, issues := Preflight.Preflight(tasks);
  }

  function StaticCheck(): WaveCheck {
    Admissible
  }

  method FirstPass(ghost check: WaveCheck, waves: seq<WavePlan>, verdicts: seq<bool>) returns (ok: bool, taskWave: map<string, nat>)
    requires Judged(check, waves, verdicts, |waves|)
    ensures ok <==> PassedFirst(check, waves, |waves|)
    ensures ok ==> Maps(waves, |waves|, taskWave)
  {
    taskWave := map[];
    var seen: set<string> := {};
    for n := 0 to |waves|
      invariant PassedFirst(check, waves, n) && Maps(waves, n, taskWave)
      invariant seen == set i | 0 <= i < n :: waves[i].id
    {
      WaveIdsGrow(waves, n);
      if PassedFirst(check, waves, |waves|) {
        FirstPassShrinks(check, waves, n + 1);
      }
      if TrimSpace(waves[n].id) == [] || waves[n].id in seen || waves[n].tasks == [] {
        return false, taskWave;
      }
      seen := seen + {waves[n].id};
      ok, taskWave := EnterTasks(waves, n, taskWave);
      if !ok || !verdicts[n] {
        return false, taskWave;
      }
    }
    ok := true;
  }

  lemma HeldIffMapped(waves: seq<WavePlan>, taskWave: map<string, nat>, n: nat, id: string)
    requires Maps(waves, |waves|, taskWave) && TasksDistinct(waves) && n <= |waves|
    ensures HeldBefore(waves, n, id) <==> id in taskWave && taskWave[id] < n
  {
    if HeldBefore(waves, n, id) {
      var j :| 0 <= j < n && id in Ids(waves[j].tasks);
      var t :| t in waves[j].tasks && t.id == id;
      SameWave(waves, taskWave, id, j);
    }
  }

  lemma SameWave(waves: seq<WavePlan>, taskWave: map<string, nat>, id: string, j: nat)
    requires Maps(waves, |waves|, taskWave) && TasksDistinct(waves) && id in taskWave && j < |waves| && id in Ids(waves[j].tasks)
    ensures taskWave[id] == j
  {
    var t :| t in waves[j].tasks && t.id == id;
    var k :| 0 <= k < |waves[j].tasks| && waves[j].tasks[k] == t;
    var u :| u in waves[taskWave[id]].tasks && u.id == id;
    var l :| 0 <= l < |waves[taskWave[id]].tasks| && waves[taskWave[id]].tasks[l] == u;
  }

  method CheckDependencies(waves: seq<WavePlan>, taskWave: map<string, nat>, i: nat, t: Task) returns (ok: bool)
    requires Maps(waves, |waves|, taskWave) && TasksDistinct(waves) && i < |waves|
    ensures ok <==> forall d :: d in t.dependsOn ==> HeldBefore(waves, i, d)
  {
    for k := 0 to |t.dependsOn|
      invariant forall l :: 0 <= l < k ==> HeldBefore(waves, i, t.dependsOn[l])
    {
      HeldIffMapped(waves, taskWave, i, t.dependsOn[k]);
      if t.dependsOn[k] !in taskWave || taskWave[t.dependsOn[k]] >= i {
        assert t.dependsOn[k] in t.dependsOn;
        return false;
      }
    }
    ok := true;
  }

  method SecondPass(waves: seq<WavePlan>, taskWave: map<string, nat>) returns (ok: bool)
    requires Maps(waves, |waves|, taskWave) && TasksDistinct(waves)
    ensures ok <==> forall i :: 0 <= i < |waves| ==> DependsBackwards(waves, i)
  {
    for i := 0 to |waves|
      invariant forall j :: 0 <= j < i ==> DependsBackwards(waves, j)
    {
      for k := 0 to |waves[i].tasks|
        invariant forall l, d :: 0 <= l < k && d in waves[i].tasks[l].dependsOn ==> HeldBefore(waves, i, d)
      {
        var fine := CheckDependencies(waves, taskWave, i, waves[i].tasks[k]);
        if !fine {
          assert waves[i].tasks[k] in waves[i].tasks;
          assert !DependsBackwards(waves, i);
          return false;
        }
      }
    }
    ok := true;
  }

  /** One verdict for each of the first n waves. */
  ghost predicate Judged(check: WaveCheck, waves: seq<WavePlan>, verdicts: seq<bool>, n: nat) {
    n <= |waves| && |verdicts| == n && forall i :: 0 <= i < n ==> verdicts[i] == check(waves[i].tasks)
  }

  lemma OneMoreJudged(check: WaveCheck, waves: seq<WavePlan>, verdicts: seq<bool>, n: nat, allowed: bool)
    requires Judged(check, waves, verdicts, n) && n < |waves| && allowed == check(waves[n].tasks)
    ensures Judged(check, waves, verdicts + [allowed], n + 1)
  {
  }

  method PreflightAll(waves: seq<WavePlan>) returns (verdicts: seq<bool>)
    ensures Judged(StaticCheck(), waves, verdicts, |waves|)
  {
    verdicts := [];
    for i := 0 to |waves|
      invariant Judged(StaticCheck(), waves, verdicts, i)
    {
      var allowed := CheckWave(waves[i].tasks);
      OneMoreJudged(StaticCheck(), waves, verdicts, i, allowed);
      verdicts := verdicts + [allowed];
    }
  }

  /** ValidatePlan accepts exactly the plans that fit. */
  method ValidatePlan(plan: RunPlan) returns (ok: bool)
    ensures ok <==> PlanFits(StaticCheck(), plan)
  {
    if !plan.schemaOk || plan.waves == [] {
      return false;
    }
    var verdicts := PreflightAll(plan.waves);
    ok := Validate(StaticCheck(), plan, verdicts);
  }

  method Validate(ghost check: WaveCheck, plan: RunPlan, verdicts: seq<bool>) returns (ok: bool)
    requires plan.schemaOk && plan.waves != []
    requires Judged(check, plan.waves, verdicts, |plan.waves|)
    ensures ok <==> PlanFits(check, plan)
  {
    var taskWave;
    ok, taskWave := FirstPass(check, plan.waves, verdicts);
    assert plan.waves[..|plan.waves|] == plan.waves;
    if ok {
      ok := SecondPass(plan.waves, taskWave);
    }
  }

  // ----- what a fitting plan means -----

  /** Task a at a place in the plan depends on b. */
  predicate DependsOn(waves: seq<WavePlan>, a: string, b: string) {
    exists i, k :: 0 <= i < |waves| && 0 <= k < |waves[i].tasks| && waves[i].tasks[k].id == a && b in waves[i].tasks[k].dependsOn
  }

  predicate InWave(waves: seq<WavePlan>, i: int, id: string) {
    0 <= i < |waves| && id in Ids(waves[i].tasks)
  }

  lemma OneWavePerTask(check: WaveCheck, plan: RunPlan, id: string, i: int, j: int)
    requires PlanFits(check, plan) && InWave(plan.waves, i, id) && InWave(plan.waves, j, id)
    ensures i == j
  {
    var t :| t in plan.waves[i].tasks && t.id == id;
    var u :| u in plan.waves[j].tasks && u.id == id;
    var k :| 0 <= k < |plan.waves[i].tasks| && plan.waves[i].tasks[k] == t;
    var l :| 0 <= l < |plan.waves[j].tasks| && plan.waves[j].tasks[l] == u;
  }

  /** A dependency lies in a strictly earlier wave. */
  lemma DependencyIsEarlier(check: WaveCheck, plan: RunPlan, a: string, b: string, i: int) returns (j: int)
    requires PlanFits(check, plan) && DependsOn(plan.waves, a, b) && InWave(plan.waves, i, a)
    ensures InWave(plan.waves, j, b) && j < i
  {
    var n, k :| 0 <= n < |plan.waves| && 0 <= k < |plan.waves[n].tasks| && plan.waves[n].tasks[k].id == a &&
      b in plan.waves[n].tasks[k].dependsOn;
    assert plan.waves[n].tasks[k] in plan.waves[n].tasks;
    OneWavePerTask(check, plan, a, i, n);
    assert DependsBackwards(plan.waves, n);
    assert HeldBefore(plan.waves, n, b);
    j :| 0 <= j < n && j < |plan.waves| && b in Ids(plan.waves[j].tasks);
  }

  /** Each task of the path depends on the next. */
  predicate IsPath(waves: seq<WavePlan>, path: seq<string>) {
    forall i :: 0 <= i < |path| - 1 ==> DependsOn(waves, path[i], path[i + 1])
  }

  lemma {:induction false} PathDescends(check: WaveCheck, plan: RunPlan, path: seq<string>, i: int) returns (j: int)
    requires PlanFits(check, plan) && |path| >= 2 && IsPath(plan.waves, path) && InWave(plan.waves, i, path[0])
    ensures InWave(plan.waves, j, path[|path| - 1]) && j < i
    decreases |path|
  {
    assert DependsOn(plan.waves, path[0], path[1]);
    j := DependencyIsEarlier(check, plan, path[0], path[1], i);
    if |path| > 2 {
      var rest := path[1..];
      forall k | 0 <= k < |rest| - 1
        ensures DependsOn(plan.waves, rest[k], rest[k + 1])
      {
        assert DependsOn(plan.waves, path[k + 1], path[k + 2]);
      }
      j := PathDescends(check, plan, rest, j);
    }
  }

  /** No chain of dependencies leads back to its start. */
  lemma PlanIsAcyclic(check: WaveCheck, plan: RunPlan, path: seq<string>)
    requires PlanFits(check, plan) && |path| >= 2 && IsPath(plan.waves, path)
    ensures path[0] != path[|path| - 1]
  {
    assert DependsOn(plan.waves, path[0], path[1]);
    var n, k :| 0 <= n < |plan.waves| && 0 <= k < |plan.waves[n].tasks| && plan.waves[n].tasks[k].id == path[0] &&
      path[1] in plan.waves[n].tasks[k].dependsOn;
    assert plan.waves[n].tasks[k] in plan.waves[n].tasks;
    var j := PathDescends(check, plan, path, n);
    DifferentWaves(check, plan, path[0], path[|path| - 1], n, j);
  }

  lemma DifferentWaves(check: WaveCheck, plan: RunPlan, a: string, b: string, i: int, j: int)
    requires PlanFits(check, plan) && InWave(plan.waves, i, a) && InWave(plan.waves, j, b) && i != j
    ensures a != b
  {
    if a == b {
      OneWavePerTask(check, plan, a, i, j);
    }
  }
}
