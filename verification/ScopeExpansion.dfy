/**
 Approving scope requests while a wave runs (internal/supervisor/messages.go:1167-1259): the write
 lease of one task grows, and the wave has to pass its static checks again.
 */
module ScopeExpansion {
  import opened Text
  import opened Scope
  import opened Preflight

  datatype Request = Request(taskId: string, requested: seq<string>, requiresPublic: bool, allowPublic: bool)

  /** What the lead decides; a grant can still be lost to a failed write. */
  datatype Decision = Grant(request: Request, stored: bool) | Refuse(request: Request)

  // ----- the tasks of one wave -----

  function WaveTasks(tasks: seq<Task>, wave: string): seq<Task> {
    if tasks == [] then []
    else
      var last := tasks[|tasks| - 1];
      WaveTasks(tasks[..|tasks| - 1], wave) + (if last.wave == wave then [last] else [])
  }

  /** The same list with every task of the target's id shown as the target. */
  function SameWave(tasks: seq<Task>, target: Task): seq<Task> {
    if tasks == [] then []
    else
      var last := tasks[|tasks| - 1];
      SameWave(tasks[..|tasks| - 1], target) +
      (if last.wave != target.wave then [] else if last.id == target.id then [target] else [last])
  }

  method CollectSameWave(tasks: seq<Task>, target: Task) returns (same: seq<Task>)
    ensures same == SameWave(tasks, target)
  {
    same := [];
    for i := 0 to |tasks|
      invariant same == SameWave(tasks[..i], target)
    {
      assert tasks[..i + 1][..i] == tasks[..i];
      if tasks[i].wave == target.wave {
        same := same + [if tasks[i].id == target.id then target else tasks[i]];
      }
    }
    assert tasks[..|tasks|] == tasks;
  }

  lemma {:induction false} SameWaveAt(tasks: seq<Task>, target: Task, k: nat)
    ensures |SameWave(tasks, target)| == |WaveTasks(tasks, target.wave)|
    ensures k < |WaveTasks(tasks, target.wave)| ==>
              var t := WaveTasks(tasks, target.wave)[k];
              SameWave(tasks, target)[k] == if t.id == target.id then target else t
  {
    if tasks != [] {
      SameWaveAt(tasks[..|tasks| - 1], target, k);
    }
  }

  lemma {:induction false} WaveTasksMember(tasks: seq<Task>, wave: string, t: Task)
    ensures t in WaveTasks(tasks, wave) <==> t in tasks && t.wave == wave
  {
    if tasks != [] {
      WaveTasksMember(tasks[..|tasks| - 1], wave, t);
      assert tasks == tasks[..|tasks| - 1] + [tasks[|tasks| - 1]];
    }
  }

  /** When the list passes with the target filled in, nothing but the target was filled in. */
  lemma {:induction false} SameWaveIsWave(tasks: seq<Task>, i: nat)
    requires i < |tasks| && DistinctIds(SameWave(tasks, tasks[i]))
    ensures SameWave(tasks, tasks[i]) == WaveTasks(tasks, tasks[i].wave)
  {
    var target := tasks[i];
    var same, all := SameWave(tasks, target), WaveTasks(tasks, target.wave);
    WaveTasksMember(tasks, target.wave, target);
    var k :| 0 <= k < |all| && all[k] == target;
    SameWaveAt(tasks, target, k);
    forall j | 0 <= j < |all|
      ensures same[j] == all[j]
    {
      SameWaveAt(tasks, target, j);
      assert j != k ==> same[j].id != same[k].id;
    }
  }

  /** Changing a task of another wave leaves the wave as it was. */
  lemma {:induction false} OtherWaveUnchanged(tasks: seq<Task>, i: nat, t: Task, wave: string)
    requires i < |tasks| && t.wave == tasks[i].wave != wave
    ensures WaveTasks(tasks[i := t], wave) == WaveTasks(tasks, wave)
  {
    var n := |tasks| - 1;
    if i == n {
      assert tasks[i := t][..n] == tasks[..n];
    } else {
      OtherWaveUnchanged(tasks[..n], i, t, wave);
      assert tasks[i := t][..n] == tasks[..n][i := t];
    }
  }

  // ----- what an approval does -----

  predicate FirstAt(tasks: seq<Task>, id: string, i: nat) {
    i < |tasks| && tasks[i].id == id && forall k :: 0 <= k < i ==> tasks[k].id != id
  }

  /** findTaskIndex. */
  method FindTaskIndex(tasks: seq<Task>, id: string) returns (i: Option<nat>)
    ensures i.Some? ==> FirstAt(tasks, id, i.value)
    ensures i.None? ==> forall k :: 0 <= k < |tasks| ==> tasks[k].id != id
  {
    for k := 0 to |tasks|
      invariant forall j :: 0 <= j < k ==> tasks[j].id != id
    {
      if tasks[k].id == id {
        return Some(k);
      }
    }
    i := None;
  }

  predicate AlreadyExpanded(t: Task, r: Request) {
    forall p :: p in r.requested ==> p in t.writeScope
  }

  /** A requested pattern must compile and stay apart from everything forbidden to the task. */
  predicate Grantable(p: string, forbidden: seq<string>) {
    Compile(p).Ok? && forall f :: f in forbidden ==> MayOverlap(p, f) == Ok(false)
  }

  /** The two checks an approval consults: a pattern against a forbidden scope, and a whole wave. */
  datatype Checks = Checks(grantable: (string, seq<string>) -> bool, admits: seq<Task> -> bool)

  function StaticChecks(): Checks {
    Checks(Grantable, Admissible)
  }

  predicate AllGrantable(c: Checks, t: Task, r: Request) {
    forall p :: p in r.requested ==> c.grantable(p, t.forbiddenScope)
  }

  predicate NothingToDo(t: Task, r: Request) {
    AlreadyExpanded(t, r) && t.allowPublic == r.allowPublic
  }

  function Widened(t: Task, r: Request): Task {
    t.(writeScope := if AlreadyExpanded(t, r) then t.writeScope else t.writeScope + r.requested,
       allowPublic := t.allowPublic || r.allowPublic)
  }

  /** What the request asks for is in order, apart from the wave as a whole. */
  predicate RequestStands(c: Checks, t: Task, r: Request) {
    r.requested != [] && AllGrantable(c, t, r) && (NothingToDo(t, r) || !r.requiresPublic || r.allowPublic)
  }

  /** When a grant goes through for the task at index i. */
  predicate Passes(c: Checks, tasks: seq<Task>, r: Request, i: nat)
    requires i < |tasks|
  {
    var next := tasks[i := Widened(tasks[i], r)];
    RequestStands(c, tasks[i], r) && (NothingToDo(tasks[i], r) || c.admits(SameWave(next, next[i])))
  }

  ghost predicate Approvable(c: Checks, tasks: seq<Task>, r: Request) {
    exists i: nat :: FirstAt(tasks, r.taskId, i) && Passes(c, tasks, r, i)
  }

  function After(tasks: seq<Task>, r: Request, i: nat): seq<Task>
    requires i < |tasks|
  {
    if NothingToDo(tasks[i], r) then tasks else tasks[i := Widened(tasks[i], r)]
  }

  /** The tasks after a grant; a grant with nothing to do leaves them alone. */
  ghost predicate Granted(c: Checks, tasks: seq<Task>, r: Request, next: seq<Task>) {
    exists i: nat :: FirstAt(tasks, r.taskId, i) && Passes(c, tasks, r, i) && next == After(tasks, r, i)
  }

  /** The loop over the requested patterns: refused, or tells whether all are held already. */
  method CheckRequested(c: Checks, t: Task, r: Request) returns (ok: bool, expanded: bool)
    ensures ok <==> AllGrantable(c, t, r)
    ensures ok ==> (expanded <==> AlreadyExpanded(t, r))
  {
    expanded := true;
    for i := 0 to |r.requested|
      invariant forall k :: 0 <= k < i ==> c.grantable(r.requested[k], t.forbiddenScope)
      invariant expanded <==> forall k :: 0 <= k < i ==> r.requested[k] in t.writeScope
    {
      if !c.grantable(r.requested[i], t.forbiddenScope) {
        return false, false;
      }
      if r.requested[i] !in t.writeScope {
        expanded := false;
      }
    }
    ok := true;
  }

  lemma FirstUnique(tasks: seq<Task>, id: string, i: nat, j: nat)
    requires FirstAt(tasks, id, i) && FirstAt(tasks, id, j)
    ensures i == j
  {
  }

  lemma GrantedAt(c: Checks, tasks: seq<Task>, r: Request, i: nat)
    requires FirstAt(tasks, r.taskId, i) && Passes(c, tasks, r, i)
    ensures Granted(c, tasks, r, After(tasks, r, i)) && Approvable(c, tasks, r)
  {
  }

  lemma RefusedAt(c: Checks, tasks: seq<Task>, r: Request, i: nat)
    requires FirstAt(tasks, r.taskId, i) && !Passes(c, tasks, r, i)
    ensures !Approvable(c, tasks, r)
  {
    forall j | FirstAt(tasks, r.taskId, j)
      ensures j == i
    {
      FirstUnique(tasks, r.taskId, i, j);
    }
  }

  datatype Plan = Refused | Held | Change(index: nat, target: Task)

  /** The part of the approval before the wave is checked again. */
  method Consider(c: Checks, tasks: seq<Task>, r: Request) returns (plan: Plan)
    ensures plan.Refused? ==> !Approvable(c, tasks, r)
    ensures plan.Held? ==> Granted(c, tasks, r, tasks) && Approvable(c, tasks, r)
    ensures plan.Change? ==>
              && FirstAt(tasks, r.taskId, plan.index) && !NothingToDo(tasks[plan.index], r)
              && RequestStands(c, tasks[plan.index], r) && plan.target == Widened(tasks[plan.index], r)
  {
    if r.requested == [] {
      return Refused;
    }
    var found := FindTaskIndex(tasks, r.taskId);
    if found.None? {
      return Refused;
    }
    var i := found.value;
    var fine, expanded := CheckRequested(c, tasks[i], r);
    if !fine {
      RefusedAt(c, tasks, r, i);
      return Refused;
    }
    if expanded && tasks[i].allowPublic == r.allowPublic {
      GrantedAt(c, tasks, r, i);
      return Held;
    }
    if r.requiresPublic && !r.allowPublic {
      RefusedAt(c, tasks, r, i);
      return Refused;
    }
    var target := tasks[i];
    if !expanded {
      target := target.(writeScope := target.writeScope + r.requested);
    }
    if r.allowPublic {
      target := target.(allowPublic := true);
    }
    plan := Change(i, target);
  }

  /** The wave check decides what is left to decide. */
  lemma Settle(c: Checks, tasks: seq<Task>, r: Request, i: nat, allowed: bool)
    requires FirstAt(tasks, r.taskId, i) && !NothingToDo(tasks[i], r) && RequestStands(c, tasks[i], r)
    requires var next := tasks[i := Widened(tasks[i], r)]; allowed <==> c.admits(SameWave(next, next[i]))
    ensures allowed <==> Approvable(c, tasks, r)
    ensures allowed ==> Granted(c, tasks, r, tasks[i := Widened(tasks[i], r)])
  {
    if allowed {
      GrantedAt(c, tasks, r, i);
    } else {
      RefusedAt(c, tasks, r, i);
    }
  }

  /** The runtime state of all tasks of the run. */
  class Service {
    var tasks: seq<Task>

    /**
     approveScope: succeeds exactly on approvable requests (unless a file cannot be written), and
     changes the state only when it succeeds.
     */
    method ApproveScope(r: Request, storageWorks: bool) returns (ok: bool)
      modifies this
      ensures ok ==> Granted(StaticChecks(), old(tasks), r, tasks)
      ensures !ok ==> tasks == old(tasks)
      ensures ok ==> Approvable(StaticChecks(), old(tasks), r)
      ensures storageWorks ==> (ok <==> Approvable(StaticChecks(), old(tasks), r))
    {
      var c := StaticChecks();
      var plan := Consider(c, tasks, r);
      match plan {
        case Refused => ok := false;
        case Held => ok := true;
        case Change(i, target) =>
          var next := tasks[i := target];
          var same := CollectSameWave(next, target);
          var allowed, _ := Preflight.Preflight(same);
          Settle(c, tasks, r, i, allowed);
          ok := allowed && storageWorks;
          if ok {
            tasks := next;
          }
      }
    }
  }

  // ----- whole runs -----

  ghost predicate Decided(c: Checks, tasks: seq<Task>, d: Decision, next: seq<Task>) {
    match d
    case Refuse(_) => next == tasks
    case Grant(r, stored) => if stored && Approvable(c, tasks, r) then Granted(c, tasks, r, next) else next == tasks
  }

  /** A run: the states between decisions. */
  ghost predicate IsRun(c: Checks, states: seq<seq<Task>>, decisions: seq<Decision>) {
    && |states| == |decisions| + 1
    && forall i :: 0 <= i < |decisions| ==> Decided(c, states[i], decisions[i], states[i + 1])
  }

  lemma WidenedKeepsIdentity(t: Task, r: Request)
    ensures Widened(t, r).wave == t.wave && Widened(t, r).id == t.id && Widened(t, r).forbiddenScope == t.forbiddenScope
  {
  }

  /** A wave check that lets no two tasks share an id. */
  ghost predicate RefusesDuplicates(c: Checks) {
    forall tasks :: c.admits(tasks) ==> DistinctIds(tasks)
  }

  lemma StaticChecksRefuseDuplicates()
    ensures RefusesDuplicates(StaticChecks())
  {
  }

  /** A grant keeps every wave admitted, whichever wave its task belongs to. */
  lemma {:induction false} GrantKeepsAdmitted(c: Checks, tasks: seq<Task>, r: Request, next: seq<Task>, wave: string)
    requires RefusesDuplicates(c) && Granted(c, tasks, r, next) && c.admits(WaveTasks(tasks, wave))
    ensures c.admits(WaveTasks(next, wave))
  {
    var i: nat :| FirstAt(tasks, r.taskId, i) && Passes(c, tasks, r, i) && next == After(tasks, r, i);
    if !NothingToDo(tasks[i], r) {
      var target := Widened(tasks[i], r);
      WidenedKeepsIdentity(tasks[i], r);
      if target.wave == wave {
        SameWaveIsWave(next, i);
      } else {
        OtherWaveUnchanged(tasks, i, target, wave);
      }
    }
  }

  /** A wave that passed its checks still passes them after any decisions about any waves. */
  lemma {:induction false} RunKeepsAdmitted(c: Checks, states: seq<seq<Task>>, decisions: seq<Decision>, wave: string)
    requires RefusesDuplicates(c) && IsRun(c, states, decisions) && c.admits(WaveTasks(states[0], wave))
    ensures c.admits(WaveTasks(states[|decisions|], wave))
    decreases |decisions|
  {
    var n := |decisions|;
    if n > 0 {
      RunKeepsAdmitted(c, states[..n], decisions[..n - 1], wave);
      if states[n] != states[n - 1] {
        GrantKeepsAdmitted(c, states[n - 1], decisions[n - 1].request, states[n], wave);
      }
    }
  }

  /** Granting the same request again succeeds and changes nothing. */
  lemma RetryChangesNothing(c: Checks, tasks: seq<Task>, r: Request, next: seq<Task>, again: seq<Task>)
    requires Granted(c, tasks, r, next)
    ensures Approvable(c, next, r)
    ensures Granted(c, next, r, again) ==> again == next
  {
    var i: nat :| FirstAt(tasks, r.taskId, i) && Passes(c, tasks, r, i) && next == After(tasks, r, i);
    assert FirstAt(next, r.taskId, i);
    WidenTwice(c, tasks[i], r);
    if !NothingToDo(tasks[i], r) {
      assert next[i := next[i]] == next;
    }
    assert Passes(c, next, r, i);
    GrantedAt(c, next, r, i);
    if Granted(c, next, r, again) {
      var j: nat :| FirstAt(next, r.taskId, j) && Passes(c, next, r, j) && again == After(next, r, j);
      FirstUnique(next, r.taskId, i, j);
    }
  }

  lemma WidenTwice(c: Checks, t: Task, r: Request)
    ensures AlreadyExpanded(Widened(t, r), r)
    ensures Widened(Widened(t, r), r) == Widened(t, r)
    ensures RequestStands(c, t, r) ==> RequestStands(c, Widened(t, r), r)
    ensures NothingToDo(t, r) ==> Widened(t, r) == t
  {
    assert Widened(t, r).forbiddenScope == t.forbiddenScope;
  }

  /**
   A grant only ever lengthens one task's lease, and everything it adds passed the check against
   that task's forbidden scope.
   */
  lemma GrantOnlyWidens(c: Checks, tasks: seq<Task>, r: Request, next: seq<Task>, k: nat)
    requires Granted(c, tasks, r, next) && k < |tasks|
    ensures |next| == |tasks| && tasks[k].writeScope <= next[k].writeScope
    ensures tasks[k].id != r.taskId ==> next[k] == tasks[k]
    ensures forall p :: p in next[k].writeScope ==> p in tasks[k].writeScope || c.grantable(p, tasks[k].forbiddenScope)
  {
    var i: nat :| FirstAt(tasks, r.taskId, i) && Passes(c, tasks, r, i) && next == After(tasks, r, i);
    assert Widened(tasks[i], r).writeScope == tasks[i].writeScope ||
           Widened(tasks[i], r).writeScope == tasks[i].writeScope + r.requested;
  }

  /** A pattern that may be granted matches no file a forbidden pattern matches. */
  lemma GrantedNeverForbidden(p: string, forbidden: seq<string>, file: string)
    requires Grantable(p, forbidden) && Claims(p, file)
    ensures !Covers(forbidden, file)
  {
    if Covers(forbidden, file) {
      var f :| f in forbidden && Claims(f, file);
      assert MayOverlap(p, f) == Ok(false);
      NoFalseNegatives(p, f, file);
    }
  }
}
