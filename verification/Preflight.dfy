/**
 Task contracts and the static checks a wave must pass before its tasks run side by side
 (internal/task/contract.go:12-48, internal/wave/preflight.go:93-167, 236-301, 428-461).
 */
module Preflight {
  import opened Text
  import opened Paths
  import opened Scope

  datatype Validation = Validation(command: string, scope: string)

  datatype Brief = Brief(title: string, objective: string, criteria: seq<string>, projectRoot: string,
                         validations: seq<Validation>)

  datatype Task = Task(id: string, wave: string, brief: Brief, writeScope: seq<string>, forbiddenScope: seq<string>,
                       readsFrom: seq<string>, dependsOn: seq<string>, duties: map<string, string>,
                       nested: bool, allowPublic: bool)

  datatype Kind =
    | MissingContract | DuplicateTask | NestedAgents | MissingDuty | InvalidDuty | SameWaveDependency
    | ValidationConflict | WriteReadConflict | ScopeOverlap | HighRiskShared

  /** Every static finding has severity error. */
  datatype Issue = Issue(kind: Kind, tasks: seq<string>)

  // ----- words -----

  /** strings.ToLower as far as comparison with ASCII words can tell. */
  function LowerChar(c: char): char {
    if 'A' <= c <= 'Z' then c + 32 as char
    else if c == '\U{130}' then 'i'
    else if c == '\U{212A}' then 'k'
    else c
  }

  function Lower(s: string): string {
    seq(|s|, i requires 0 <= i < |s| => LowerChar(s[i]))
  }

  predicate Contains(s: string, word: string) {
    exists i :: 0 <= i <= |s| && word <= s[i..]
  }

  const Placeholders: seq<string> :=
    ["", "none", "none declared", "none declared.", "n/a", "na", "tbd", "todo", "-", "\U{2014}", "see contract",
     "see task contract"]

  const GlobalScopes: seq<string> := ["global", "repository", "repo", "all"]

  const GlobalCommands: seq<string> := ["go test ./...", "npm test -- --all", "cargo test --workspace"]

  predicate IsPlaceholder(text: string) {
    Lower(TrimSpace(text)) in Placeholders
  }

  const Capitals: string := "ABCDEFGHIJKLMNOPQRSTUVWXYZ"

  const Smalls: string := "abcdefghijklmnopqrstuvwxyz"

  /** The same letter of the Latin alphabet, one of them a capital. */
  predicate CapitalOf(c: char, d: char) {
    exists i :: 0 <= i < 26 && c == Capitals[i] && d == Smalls[i]
  }

  /** Lower-casing takes each capital to its small letter, and besides two foreign letters that fold into i and k leaves everything alone. */
  lemma LowerCases(c: char, d: char)
    ensures CapitalOf(c, d) ==> LowerChar(c) == d && LowerChar(d) == d
    ensures (forall e :: !CapitalOf(c, e)) && c != '\U{130}' && c != '\U{212A}' ==> LowerChar(c) == c
  {
    assert forall i :: 0 <= i < 26 ==> Capitals[i] as int == 65 + i && Smalls[i] as int == 97 + i;
    if 'A' <= c <= 'Z' {
      var i := c as int - 65;
      assert CapitalOf(c, Smalls[i]);
    }
  }

  predicate IsGlobalValidation(v: Validation) {
    || Lower(TrimSpace(v.scope)) in GlobalScopes
    || exists word :: word in GlobalCommands && Contains(Lower(v.command), word)
  }

  const HighRiskFiles: seq<string> :=
    ["go.mod", "go.sum", "package.json", "package-lock.json", "pnpm-lock.yaml", "yarn.lock", "Cargo.toml", "Cargo.lock",
     ".github/workflows/**", "migrations/**", "schema/**"]

  // ----- what an admissible wave is -----

  predicate BriefComplete(b: Brief) {
    && TrimSpace(b.title) != "" && TrimSpace(b.objective) != "" && b.criteria != []
    && b.validations != [] && TrimSpace(b.projectRoot) != ""
  }

  predicate ContractHolds(t: Task) {
    && t.id != "" && BriefComplete(t.brief) && t.writeScope != []
    && AllCompile(t.writeScope) && AllCompile(t.forbiddenScope) && !t.nested
  }

  predicate ContractsHold(tasks: seq<Task>) {
    forall t :: t in tasks ==> ContractHolds(t)
  }

  function Ids(tasks: seq<Task>): set<string> {
    set t | t in tasks :: t.id
  }

  predicate DistinctIds(tasks: seq<Task>) {
    forall i, j :: 0 <= i < j < |tasks| ==> tasks[i].id != tasks[j].id
  }

  /** A duty is declared towards every other task of the wave. */
  predicate DutiesPresent(t: Task, ids: set<string>) {
    forall id :: id in ids && id != t.id ==> id in t.duties
  }

  /** The declared duties are not placeholders, and none is towards the task itself or an outsider. */
  predicate DutiesReal(t: Task, ids: set<string>) {
    && (forall id :: id in ids && id != t.id && id in t.duties ==> !IsPlaceholder(t.duties[id]))
    && (forall id :: id in t.duties ==> id != t.id && id in ids)
  }

  predicate Independent(t: Task, ids: set<string>) {
    forall d :: d in t.dependsOn ==> d !in ids
  }

  predicate ChecksLocally(t: Task) {
    forall v :: v in t.brief.validations ==> !IsGlobalValidation(v)
  }

  /** The overlap test the checks are run with. */
  type OverlapTest = (string, string) -> Result<bool>

  /** No read dependency of the one may overlap a write pattern of the other. */
  predicate ReadsClear(test: OverlapTest, reader: Task, writer: Task) {
    reader.id == writer.id || forall d :: d in reader.readsFrom ==> !MayClaim(test, writer.writeScope, d)
  }

  /** Result.Scopes: a later task of the same id replaces an earlier one. */
  function Scopes(tasks: seq<Task>): Leases {
    if tasks == [] then map[]
    else
      var last := tasks[|tasks| - 1];
      Scopes(tasks[..|tasks| - 1])[last.id := last.writeScope]
  }

  predicate MayClaim(test: OverlapTest, patterns: seq<string>, file: string) {
    exists i :: 0 <= i < |patterns| && test(file, patterns[i]) == Ok(true)
  }

  /** Two different owners may not both claim the file. */
  predicate Unshared(test: OverlapTest, leases: Leases, file: string) {
    forall o, p :: o in leases && p in leases && MayClaim(test, leases[o], file) && MayClaim(test, leases[p], file) ==> o == p
  }

  predicate NoneNested(tasks: seq<Task>) {
    forall t :: t in tasks ==> !t.nested
  }

  predicate AllPresent(tasks: seq<Task>, ids: set<string>) {
    forall t :: t in tasks ==> DutiesPresent(t, ids)
  }

  predicate AllReal(tasks: seq<Task>, ids: set<string>) {
    forall t :: t in tasks ==> DutiesReal(t, ids)
  }

  predicate AllIndependent(tasks: seq<Task>, ids: set<string>) {
    forall t :: t in tasks ==> Independent(t, ids)
  }

  predicate AllLocal(tasks: seq<Task>) {
    forall t :: t in tasks ==> ChecksLocally(t)
  }

  predicate AllReadsClear(test: OverlapTest, tasks: seq<Task>) {
    forall r, w :: r in tasks && w in tasks ==> ReadsClear(test, r, w)
  }

  predicate AllUnshared(test: OverlapTest, leases: Leases, files: seq<string>) {
    forall f :: f in files ==> Unshared(test, leases, f)
  }

  /** How a wave stands with each check. */
  datatype Standing = Standing(contracts: bool, distinct: bool, flat: bool, present: bool, genuine: bool, independent: bool,
                               local: bool, readsClear: bool, apart: bool, unshared: bool)

  function StandingOf(tasks: seq<Task>): Standing {
    Standing(ContractsHold(tasks), DistinctIds(tasks), NoneNested(tasks),
             |tasks| <= 1 || AllPresent(tasks, Ids(tasks)), |tasks| <= 1 || AllReal(tasks, Ids(tasks)),
             AllIndependent(tasks, Ids(tasks)), AllLocal(tasks), AllReadsClear(MayOverlap, tasks),
             AllApart(Scopes(tasks)), AllUnshared(MayOverlap, Scopes(tasks), HighRiskFiles))
  }

  /** The check each kind of finding belongs to. */
  predicate Passes(st: Standing, k: Kind) {
    match k
    case MissingContract => st.contracts
    case DuplicateTask => st.distinct
    case NestedAgents => st.flat
    case MissingDuty => st.present
    case InvalidDuty => st.genuine
    case SameWaveDependency => st.independent
    case ValidationConflict => st.local
    case WriteReadConflict => st.readsClear
    case ScopeOverlap => st.apart
    case HighRiskShared => st.unshared
  }

  predicate PassesAll(st: Standing) {
    && st.contracts && st.distinct && st.flat && st.present && st.genuine && st.independent && st.local && st.readsClear
    && st.apart && st.unshared
  }

  predicate Violated(k: Kind, tasks: seq<Task>) {
    !Passes(StandingOf(tasks), k)
  }

  predicate Admissible(tasks: seq<Task>) {
    PassesAll(StandingOf(tasks))
  }

  predicate Has(issues: seq<Issue>, k: Kind) {
    exists x :: x in issues && x.kind == k
  }

  predicate AllOf(issues: seq<Issue>, k: Kind) {
    forall x :: x in issues ==> x.kind == k
  }

  /** All checks pass exactly when no kind of finding applies. */
  lemma PassesAllIffEach(st: Standing)
    ensures PassesAll(st) <==> forall k :: Passes(st, k)
  {
    assert PassesAll(st) <==>
      && Passes(st, MissingContract) && Passes(st, DuplicateTask) && Passes(st, NestedAgents) && Passes(st, MissingDuty)
      && Passes(st, InvalidDuty) && Passes(st, SameWaveDependency) && Passes(st, ValidationConflict)
      && Passes(st, WriteReadConflict) && Passes(st, ScopeOverlap) && Passes(st, HighRiskShared);
  }

  // ----- the loops -----

  method BriefProblems(b: Brief) returns (problems: seq<string>)
    ensures problems == [] <==> BriefComplete(b)
  {
    problems := [];
    if TrimSpace(b.title) == "" { problems := problems + ["title is required"]; }
    if TrimSpace(b.objective) == "" { problems := problems + ["objective is required"]; }
    if b.criteria == [] { problems := problems + ["completion criteria are required"]; }
    if b.validations == [] { problems := problems + ["at least one local validation command is required"]; }
    if TrimSpace(b.projectRoot) == "" { problems := problems + ["project root is required"]; }
  }

  /** A contract problem is reported exactly when the contract does not hold. */
  method ValidateContract(t: Task) returns (problems: seq<string>)
    ensures problems == [] <==> ContractHolds(t)
  {
    problems := [];
    if t.id == "" { problems := problems + ["task_id is required"]; }
    var incomplete := BriefProblems(t.brief);
    if t.writeScope == [] { problems := problems + ["write scope is required"]; }
    var write := BadPatterns(t.writeScope);
    var forbidden := BadPatterns(t.forbiddenScope);
    if t.nested { problems := problems + ["nested agents are forbidden in V1"]; }
    problems := problems + incomplete + write + forbidden;
  }

  method BadPatterns(patterns: seq<string>) returns (problems: seq<string>)
    ensures problems == [] <==> AllCompile(patterns)
  {
    problems := [];
    for i := 0 to |patterns|
      invariant problems == [] <==> AllCompile(patterns[..i])
    {
      CompileOneMore(patterns, i);
      var compiled := Compile(patterns[i]);
      problems := problems + if compiled.Err? then [compiled.reason] else [];
    }
    assert patterns[..|patterns|] == patterns;
  }

  lemma CompileOneMore(patterns: seq<string>, i: nat)
    requires i < |patterns|
    ensures AllCompile(patterns[..i + 1]) <==> AllCompile(patterns[..i]) && Compile(patterns[i]).Ok?
  {
    assert patterns[..i + 1] == patterns[..i] + [patterns[i]];
  }

  lemma ScopesGrow(tasks: seq<Task>, i: nat)
    requires i < |tasks|
    ensures Scopes(tasks[..i + 1]) == Scopes(tasks[..i])[tasks[i].id := tasks[i].writeScope]
    ensures Ids(tasks[..i + 1]) == Ids(tasks[..i]) + {tasks[i].id}
  {
    assert tasks[..i + 1][..i] == tasks[..i];
    assert tasks[..i + 1] == tasks[..i] + [tasks[i]];
  }

  lemma DistinctGrow(tasks: seq<Task>, i: nat)
    requires i < |tasks|
    ensures DistinctIds(tasks[..i + 1]) <==> DistinctIds(tasks[..i]) && tasks[i].id !in Ids(tasks[..i])
  {
    assert tasks[..i + 1] == tasks[..i] + [tasks[i]];
    if tasks[i].id in Ids(tasks[..i]) {
      var k :| 0 <= k < i && tasks[k].id == tasks[i].id;
      assert tasks[..i + 1][k].id == tasks[..i + 1][i].id;
    }
    if DistinctIds(tasks[..i]) && tasks[i].id !in Ids(tasks[..i]) {
      forall k | 0 <= k < i
        ensures tasks[k].id != tasks[i].id
      {
        assert tasks[k] in tasks[..i];
      }
      forall k, j | 0 <= k < j < i
        ensures tasks[k].id != tasks[j].id
      {
        assert tasks[..i][k].id != tasks[..i][j].id;
      }
    }
  }

  lemma ContractsGrow(tasks: seq<Task>, i: nat)
    requires i < |tasks|
    ensures ContractsHold(tasks[..i + 1]) <==> ContractsHold(tasks[..i]) && ContractHolds(tasks[i])
    ensures NoneNested(tasks[..i + 1]) <==> NoneNested(tasks[..i]) && !tasks[i].nested
  {
    assert tasks[..i + 1] == tasks[..i] + [tasks[i]];
  }

  /** First loop of Preflight: the findings about one task. */
  method TaskIssues(t: Task, ids: set<string>) returns (contract: seq<Issue>, duplicate: seq<Issue>, nested: seq<Issue>)
    ensures AllOf(contract, MissingContract) && (contract == [] <==> ContractHolds(t))
    ensures AllOf(duplicate, DuplicateTask) && (duplicate == [] <==> t.id !in ids)
    ensures AllOf(nested, NestedAgents) && (nested == [] <==> !t.nested)
  {
    contract, duplicate, nested := [], [], [];
    var problems := ValidateContract(t);
    if problems != [] {
      contract := [Issue(MissingContract, [t.id])];
    }
    if t.id in ids {
      duplicate := [Issue(DuplicateTask, [t.id])];
    }
    if t.nested {
      nested := [Issue(NestedAgents, [t.id])];
    }
  }

  /** First loop of Preflight; the findings by kind. */
  method CollectTasks(tasks: seq<Task>)
    returns (ids: set<string>, scopes: Leases, contract: seq<Issue>, duplicate: seq<Issue>, nested: seq<Issue>)
    ensures ids == Ids(tasks) && scopes == Scopes(tasks)
    ensures AllOf(contract, MissingContract) && (contract == [] <==> ContractsHold(tasks))
    ensures AllOf(duplicate, DuplicateTask) && (duplicate == [] <==> DistinctIds(tasks))
    ensures AllOf(nested, NestedAgents) && (nested == [] <==> NoneNested(tasks))
  {
    ids, scopes, contract, duplicate, nested := {}, map[], [], [], [];
    for i := 0 to |tasks|
      invariant ids == Ids(tasks[..i]) && scopes == Scopes(tasks[..i])
      invariant AllOf(contract, MissingContract) && (contract == [] <==> ContractsHold(tasks[..i]))
      invariant AllOf(duplicate, DuplicateTask) && (duplicate == [] <==> DistinctIds(tasks[..i]))
      invariant AllOf(nested, NestedAgents) && (nested == [] <==> NoneNested(tasks[..i]))
    {
      ScopesGrow(tasks, i);
      DistinctGrow(tasks, i);
      ContractsGrow(tasks, i);
      var broken, twice, nests := TaskIssues(tasks[i], ids);
      contract, duplicate, nested := contract + broken, duplicate + twice, nested + nests;
      ids := ids + {tasks[i].id};
      scopes := scopes[tasks[i].id := tasks[i].writeScope];
    }
    assert tasks[..|tasks|] == tasks;
  }

  /** The loop over the other tasks of the wave. */
  method MissingDuties(t: Task, ids: set<string>) returns (missing: seq<Issue>, empty: seq<Issue>)
    ensures AllOf(missing, MissingDuty) && (missing == [] <==> DutiesPresent(t, ids))
    ensures AllOf(empty, InvalidDuty)
    ensures empty == [] <==> forall id :: id in ids && id != t.id && id in t.duties ==> !IsPlaceholder(t.duties[id])
  {
    missing, empty := [], [];
    var rest := ids;
    while rest != {}
      invariant rest <= ids && AllOf(missing, MissingDuty) && AllOf(empty, InvalidDuty)
      invariant missing == [] <==> forall id :: id in ids - rest && id != t.id ==> id in t.duties
      invariant empty == [] <==> forall id :: id in ids - rest && id != t.id && id in t.duties ==> !IsPlaceholder(t.duties[id])
      decreases rest
    {
      var id :| id in rest;
      if id == t.id {
      } else if id !in t.duties {
        missing := missing + [Issue(MissingDuty, [t.id, id])];
      } else if IsPlaceholder(t.duties[id]) {
        empty := empty + [Issue(InvalidDuty, [t.id, id])];
      }
      rest := rest - {id};
    }
  }

  /** The loop over the declared duties. */
  method StrayDuties(t: Task, ids: set<string>) returns (issues: seq<Issue>)
    ensures AllOf(issues, InvalidDuty) && (issues == [] <==> forall id :: id in t.duties ==> id != t.id && id in ids)
  {
    issues := [];
    var rest := t.duties.Keys;
    while rest != {}
      invariant rest <= t.duties.Keys && AllOf(issues, InvalidDuty)
      invariant issues == [] <==> forall id :: id in t.duties && id !in rest ==> id != t.id && id in ids
      decreases rest
    {
      var id :| id in rest;
      if id == t.id {
        issues := issues + [Issue(InvalidDuty, [t.id])];
      } else if id !in ids {
        issues := issues + [Issue(InvalidDuty, [t.id, id])];
      }
      rest := rest - {id};
    }
  }

  method CheckParallelResponsibilities(tasks: seq<Task>, ids: set<string>) returns (missing: seq<Issue>, invalid: seq<Issue>)
    ensures AllOf(missing, MissingDuty) && (missing == [] <==> AllPresent(tasks, ids))
    ensures AllOf(invalid, InvalidDuty) && (invalid == [] <==> AllReal(tasks, ids))
  {
    missing, invalid := [], [];
    for i := 0 to |tasks|
      invariant AllOf(missing, MissingDuty) && AllOf(invalid, InvalidDuty)
      invariant missing == [] <==> forall k :: 0 <= k < i ==> DutiesPresent(tasks[k], ids)
      invariant invalid == [] <==> forall k :: 0 <= k < i ==> DutiesReal(tasks[k], ids)
    {
      var absent, empty := MissingDuties(tasks[i], ids);
      var stray := StrayDuties(tasks[i], ids);
      missing := missing + absent;
      invalid := invalid + empty + stray;
    }
  }

  method Dependencies(t: Task, ids: set<string>) returns (same: seq<Issue>, global: seq<Issue>)
    ensures AllOf(same, SameWaveDependency) && (same == [] <==> Independent(t, ids))
    ensures AllOf(global, ValidationConflict) && (global == [] <==> ChecksLocally(t))
  {
    same, global := [], [];
    for j := 0 to |t.dependsOn|
      invariant AllOf(same, SameWaveDependency) && (same == [] <==> forall k :: 0 <= k < j ==> t.dependsOn[k] !in ids)
    {
      if t.dependsOn[j] in ids {
        same := same + [Issue(SameWaveDependency, [t.id, t.dependsOn[j]])];
      }
    }
    var validations := t.brief.validations;
    for j := 0 to |validations|
      invariant AllOf(global, ValidationConflict)
      invariant global == [] <==> forall k :: 0 <= k < j ==> !IsGlobalValidation(validations[k])
    {
      if IsGlobalValidation(validations[j]) {
        global := global + [Issue(ValidationConflict, [t.id])];
      }
    }
  }

  method LocalIssues(tasks: seq<Task>, ids: set<string>) returns (same: seq<Issue>, global: seq<Issue>)
    ensures AllOf(same, SameWaveDependency) && (same == [] <==> AllIndependent(tasks, ids))
    ensures AllOf(global, ValidationConflict) && (global == [] <==> AllLocal(tasks))
  {
    same, global := [], [];
    for i := 0 to |tasks|
      invariant AllOf(same, SameWaveDependency) && AllOf(global, ValidationConflict)
      invariant same == [] <==> forall k :: 0 <= k < i ==> Independent(tasks[k], ids)
      invariant global == [] <==> forall k :: 0 <= k < i ==> ChecksLocally(tasks[k])
    {
      var dependencies, validations := Dependencies(tasks[i], ids);
      same := same + dependencies;
      global := global + validations;
    }
  }

  /** The innermost loop of the read check. */
  method DependencyConflicts(test: OverlapTest, d: string, reader: Task, writer: Task) returns (issues: seq<Issue>)
    ensures AllOf(issues, WriteReadConflict) && (issues == [] <==> !MayClaim(test, writer.writeScope, d))
  {
    issues := [];
    for j := 0 to |writer.writeScope|
      invariant AllOf(issues, WriteReadConflict)
      invariant issues == [] <==> forall k :: 0 <= k < j ==> test(d, writer.writeScope[k]) != Ok(true)
    {
      var overlap := test(d, writer.writeScope[j]);
      if overlap == Ok(true) {
        issues := issues + [Issue(WriteReadConflict, [reader.id, writer.id])];
      }
    }
  }

  predicate DependencyClear(test: OverlapTest, d: string, reader: Task, writer: Task) {
    reader.id == writer.id || !MayClaim(test, writer.writeScope, d)
  }

  /** The loop over the writers, for one read dependency. */
  method WriterConflicts(test: OverlapTest, d: string, reader: Task, tasks: seq<Task>) returns (issues: seq<Issue>)
    ensures AllOf(issues, WriteReadConflict)
    ensures issues == [] <==> forall w :: w in tasks ==> DependencyClear(test, d, reader, w)
  {
    issues := [];
    for j := 0 to |tasks|
      invariant AllOf(issues, WriteReadConflict)
      invariant issues == [] <==> forall k :: 0 <= k < j ==> DependencyClear(test, d, reader, tasks[k])
    {
      if reader.id != tasks[j].id {
        var found := DependencyConflicts(test, d, reader, tasks[j]);
        issues := issues + found;
      }
    }
  }

  method ReaderConflicts(test: OverlapTest, reader: Task, tasks: seq<Task>) returns (issues: seq<Issue>)
    ensures AllOf(issues, WriteReadConflict)
    ensures issues == [] <==> forall w :: w in tasks ==> ReadsClear(test, reader, w)
  {
    issues := [];
    for i := 0 to |reader.readsFrom|
      invariant AllOf(issues, WriteReadConflict)
      invariant issues == [] <==>
                forall k, w :: 0 <= k < i && w in tasks ==> DependencyClear(test, reader.readsFrom[k], reader, w)
    {
      var found := WriterConflicts(test, reader.readsFrom[i], reader, tasks);
      issues := issues + found;
    }
    forall w | w in tasks
      ensures ReadsClear(test, reader, w) <==>
              forall k :: 0 <= k < |reader.readsFrom| ==> DependencyClear(test, reader.readsFrom[k], reader, w)
    {
    }
  }

  method ReadConflicts(test: OverlapTest, tasks: seq<Task>) returns (issues: seq<Issue>)
    ensures AllOf(issues, WriteReadConflict)
    ensures issues == [] <==> AllReadsClear(test, tasks)
  {
    issues := [];
    for i := 0 to |tasks|
      invariant AllOf(issues, WriteReadConflict)
      invariant issues == [] <==> forall k, w :: 0 <= k < i && w in tasks ==> ReadsClear(test, tasks[k], w)
    {
      var found := ReaderConflicts(test, tasks[i], tasks);
      issues := issues + found;
    }
  }

  method OwnersPotentiallyClaiming(test: OverlapTest, file: string, leases: Leases) returns (owners: seq<string>)
    ensures StrictlySorted(owners) && Elements(owners) == set o | o in leases && MayClaim(test, leases[o], file)
  {
    owners := [];
    var rest := leases.Keys;
    while rest != {}
      invariant rest <= leases.Keys && StrictlySorted(owners)
      invariant Elements(owners) == set o | o in leases && o !in rest && MayClaim(test, leases[o], file)
      decreases rest
    {
      var owner :| owner in rest;
      assert owner !in Elements(owners);
      if MayClaim(test, leases[owner], file) {
        owners := InsertSorted(owners, owner);
      }
      rest := rest - {owner};
    }
  }

  lemma SharedIffTwo(test: OverlapTest, owners: seq<string>, leases: Leases, file: string)
    requires StrictlySorted(owners) && Elements(owners) == set o | o in leases && MayClaim(test, leases[o], file)
    ensures |owners| <= 1 <==> Unshared(test, leases, file)
  {
    if |owners| > 1 {
      LessIrreflexive(owners[0]);
      assert owners[0] in Elements(owners) && owners[1] in Elements(owners);
    } else {
      forall o, p | o in leases && p in leases && MayClaim(test, leases[o], file) && MayClaim(test, leases[p], file)
        ensures o == p
      {
        assert o in Elements(owners) && p in Elements(owners);
      }
    }
  }

  method HighRiskIssues(test: OverlapTest, files: seq<string>, leases: Leases) returns (issues: seq<Issue>)
    ensures AllOf(issues, HighRiskShared)
    ensures issues == [] <==> AllUnshared(test, leases, files)
  {
    issues := [];
    for i := 0 to |files|
      invariant AllOf(issues, HighRiskShared)
      invariant issues == [] <==> forall k :: 0 <= k < i ==> Unshared(test, leases, files[k])
    {
      var owners := OwnersPotentiallyClaiming(test, files[i], leases);
      SharedIffTwo(test, owners, leases, files[i]);
      if |owners| > 1 {
        issues := issues + [Issue(HighRiskShared, owners)];
      }
    }
  }

  method OverlapIssues(leases: Leases) returns (issues: seq<Issue>)
    ensures AllOf(issues, ScopeOverlap) && (issues == [] <==> AllApart(leases))
  {
    var found := FindOverlaps(leases);
    match found {
      case Err(_) => issues := [Issue(ScopeOverlap, [])];
      case Ok(overlaps) =>
        issues := [];
        for i := 0 to |overlaps|
          invariant |issues| == i && AllOf(issues, ScopeOverlap)
        {
          issues := issues + [Issue(ScopeOverlap, [overlaps[i].leftOwner, overlaps[i].rightOwner])];
        }
    }
  }

  /** The findings, one list for each kind. */
  datatype Findings = Findings(contract: seq<Issue>, duplicate: seq<Issue>, nested: seq<Issue>, missing: seq<Issue>,
                               invalid: seq<Issue>, same: seq<Issue>, global: seq<Issue>, conflicts: seq<Issue>,
                               overlaps: seq<Issue>, shared: seq<Issue>)

  function OfKind(f: Findings, k: Kind): seq<Issue> {
    match k
    case MissingContract => f.contract
    case DuplicateTask => f.duplicate
    case NestedAgents => f.nested
    case MissingDuty => f.missing
    case InvalidDuty => f.invalid
    case SameWaveDependency => f.same
    case ValidationConflict => f.global
    case WriteReadConflict => f.conflicts
    case ScopeOverlap => f.overlaps
    case HighRiskShared => f.shared
  }

  function Flatten(f: Findings): seq<Issue> {
    f.contract + f.duplicate + f.nested + f.missing + f.invalid + f.same + f.global + f.conflicts + f.overlaps + f.shared
  }

  lemma FlattenMember(f: Findings, x: Issue)
    ensures x in Flatten(f) <==> exists j :: x in OfKind(f, j)
  {
    if x in Flatten(f) {
      assert x in OfKind(f, MissingContract) || x in OfKind(f, DuplicateTask) || x in OfKind(f, NestedAgents)
        || x in OfKind(f, MissingDuty) || x in OfKind(f, InvalidDuty) || x in OfKind(f, SameWaveDependency)
        || x in OfKind(f, ValidationConflict) || x in OfKind(f, WriteReadConflict) || x in OfKind(f, ScopeOverlap)
        || x in OfKind(f, HighRiskShared);
    }
  }

  /** Putting the lists together keeps their kinds apart. */
  lemma FlattenKinds(f: Findings, k: Kind)
    requires forall j :: AllOf(OfKind(f, j), j)
    ensures Has(Flatten(f), k) <==> OfKind(f, k) != []
  {
    if Has(Flatten(f), k) {
      var x :| x in Flatten(f) && x.kind == k;
      FlattenMember(f, x);
    }
    if OfKind(f, k) != [] {
      FlattenMember(f, OfKind(f, k)[0]);
    }
  }

  /** The lists hold findings of their kind, and some exactly when that check does not pass. */
  ghost predicate Exact(f: Findings, st: Standing) {
    forall k :: AllOf(OfKind(f, k), k) && (OfKind(f, k) == [] <==> Passes(st, k))
  }

  lemma FlattenExact(f: Findings, st: Standing)
    requires Exact(f, st)
    ensures forall k :: Has(Flatten(f), k) <==> !Passes(st, k)
    ensures Flatten(f) == [] <==> PassesAll(st)
  {
    forall k
      ensures Has(Flatten(f), k) <==> !Passes(st, k)
    {
      FlattenKinds(f, k);
    }
    if Flatten(f) != [] {
      assert Has(Flatten(f), Flatten(f)[0].kind);
    }
    PassesAllIffEach(st);
  }

  /** All checks, the findings kept apart by kind. */
  method FindAll(tasks: seq<Task>) returns (f: Findings)
    ensures Exact(f, StandingOf(tasks))
  {
    var ids, scopes, contract, duplicate, nested := CollectTasks(tasks);
    var missing, invalid: seq<Issue> := [], [];
    if |tasks| > 1 {
      missing, invalid := CheckParallelResponsibilities(tasks, ids);
    }
    var same, global := LocalIssues(tasks, ids);
    var conflicts := ReadConflicts(MayOverlap, tasks);
    var overlaps := OverlapIssues(scopes);
    var shared := HighRiskIssues(MayOverlap, HighRiskFiles, scopes);
    f := Findings(contract, duplicate, nested, missing, invalid, same, global, conflicts, overlaps, shared);
    Assembled(StandingOf(tasks), f);
  }

  lemma Assembled(st: Standing, f: Findings)
    requires AllOf(f.contract, MissingContract) && AllOf(f.duplicate, DuplicateTask) && AllOf(f.nested, NestedAgents)
    requires AllOf(f.missing, MissingDuty) && AllOf(f.invalid, InvalidDuty) && AllOf(f.same, SameWaveDependency)
    requires AllOf(f.global, ValidationConflict) && AllOf(f.conflicts, WriteReadConflict)
    requires AllOf(f.overlaps, ScopeOverlap) && AllOf(f.shared, HighRiskShared)
    requires st == Standing(f.contract == [], f.duplicate == [], f.nested == [], f.missing == [], f.invalid == [], f.same == [],
                            f.global == [], f.conflicts == [], f.overlaps == [], f.shared == [])
    ensures Exact(f, st)
  {
    forall k
      ensures AllOf(OfKind(f, k), k) && (OfKind(f, k) == [] <==> Passes(st, k))
    {
      match k
      case MissingContract =>
      case DuplicateTask =>
      case NestedAgents =>
      case MissingDuty =>
      case InvalidDuty =>
      case SameWaveDependency =>
      case ValidationConflict =>
      case WriteReadConflict =>
      case ScopeOverlap =>
      case HighRiskShared =>
    }
  }

  /**
   Preflight admits exactly the admissible waves, and its findings are of exactly the kinds that
   apply. Sorting them for display does not bear on the verdict and is left out.
   */
  method Preflight(tasks: seq<Task>) returns (allowed: bool, issues: seq<Issue>)
    ensures allowed <==> Admissible(tasks)
    ensures allowed <==> issues == []
    ensures forall k :: Has(issues, k) <==> Violated(k, tasks)
  {
    var f := FindAll(tasks);
    issues := Flatten(f);
    FlattenExact(f, StandingOf(tasks));
    allowed := issues == [];
  }
}
