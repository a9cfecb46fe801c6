/**
 The scope audit at a wave barrier: every changed file is attributed to the tasks whose leases
 cover it (internal/verify/audit.go:35-143), and the theorem that ties it to dispatch: a wave that
 passed its checks never has a file with two owners.
 */
module Audit {
  import opened Text
  import opened Paths
  import opened Scope
  import opened Preflight
  import opened ScopeExpansion

  // ----- the policy -----

  ghost function NormalForms(patterns: seq<string>): set<string>
    requires AllCompile(patterns)
  {
    set p | p in patterns :: Compile(p).value.normalized
  }

  lemma FormsGrow(patterns: seq<string>, i: nat)
    requires i < |patterns| && AllCompile(patterns[..i]) && Compile(patterns[i]).Ok?
    ensures AllCompile(patterns[..i + 1])
    ensures NormalForms(patterns[..i + 1]) == NormalForms(patterns[..i]) + {Compile(patterns[i]).value.normalized}
  {
    assert patterns[..i + 1] == patterns[..i] + [patterns[i]];
  }

  /** Normalised, without repeats and sorted; refused exactly when some pattern does not compile. */
  method NormalizeAuditPolicy(policy: seq<string>) returns (r: Result<seq<string>>)
    ensures r.Ok? <==> AllCompile(policy)
    ensures r.Ok? ==> StrictlySorted(r.value) && Elements(r.value) == NormalForms(policy)
  {
    var seen: set<string> := {};
    for i := 0 to |policy|
      invariant AllCompile(policy[..i]) && seen == NormalForms(policy[..i])
    {
      var compiled := Compile(policy[i]);
      if compiled.Err? {
        assert policy[i] in policy;
        return Err(compiled.reason);
      }
      FormsGrow(policy, i);
      seen := seen + {compiled.value.normalized};
    }
    assert policy[..|policy|] == policy;
    var patterns := SortedSet(seen);
    r := Ok(patterns);
  }

  ghost predicate Compiled(raws: seq<string>, patterns: seq<Pattern>) {
    |patterns| == |raws| && forall i :: 0 <= i < |raws| ==> Compile(raws[i]) == Ok(patterns[i])
  }

  method CompileAll(raws: seq<string>) returns (r: Result<seq<Pattern>>)
    ensures r.Ok? ==> Compiled(raws, r.value)
    ensures r.Ok? <==> AllCompile(raws)
  {
    var patterns: seq<Pattern> := [];
    for i := 0 to |raws|
      invariant Compiled(raws[..i], patterns)
      invariant AllCompile(raws[..i])
    {
      assert raws[..i + 1] == raws[..i] + [raws[i]];
      var compiled := Compile(raws[i]);
      if compiled.Err? {
        assert raws[i] in raws;
        return Err(compiled.reason);
      }
      patterns := patterns + [compiled.value];
    }
    assert raws[..|raws|] == raws;
    r := Ok(patterns);
  }

  /** The audit compiles normal forms of normal forms. */
  ghost predicate CompilesTwice(policy: seq<string>) {
    forall p :: p in policy ==> Compile(p).Ok? && Compile(Compile(p).value.normalized).Ok?
  }

  /** What can be checked of a pattern before: it normalises, and the outer segments of its normal form bear trimming. */
  predicate PatternUsable(p: string) {
    Normalize(p).Ok? && SegmentsStay(Split(Normalize(p).value))
  }

  predicate PolicyUsable(policy: seq<string>) {
    forall p :: p in policy ==> PatternUsable(p)
  }

  /** That is exactly what the second pass asks of a pattern. */
  lemma PatternUsableIff(raw: string)
    ensures PatternUsable(raw) <==> Compile(raw).Ok? && Compile(Compile(raw).value.normalized).Ok?
  {
    CompileIffNormalize(raw);
    if Compile(raw).Ok? {
      CompiledWellFormed(raw);
      RenormalizesBySegments(raw);
      CompileIffNormalize(Normalize(raw).value);
    }
  }

  lemma PolicyUsableIff(policy: seq<string>)
    ensures PolicyUsable(policy) <==> CompilesTwice(policy)
  {
    forall p | p in policy
      ensures PatternUsable(p) <==> Compile(p).Ok? && Compile(Compile(p).value.normalized).Ok?
    {
      PatternUsableIff(p);
    }
  }

  /** A policy one pass accepts and the next refuses. */
  lemma FrozenPolicyCanFail()
    ensures AllCompile(["./ /a"]) && !PolicyUsable(["./ /a"])
  {
    RenormalizeCanFail();
    CompileIffNormalize("./ /a");
    CompiledWellFormed("./ /a");
    CompileIffNormalize(" /a");
    PatternUsableIff("./ /a");
    assert "./ /a" in ["./ /a"];
  }

  // ----- which pattern excuses a file -----

  /** Bytes of the UTF-8 form, which is what len counts. */
  function ByteLength(s: string): nat {
    if s == "" then 0
    else
      (if s[0] < '\U{80}' then 1 else if s[0] < '\U{800}' then 2 else if s[0] < '\U{10000}' then 3 else 4) +
      ByteLength(s[1..])
  }

  /** How many code points fit into so many bytes. */
  function Capacity(bytes: nat): nat {
    if bytes == 0 then 0 else if bytes == 1 then 0x80 else if bytes == 2 then 0x800 else if bytes == 3 then 0x1_0000 else 0x11_0000
  }

  /** Each character takes the fewest bytes its code point fits into, and a text those of its parts. */
  lemma {:induction false} ByteLengthLaw(a: string, c: char)
    ensures var n := ByteLength([c]); 1 <= n <= 4 && Capacity(n - 1) <= c as int < Capacity(n)
    ensures ByteLength(a + [c]) == ByteLength(a) + ByteLength([c])
    decreases |a|
  {
    assert ByteLength([c][1..]) == 0;
    if a == "" {
      assert a + [c] == [c];
    } else {
      ByteLengthLaw(a[1..], c);
      assert (a + [c])[1..] == a[1..] + [c];
    }
  }

  predicate MoreSpecific(a: string, b: string) {
    ByteLength(a) > ByteLength(b) || (ByteLength(a) == ByteLength(b) && Less(a, b))
  }

  /** The most specific of the names, or none. */
  predicate BestOf(names: set<string>, best: string) {
    && (best == "" <==> names == {})
    && (best != "" ==> best in names && forall n :: n in names ==> !MoreSpecific(n, best))
  }

  lemma SpecificOrder(a: string, b: string, c: string)
    requires MoreSpecific(a, b) && !MoreSpecific(c, b)
    ensures !MoreSpecific(c, a)
  {
    if MoreSpecific(c, a) && ByteLength(a) == ByteLength(b) == ByteLength(c) {
      LessTransitive(c, a, b);
    }
  }

  lemma SpecificIrreflexive(a: string)
    ensures !MoreSpecific(a, a) && (a != "" ==> MoreSpecific(a, ""))
  {
    LessIrreflexive(a);
  }

  ghost function MatchingNames(patterns: seq<Pattern>, file: string): set<string> {
    set p | p in patterns && Matches(p, file) :: p.normalized
  }

  lemma MatchingGrow(patterns: seq<Pattern>, file: string, i: nat)
    requires i < |patterns|
    ensures MatchingNames(patterns[..i + 1], file) ==
            MatchingNames(patterns[..i], file) + (if Matches(patterns[i], file) then {patterns[i].normalized} else {})
  {
    assert patterns[..i + 1] == patterns[..i] + [patterns[i]];
  }

  lemma BestGrows(names: set<string>, best: string, name: string)
    requires BestOf(names, best) && name != ""
    ensures BestOf(names + {name}, if MoreSpecific(name, best) then name else best)
  {
    SpecificIrreflexive(name);
    if MoreSpecific(name, best) {
      forall n | n in names
        ensures !MoreSpecific(n, name)
      {
        SpecificOrder(name, best, n);
      }
    }
  }

  method MatchingEphemeralPattern(file: string, patterns: seq<Pattern>) returns (best: string)
    requires forall p :: p in patterns ==> p.normalized != ""
    ensures BestOf(MatchingNames(patterns, file), best)
  {
    best := "";
    for i := 0 to |patterns|
      invariant BestOf(MatchingNames(patterns[..i], file), best)
    {
      MatchingGrow(patterns, file, i);
      if Matches(patterns[i], file) {
        var name := patterns[i].normalized;
        BestGrows(MatchingNames(patterns[..i], file), best, name);
        if MoreSpecific(name, best) {
          best := name;
        }
      }
    }
    assert patterns[..|patterns|] == patterns;
  }

  // ----- classes -----

  datatype Class = Ephemeral | Unauthorized | Authorized | OwnerUncertain

  datatype EphemeralFile = EphemeralFile(path: string, pattern: string)

  datatype OwnedFile = OwnedFile(path: string, owners: seq<string>)

  datatype ScopeAudit = ScopeAudit(ephemeral: seq<EphemeralFile>, unauthorized: seq<string>,
                                   authorized: seq<OwnedFile>, ownerUncertain: seq<OwnedFile>)

  /** The names of the ephemeral patterns matching a file, and the owners covering it. */
  datatype Facts = Facts(excuses: string -> set<string>, owners: string -> set<string>)

  ghost function ClassOf(facts: Facts, file: string): Class {
    if facts.excuses(file) != {} then Ephemeral
    else if |facts.owners(file)| == 0 then Unauthorized
    else if |facts.owners(file)| == 1 then Authorized
    else OwnerUncertain
  }

  ghost function OfClass(facts: Facts, files: seq<string>, c: Class): seq<string> {
    if files == [] then []
    else
      var last := files[|files| - 1];
      OfClass(facts, files[..|files| - 1], c) + (if ClassOf(facts, last) == c then [last] else [])
  }

  function EphemeralPaths(xs: seq<EphemeralFile>): seq<string> {
    seq(|xs|, i requires 0 <= i < |xs| => xs[i].path)
  }

  function OwnedPaths(xs: seq<OwnedFile>): seq<string> {
    seq(|xs|, i requires 0 <= i < |xs| => xs[i].path)
  }

  /** Owners are listed completely and in order. */
  ghost predicate OwnersListed(facts: Facts, xs: seq<OwnedFile>) {
    forall x :: x in xs ==> StrictlySorted(x.owners) && Elements(x.owners) == facts.owners(x.path)
  }

  /** The audit lists exactly the files of each class, in order, with the evidence for each. */
  ghost predicate Audits(facts: Facts, files: seq<string>, a: ScopeAudit) {
    && EphemeralPaths(a.ephemeral) == OfClass(facts, files, Ephemeral)
    && a.unauthorized == OfClass(facts, files, Unauthorized)
    && OwnedPaths(a.authorized) == OfClass(facts, files, Authorized)
    && OwnedPaths(a.ownerUncertain) == OfClass(facts, files, OwnerUncertain)
    && OwnersListed(facts, a.authorized) && OwnersListed(facts, a.ownerUncertain)
    && (forall e :: e in a.ephemeral ==> BestOf(facts.excuses(e.path), e.pattern))
  }

  /** Add one judged file to the lists. */
  function Place(a: ScopeAudit, file: string, pattern: string, owners: seq<string>): ScopeAudit {
    if pattern != "" then a.(ephemeral := a.ephemeral + [EphemeralFile(file, pattern)])
    else if |owners| == 0 then a.(unauthorized := a.unauthorized + [file])
    else if |owners| == 1 then a.(authorized := a.authorized + [OwnedFile(file, owners)])
    else a.(ownerUncertain := a.ownerUncertain + [OwnedFile(file, owners)])
  }

  lemma {:induction false} SortedCount(xs: seq<string>)
    requires StrictlySorted(xs)
    ensures |Elements(xs)| == |xs|
  {
    if xs != [] {
      var n := |xs| - 1;
      SortedCount(xs[..n]);
      assert Elements(xs) == Elements(xs[..n]) + {xs[n]} by {
        assert xs == xs[..n] + [xs[n]];
      }
      if xs[n] in xs[..n] {
        var i :| 0 <= i < n && xs[i] == xs[n];
        SortedNoRepeat(xs, i, n);
      }
    }
  }

  lemma PlaceKeepsAudit(facts: Facts, files: seq<string>, i: nat, a: ScopeAudit, pattern: string, owners: seq<string>)
    requires i < |files| && Audits(facts, files[..i], a)
    requires BestOf(facts.excuses(files[i]), pattern)
    requires pattern == "" ==> StrictlySorted(owners) && Elements(owners) == facts.owners(files[i])
    ensures Audits(facts, files[..i + 1], Place(a, files[i], pattern, owners))
  {
    var file, next := files[i], Place(a, files[i], pattern, owners);
    assert files[..i + 1][..i] == files[..i];
    if pattern == "" {
      SortedCount(owners);
    }
    assert EphemeralPaths(next.ephemeral) == EphemeralPaths(a.ephemeral) + (if pattern != "" then [file] else []);
    assert OwnedPaths(next.authorized) ==
           OwnedPaths(a.authorized) + (if pattern == "" && |owners| == 1 then [file] else []);
    assert OwnedPaths(next.ownerUncertain) ==
           OwnedPaths(a.ownerUncertain) + (if pattern == "" && |owners| >= 2 then [file] else []);
  }

  // ----- the audit -----

  ghost function OwnersOfFile(leases: Leases, file: string): set<string> {
    set o | o in leases && Covers(leases[o], file)
  }

  /** The names under which the policy excuses a file. */
  ghost function Excuses(policy: seq<string>, file: string): set<string>
    requires CompilesTwice(policy)
  {
    set p | p in policy && Claims(Compile(p).value.normalized, file) ::
      Compile(Compile(p).value.normalized).value.normalized
  }

  ghost function FactsOf(policy: seq<string>, leases: Leases): Facts
    requires CompilesTwice(policy)
  {
    Facts(file => Excuses(policy, file), file => OwnersOfFile(leases, file))
  }

  lemma CompiledNames(policy: seq<string>, normal: seq<string>, patterns: seq<Pattern>, file: string)
    requires CompilesTwice(policy) && Elements(normal) == NormalForms(policy) && Compiled(normal, patterns)
    ensures MatchingNames(patterns, file) == Excuses(policy, file)
  {
    forall n | n in MatchingNames(patterns, file)
      ensures n in Excuses(policy, file)
    {
      var i :| 0 <= i < |patterns| && Matches(patterns[i], file) && patterns[i].normalized == n;
      assert normal[i] in NormalForms(policy) by {
        assert normal[i] in Elements(normal);
      }
      var p :| p in policy && Compile(p).value.normalized == normal[i];
      assert Claims(normal[i], file);
    }
    forall n | n in Excuses(policy, file)
      ensures n in MatchingNames(patterns, file)
    {
      var p :| p in policy && Claims(Compile(p).value.normalized, file) &&
        Compile(Compile(p).value.normalized).value.normalized == n;
      assert Compile(p).value.normalized in Elements(normal);
      var i :| 0 <= i < |normal| && normal[i] == Compile(p).value.normalized;
      assert patterns[i] in patterns;
    }
  }

  ghost predicate LeasesCompile(leases: Leases) {
    forall o :: o in leases ==> AllCompile(leases[o])
  }

  /** The loop over the changed files. */
  method AuditFiles(files: seq<string>, leases: Leases, patterns: seq<Pattern>, ghost facts: Facts)
    returns (r: Result<ScopeAudit>)
    requires forall p :: p in patterns ==> p.normalized != ""
    requires forall f :: facts.excuses(f) == MatchingNames(patterns, f) && facts.owners(f) == OwnersOfFile(leases, f)
    ensures r.Ok? ==> Audits(facts, files, r.value)
    ensures LeasesCompile(leases) ==> r.Ok?
  {
    var a := ScopeAudit([], [], [], []);
    for i := 0 to |files|
      invariant Audits(facts, files[..i], a)
    {
      var pattern := MatchingEphemeralPattern(files[i], patterns);
      var owners: seq<string> := [];
      if pattern == "" {
        var covering := CoveringOwners(files[i], leases);
        if covering.Err? {
          return Err(covering.reason);
        }
        owners := covering.value;
      }
      PlaceKeepsAudit(facts, files, i, a, pattern, owners);
      a := Place(a, files[i], pattern, owners);
    }
    assert files[..|files|] == files;
    r := Ok(a);
  }

  /** AuditScopes: on leases that compile it fails exactly when the policy cannot be used. */
  method AuditScopes(changed: seq<string>, leases: Leases, policy: seq<string>)
    returns (files: seq<string>, r: Result<ScopeAudit>)
    ensures r.Ok? ==> CompilesTwice(policy) && Audits(FactsOf(policy, leases), files, r.value)
    ensures StrictlySorted(files) && Elements(files) == Elements(changed) - {""}
    ensures LeasesCompile(leases) ==> (r.Ok? <==> PolicyUsable(policy))
  {
    files := UniqueSorted(changed);
    PolicyUsableIff(policy);
    var normalized := NormalizeAuditPolicy(policy);
    if normalized.Err? {
      return files, Err(normalized.reason);
    }
    var compiled := CompileAll(normalized.value);
    UsableIffTwiceCompiled(policy, normalized.value);
    if compiled.Err? {
      return files, Err(compiled.reason);
    }
    NamesNotEmpty(normalized.value, compiled.value);
    forall f
      ensures MatchingNames(compiled.value, f) == Excuses(policy, f)
    {
      CompiledNames(policy, normalized.value, compiled.value, f);
    }
    r := AuditFiles(files, leases, compiled.value, FactsOf(policy, leases));
  }

  lemma UsableIffTwiceCompiled(policy: seq<string>, normal: seq<string>)
    requires AllCompile(policy) && Elements(normal) == NormalForms(policy)
    ensures CompilesTwice(policy) <==> AllCompile(normal)
  {
    if AllCompile(normal) {
      forall p | p in policy
        ensures Compile(Compile(p).value.normalized).Ok?
      {
        assert Compile(p).value.normalized in Elements(normal);
      }
    } else {
      var n :| n in normal && Compile(n).Err?;
      assert n in Elements(normal);
      var p :| p in policy && Compile(p).value.normalized == n;
    }
  }

  lemma NamesNotEmpty(raws: seq<string>, patterns: seq<Pattern>)
    requires Compiled(raws, patterns)
    ensures forall p :: p in patterns ==> p.normalized != ""
  {
    forall i | 0 <= i < |patterns|
      ensures patterns[i].normalized != ""
    {
      CompiledWellFormed(raws[i]);
      NormalizedShape(raws[i]);
    }
  }

  // ----- every file in exactly one class -----

  lemma {:induction false} OfClassMember(facts: Facts, files: seq<string>, c: Class, f: string)
    ensures f in OfClass(facts, files, c) <==> f in files && ClassOf(facts, f) == c
  {
    if files != [] {
      var n := |files| - 1;
      OfClassMember(facts, files[..n], c, f);
      assert files == files[..n] + [files[n]];
    }
  }

  lemma {:induction false} OfClassSorted(facts: Facts, files: seq<string>, c: Class)
    requires StrictlySorted(files)
    ensures StrictlySorted(OfClass(facts, files, c))
  {
    if files != [] {
      var n := |files| - 1;
      OfClassSorted(facts, files[..n], c);
      forall x | x in OfClass(facts, files[..n], c)
        ensures Less(x, files[n])
      {
        OfClassMember(facts, files[..n], c, x);
      }
    }
  }

  /** In exactly one of four lists. */
  predicate InOne(a: bool, b: bool, c: bool, d: bool) {
    || (a && !b && !c && !d) || (!a && b && !c && !d) || (!a && !b && c && !d) || (!a && !b && !c && d)
  }

  /** Each audited file is in exactly one list, once, and nothing else is in any. */
  lemma EachFileInOneClass(facts: Facts, files: seq<string>, a: ScopeAudit, f: string)
    requires Audits(facts, files, a) && StrictlySorted(files)
    ensures f in files ==>
              InOne(f in EphemeralPaths(a.ephemeral), f in a.unauthorized, f in OwnedPaths(a.authorized),
                    f in OwnedPaths(a.ownerUncertain))
    ensures f !in files ==>
              && f !in EphemeralPaths(a.ephemeral) && f !in a.unauthorized
              && f !in OwnedPaths(a.authorized) && f !in OwnedPaths(a.ownerUncertain)
    ensures StrictlySorted(EphemeralPaths(a.ephemeral)) && StrictlySorted(a.unauthorized)
    ensures StrictlySorted(OwnedPaths(a.authorized)) && StrictlySorted(OwnedPaths(a.ownerUncertain))
  {
    OfClassMember(facts, files, Ephemeral, f);
    OfClassMember(facts, files, Unauthorized, f);
    OfClassMember(facts, files, Authorized, f);
    OfClassMember(facts, files, OwnerUncertain, f);
    OfClassSorted(facts, files, Ephemeral);
    OfClassSorted(facts, files, Unauthorized);
    OfClassSorted(facts, files, Authorized);
    OfClassSorted(facts, files, OwnerUncertain);
  }

  lemma {:induction false} NoneOfClass(facts: Facts, files: seq<string>, c: Class)
    requires forall f :: f in files ==> ClassOf(facts, f) != c
    ensures OfClass(facts, files, c) == []
  {
    if files != [] {
      NoneOfClass(facts, files[..|files| - 1], c);
    }
  }

  lemma SingleOwner(owners: set<string>)
    requires forall o, p :: o in owners && p in owners ==> o == p
    ensures |owners| <= 1
  {
    if owners != {} {
      var o :| o in owners;
      assert owners == {o};
    }
  }

  /** Leases that are apart leave no file with an uncertain owner. */
  lemma ApartLeavesNoUncertain(leases: Leases, facts: Facts, files: seq<string>, a: ScopeAudit)
    requires AllApart(leases) && (forall f :: facts.owners(f) == OwnersOfFile(leases, f)) && Audits(facts, files, a)
    ensures a.ownerUncertain == []
  {
    forall f | f in files
      ensures ClassOf(facts, f) != OwnerUncertain
    {
      forall o, p | o in OwnersOfFile(leases, f) && p in OwnersOfFile(leases, f)
        ensures o == p
      {
        ApartOwnersNeverShare(leases, o, p, f);
      }
      SingleOwner(OwnersOfFile(leases, f));
    }
    NoneOfClass(facts, files, OwnerUncertain);
  }

  // ----- the cross-module theorem -----

  lemma {:induction false} ScopesAreLeases(tasks: seq<Task>)
    requires ContractsHold(tasks)
    ensures LeasesCompile(Scopes(tasks))
  {
    if tasks != [] {
      var n := |tasks| - 1;
      assert tasks == tasks[..n] + [tasks[n]];
      ScopesAreLeases(tasks[..n]);
      assert ContractHolds(tasks[n]);
    }
  }

  lemma {:induction false} AdmissibleLeases(tasks: seq<Task>)
    requires Admissible(tasks)
    ensures AllApart(Scopes(tasks)) && LeasesCompile(Scopes(tasks))
  {
    ScopesAreLeases(tasks);
  }

  /**
   From a wave that passed Preflight, through any sequence of scope decisions, the audit of any
   list of changed files under any usable policy succeeds with nothing owner-uncertain.
   */
  method AuditAfterRun(ghost states: seq<seq<Task>>, ghost decisions: seq<Decision>, tasks: seq<Task>, wave: string,
                       changed: seq<string>, policy: seq<string>)
    returns (files: seq<string>, r: Result<ScopeAudit>)
    requires IsRun(StaticChecks(), states, decisions) && tasks == states[|decisions|]
    requires Admissible(WaveTasks(states[0], wave)) && PolicyUsable(policy)
    ensures StrictlySorted(files) && Elements(files) == Elements(changed) - {""}
    ensures r.Ok? && r.value.ownerUncertain == []
    ensures forall f :: f in files ==>
              InOne(f in EphemeralPaths(r.value.ephemeral), f in r.value.unauthorized,
                    f in OwnedPaths(r.value.authorized), false)
  {
    RunLeavesApart(states, decisions, wave);
    PolicyUsableIff(policy);
    var leases := Scopes(WaveTasks(tasks, wave));
    files, r := AuditScopes(changed, leases, policy);
    Conclude(leases, FactsOf(policy, leases), files, r.value);
  }

  lemma Conclude(leases: Leases, facts: Facts, files: seq<string>, a: ScopeAudit)
    requires AllApart(leases) && (forall f :: facts.owners(f) == OwnersOfFile(leases, f)) && Audits(facts, files, a)
    requires StrictlySorted(files)
    ensures a.ownerUncertain == []
    ensures forall f :: f in files ==>
              InOne(f in EphemeralPaths(a.ephemeral), f in a.unauthorized, f in OwnedPaths(a.authorized), false)
  {
    ApartLeavesNoUncertain(leases, facts, files, a);
    forall f | f in files
      ensures InOne(f in EphemeralPaths(a.ephemeral), f in a.unauthorized, f in OwnedPaths(a.authorized), false)
    {
      EachFileInOneClass(facts, files, a, f);
    }
  }

  /** After any run of decisions the wave's leases still compile and are apart. */
  lemma {:induction false} RunLeavesApart(states: seq<seq<Task>>, decisions: seq<Decision>, wave: string)
    requires IsRun(StaticChecks(), states, decisions) && Admissible(WaveTasks(states[0], wave))
    ensures var leases := Scopes(WaveTasks(states[|decisions|], wave)); AllApart(leases) && LeasesCompile(leases)
  {
    StaticChecksRefuseDuplicates();
    RunKeepsAdmitted(StaticChecks(), states, decisions, wave);
    AdmissibleLeases(WaveTasks(states[|decisions|], wave));
  }
}
