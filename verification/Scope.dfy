/**
 Write-scope patterns: compilation, matching, the conservative overlap test and the searches over
 leases (internal/scope/scope.go:19-159).
 */
module Scope {
  import opened Text
  import opened Paths
  import Glob

  datatype Pattern = Pattern(raw: string, normalized: string, staticPrefix: seq<string>, hasWildcard: bool)

  predicate HasWildcard(s: string) {
    '*' in s || '?' in s || '[' in s
  }

  /** Leading segments without a wildcard character. */
  function LeadingStatic(parts: seq<string>): (prefix: seq<string>)
    ensures prefix <= parts
    ensures forall i :: 0 <= i < |prefix| ==> !HasWildcard(prefix[i])
    ensures |prefix| < |parts| ==> HasWildcard(parts[|prefix|])
  {
    if parts == [] || HasWildcard(parts[0]) then [] else [parts[0]] + LeadingStatic(parts[1..])
  }

  /** staticPrefix: the loop that stops at the first segment with a wildcard. */
  method StaticPrefix(pattern: string) returns (prefix: seq<string>)
    ensures prefix == LeadingStatic(Split(pattern))
  {
    var parts := Split(pattern);
    prefix := [];
    var i := 0;
    while i < |parts| && !HasWildcard(parts[i])
      invariant 0 <= i <= |parts|
      invariant prefix == parts[..i]
      invariant forall k :: 0 <= k < i ==> !HasWildcard(parts[k])
    {
      prefix := prefix + [parts[i]];
      i := i + 1;
    }
    LongestStatic(parts, i);
  }

  /** The leading static segments are the longest prefix without a wildcard. */
  lemma {:induction false} LongestStatic(parts: seq<string>, i: nat)
    requires i <= |parts| && forall k :: 0 <= k < i ==> !HasWildcard(parts[k])
    requires i < |parts| ==> HasWildcard(parts[i])
    ensures LeadingStatic(parts) == parts[..i]
  {
  }

  function Compile(raw: string): Result<Pattern> {
    match Normalize(raw)
    case Err(e) => Err(e)
    case Ok(n) =>
      match Glob.CompileRegex("^" + Glob.Body(n) + "$")
      case None => Err("compile scope")
      case Some(_) => Ok(Pattern(raw, n, LeadingStatic(Split(n)), HasWildcard(n)))
  }

  /** Every pattern that normalises compiles. */
  lemma CompileIffNormalize(raw: string)
    ensures Compile(raw).Ok? <==> Normalize(raw).Ok?
  {
    if Normalize(raw).Ok? {
      Glob.EmittedRegexCompiles(Normalize(raw).value);
    }
  }

  /** Pattern.Match. */
  predicate Matches(p: Pattern, path: string) {
    Glob.RegexMatch(p.normalized, Candidate(path))
  }

  predicate PrefixesAgree(xs: seq<string>, ys: seq<string>) {
    forall i :: 0 <= i < |xs| && i < |ys| ==> xs[i] == ys[i]
  }

  predicate PatternsMayOverlap(pa: Pattern, pb: Pattern) {
    if !pa.hasWildcard && !pb.hasWildcard then pa.normalized == pb.normalized
    else if !pa.hasWildcard then Matches(pb, pa.normalized)
    else if !pb.hasWildcard then Matches(pa, pb.normalized)
    else PrefixesAgree(pa.staticPrefix, pb.staticPrefix)
  }

  function MayOverlap(a: string, b: string): Result<bool> {
    match Compile(a)
    case Err(e) => Err(e)
    case Ok(pa) =>
      match Compile(b)
      case Err(e) => Err(e)
      case Ok(pb) =>
        Ok(PatternsMayOverlap(pa, pb))
  }

  lemma MayOverlapSymmetric(a: string, b: string)
    ensures MayOverlap(a, b).Ok? <==> MayOverlap(b, a).Ok?
    ensures MayOverlap(a, b).Ok? ==> MayOverlap(a, b) == MayOverlap(b, a)
  {
    if Compile(a).Ok? && Compile(b).Ok? {
      OverlapSymmetric(Compile(a).value, Compile(b).value);
    }
  }

  lemma OverlapSymmetric(pa: Pattern, pb: Pattern)
    ensures PatternsMayOverlap(pa, pb) == PatternsMayOverlap(pb, pa)
  {
  }

  lemma {:induction false} SplitBehind(prefix: seq<string>, rest: string)
    requires prefix != [] && AllSlashFree(prefix)
    ensures Split(Join(prefix) + ['/'] + rest) == prefix + Split(rest)
    decreases |prefix|
  {
    if |prefix| == 1 {
      SplitConcat(prefix[0], rest);
    } else {
      var head, middle := prefix[0] + ['/'], Join(prefix[1..]);
      Assoc(head, middle, ['/']);
      Assoc(head, middle + ['/'], rest);
      SplitConcat(prefix[0], middle + ['/'] + rest);
      SplitBehind(prefix[1..], rest);
      Regroup(prefix, Split(rest));
    }
  }

  lemma Regroup(a: seq<string>, b: seq<string>)
    requires a != []
    ensures [a[0]] + (a[1..] + b) == a + b
  {
  }

  lemma {:induction false} StaticPartsLiteral(prefix: seq<string>)
    requires forall i :: 0 <= i < |prefix| ==> !HasWildcard(prefix[i])
    ensures Glob.WildcardFree(Join(prefix)) && !HasWildcard(Join(prefix))
  {
    JoinKeepsFree('*', prefix);
    JoinKeepsFree('?', prefix);
    JoinKeepsFree('[', prefix);
  }

  /** A pattern with a wildcard has a segment with one. */
  lemma {:induction false} WildcardStopsPrefix(n: string)
    requires HasWildcard(n)
    ensures |LeadingStatic(Split(n))| < |Split(n)|
  {
    JoinSplit(n);
    var parts, prefix := Split(n), LeadingStatic(Split(n));
    if |prefix| == |parts| {
      assert prefix == parts;
      StaticPartsLiteral(parts);
      assert false;
    }
  }

  /** Whatever a wildcard pattern matches starts with the pattern's static segments. */
  lemma {:induction false} MatchedStartsStatic(n: string, q: string)
    requires HasWildcard(n) && Glob.GlobMatch(n, q)
    ensures LeadingStatic(Split(n)) <= Split(q)
  {
    var parts, prefix := Split(n), LeadingStatic(Split(n));
    if prefix != [] {
      WildcardStopsPrefix(n);
      JoinSplit(n);
      var rest := parts[|prefix|..];
      assert parts == prefix + rest;
      JoinConcat(prefix, rest);
      var lit := Join(prefix) + ['/'];
      StaticPartsLiteral(prefix);
      assert n == lit + Join(rest);
      Glob.LiteralPrefix(lit, Join(rest), q);
      assert q == lit + q[|lit|..];
      SplitBehind(prefix, q[|lit|..]);
    }
  }

  lemma MatchesGlob(p: Pattern, path: string)
    ensures Matches(p, path) <==> Glob.GlobMatch(p.normalized, Candidate(path))
  {
    Glob.RegexMatchIsGlobMatch(p.normalized, Candidate(path));
  }

  /** A pattern without wildcards matches exactly the files that clean to it. */
  lemma LiteralMatches(p: Pattern, path: string)
    requires !HasWildcard(p.normalized)
    ensures Matches(p, path) <==> Candidate(path) == p.normalized
  {
    MatchesGlob(p, path);
    Glob.LiteralGlob(p.normalized, Candidate(path));
  }

  /** What Compile establishes about a pattern. */
  predicate WellFormed(p: Pattern) {
    && p.hasWildcard == HasWildcard(p.normalized)
    && p.staticPrefix == LeadingStatic(Split(p.normalized))
    && Candidate(p.normalized) == p.normalized
  }

  lemma CompiledWellFormed(raw: string)
    requires Compile(raw).Ok?
    ensures WellFormed(Compile(raw).value) && Compile(raw).value.normalized == Normalize(raw).value
  {
    NormalizedShape(raw);
  }

  lemma LiteralNoFalseNegatives(pa: Pattern, pb: Pattern, path: string)
    requires WellFormed(pa) && WellFormed(pb) && !pa.hasWildcard
    requires Matches(pa, path) && Matches(pb, path)
    ensures PatternsMayOverlap(pa, pb)
  {
    LiteralMatches(pa, path);
    if !pb.hasWildcard {
      LiteralMatches(pb, path);
    }
  }

  lemma WildcardNoFalseNegatives(pa: Pattern, pb: Pattern, path: string)
    requires WellFormed(pa) && WellFormed(pb) && pa.hasWildcard && pb.hasWildcard
    requires Matches(pa, path) && Matches(pb, path)
    ensures PatternsMayOverlap(pa, pb)
  {
    MatchesGlob(pa, path);
    MatchesGlob(pb, path);
    MatchedStartsStatic(pa.normalized, Candidate(path));
    MatchedStartsStatic(pb.normalized, Candidate(path));
    CommonExtension(pa.staticPrefix, pb.staticPrefix, Split(Candidate(path)));
  }

  lemma CommonExtension(xs: seq<string>, ys: seq<string>, all: seq<string>)
    requires xs <= all && ys <= all
    ensures PrefixesAgree(xs, ys)
  {
  }

  /**
   The overlap test has no false negatives: on any path matched by both patterns it answers true,
   for every pair of patterns that compile.
   */
  lemma NoFalseNegatives(a: string, b: string, path: string)
    requires Compile(a).Ok? && Compile(b).Ok?
    requires Matches(Compile(a).value, path) && Matches(Compile(b).value, path)
    ensures MayOverlap(a, b) == Ok(true)
  {
    CompiledWellFormed(a);
    CompiledWellFormed(b);
    var pa, pb := Compile(a).value, Compile(b).value;
    OverlapSymmetric(pa, pb);
    if !pa.hasWildcard {
      LiteralNoFalseNegatives(pa, pb, path);
    } else if !pb.hasWildcard {
      LiteralNoFalseNegatives(pb, pa, path);
    } else {
      WildcardNoFalseNegatives(pa, pb, path);
    }
  }

  /** When one pattern is free of wildcards the test is exact. */
  lemma LiteralOverlapExact(a: string, b: string)
    requires Compile(a).Ok? && Compile(b).Ok?
    requires !Compile(a).value.hasWildcard
    ensures MayOverlap(a, b) == Ok(true) <==>
            exists path :: Matches(Compile(a).value, path) && Matches(Compile(b).value, path)
  {
    var pa, pb := Compile(a).value, Compile(b).value;
    CompiledWellFormed(a);
    CompiledWellFormed(b);
    LiteralMatches(pa, pa.normalized);
    if MayOverlap(a, b) == Ok(true) {
      if !pb.hasWildcard {
        LiteralMatches(pb, pa.normalized);
      }
      assert Matches(pa, pa.normalized) && Matches(pb, pa.normalized);
    }
    if path :| Matches(pa, path) && Matches(pb, path) {
      NoFalseNegatives(a, b, path);
    }
  }

  predicate LiesBelow(path: seq<string>, dir: seq<string>) {
    dir <= path
  }

  lemma AgreeIffCommonPath(xs: seq<string>, ys: seq<string>)
    ensures PrefixesAgree(xs, ys) <==> exists path :: LiesBelow(path, xs) && LiesBelow(path, ys)
  {
    if PrefixesAgree(xs, ys) {
      var path := if |xs| <= |ys| then ys else xs;
      assert LiesBelow(path, xs) && LiesBelow(path, ys);
    }
    if path :| LiesBelow(path, xs) && LiesBelow(path, ys) {
      CommonExtension(xs, ys, path);
    }
  }

  /** The segments in front of the first wildcard of the normal form. */
  function StaticDirectory(raw: string): seq<string>
    requires Normalize(raw).Ok?
  {
    LeadingStatic(Split(Normalize(raw).value))
  }

  predicate Wild(raw: string) {
    Normalize(raw).Ok? && HasWildcard(Normalize(raw).value)
  }

  lemma CompiledDirectory(raw: string)
    requires Compile(raw).Ok?
    ensures Compile(raw).value.staticPrefix == StaticDirectory(raw) && Compile(raw).value.hasWildcard == Wild(raw)
  {
  }

  lemma CompiledOverlap(a: string, b: string, pa: Pattern, pb: Pattern)
    requires Compile(a) == Ok(pa) && Compile(b) == Ok(pb)
    ensures MayOverlap(a, b) == Ok(PatternsMayOverlap(pa, pb))
  {
  }

  /** With wildcards in both, the test answers whether one path can lie below the static segments of both. */
  lemma WildcardOverlapExact(a: string, b: string)
    requires Wild(a) && Wild(b)
    ensures MayOverlap(a, b) == Ok(true) <==> exists path :: LiesBelow(path, StaticDirectory(a)) && LiesBelow(path, StaticDirectory(b))
  {
    CompileIffNormalize(a);
    CompileIffNormalize(b);
    CompiledDirectory(a);
    CompiledDirectory(b);
    CompiledOverlap(a, b, Compile(a).value, Compile(b).value);
    WildcardsCompareStatic(Compile(a).value, Compile(b).value);
  }

  lemma WildcardsCompareStatic(pa: Pattern, pb: Pattern)
    requires pa.hasWildcard && pb.hasWildcard
    ensures PatternsMayOverlap(pa, pb) <==> exists path :: LiesBelow(path, pa.staticPrefix) && LiesBelow(path, pb.staticPrefix)
  {
    AgreeIffCommonPath(pa.staticPrefix, pb.staticPrefix);
  }

  /** A directory without wildcards that the pattern spells out. */
  predicate InDirectory(pattern: string, dir: seq<string>) {
    && Normalize(pattern).Ok? && LiesBelow(Split(Normalize(pattern).value), dir)
    && forall i :: 0 <= i < |dir| ==> !HasWildcard(dir[i])
  }

  lemma DirectoryIsStatic(pattern: string, dir: seq<string>)
    requires InDirectory(pattern, dir)
    ensures dir <= StaticDirectory(pattern)
  {
  }

  /** Every file a pattern of the directory matches is in the directory. */
  lemma MatchedInDirectory(pattern: string, dir: seq<string>, path: string)
    requires InDirectory(pattern, dir) && Compile(pattern).Ok? && Matches(Compile(pattern).value, path)
    ensures LiesBelow(Split(Candidate(path)), dir)
  {
    var p := Compile(pattern).value;
    CompiledWellFormed(pattern);
    DirectoryIsStatic(pattern, dir);
    if p.hasWildcard {
      MatchesGlob(p, path);
      MatchedStartsStatic(p.normalized, Candidate(path));
    } else {
      LiteralMatches(p, path);
    }
  }

  lemma OtherDirectory(a: string, left: seq<string>, b: string, right: seq<string>)
    requires InDirectory(a, left) && InDirectory(b, right) && !(left <= right) && !(right <= left)
    ensures MayOverlap(a, b) == Ok(false)
  {
    CompileIffNormalize(a);
    CompileIffNormalize(b);
    MayOverlapSymmetric(a, b);
    if MayOverlap(a, b) == Ok(true) {
      if !Compile(a).value.hasWildcard {
        LiteralOverlapExact(a, b);
        NoCommonFile(a, left, b, right);
      } else if !Compile(b).value.hasWildcard {
        LiteralOverlapExact(b, a);
        NoCommonFile(b, right, a, left);
      } else {
        CompiledDirectory(a);
        CompiledDirectory(b);
        NoCommonDirectory(a, left, b, right);
      }
    }
  }

  lemma NoCommonFile(a: string, left: seq<string>, b: string, right: seq<string>)
    requires InDirectory(a, left) && InDirectory(b, right) && !(left <= right) && !(right <= left)
    requires Compile(a).Ok? && Compile(b).Ok?
    ensures !exists path :: Matches(Compile(a).value, path) && Matches(Compile(b).value, path)
  {
    if path :| Matches(Compile(a).value, path) && Matches(Compile(b).value, path) {
      MatchedInDirectory(a, left, path);
      MatchedInDirectory(b, right, path);
      assert false;
    }
  }

  lemma NoCommonDirectory(a: string, left: seq<string>, b: string, right: seq<string>)
    requires InDirectory(a, left) && InDirectory(b, right) && !(left <= right) && !(right <= left) && Wild(a) && Wild(b)
    ensures MayOverlap(a, b) != Ok(true)
  {
    DirectoryIsStatic(a, left);
    DirectoryIsStatic(b, right);
    WildcardOverlapExact(a, b);
  }

  // ----- searches over leases -----

  type Leases = map<string, seq<string>>

  datatype Overlap = Overlap(leftOwner: string, leftPattern: string, rightOwner: string, rightPattern: string)

  /** No pattern of one owner may overlap a pattern of the other, and all comparisons succeed. */
  predicate Apart(ls: seq<string>, rs: seq<string>) {
    forall l, r :: l in ls && r in rs ==> MayOverlap(l, r) == Ok(false)
  }

  lemma ApartBothWays(ls: seq<string>, rs: seq<string>)
    ensures Apart(ls, rs) <==> Apart(rs, ls)
  {
    forall l, r | l in ls && r in rs
      ensures MayOverlap(r, l) == Ok(false) <==> MayOverlap(l, r) == Ok(false)
    {
      MayOverlapSymmetric(l, r);
    }
  }

  /** Leases under two directories, neither inside the other, are apart whatever wildcards they use. */
  lemma DirectoriesApart(ls: seq<string>, left: seq<string>, rs: seq<string>, right: seq<string>)
    requires !(left <= right) && !(right <= left)
    requires (forall l :: l in ls ==> InDirectory(l, left)) && (forall r :: r in rs ==> InDirectory(r, right))
    ensures Apart(ls, rs)
  {
    forall l, r | l in ls && r in rs
      ensures MayOverlap(l, r) == Ok(false)
    {
      OtherDirectory(l, left, r, right);
    }
  }

  predicate AllApart(leases: Leases) {
    forall o, p :: o in leases && p in leases && o != p ==> Apart(leases[o], leases[p])
  }

  /** The list holds exactly the overlapping pairs of the two owners. */
  ghost predicate FindsPair(found: seq<Overlap>, left: string, ls: seq<string>, right: string, rs: seq<string>) {
    forall o :: o in found <==>
      && o.leftOwner == left && o.rightOwner == right && o.leftPattern in ls && o.rightPattern in rs
      && MayOverlap(o.leftPattern, o.rightPattern) == Ok(true)
  }

  /** The two inner loops of FindOverlaps. */
  method PairOverlaps(left: string, ls: seq<string>, right: string, rs: seq<string>) returns (found: Result<seq<Overlap>>)
    ensures found.Ok? <==> forall l, r :: l in ls && r in rs ==> MayOverlap(l, r).Ok?
    ensures found.Ok? ==> FindsPair(found.value, left, ls, right, rs)
  {
    var out: seq<Overlap> := [];
    for i := 0 to |ls|
      invariant forall l, r :: l in ls[..i] && r in rs ==> MayOverlap(l, r).Ok?
      invariant FindsPair(out, left, ls[..i], right, rs)
    {
      var l := ls[i];
      var row := RowOverlaps(left, l, right, rs);
      if row.Err? {
        return Err(row.reason);
      }
      assert ls[..i + 1] == ls[..i] + [l];
      out := out + row.value;
    }
    assert ls[..|ls|] == ls;
    found := Ok(out);
  }

  method RowOverlaps(left: string, l: string, right: string, rs: seq<string>) returns (found: Result<seq<Overlap>>)
    ensures found.Ok? <==> forall r :: r in rs ==> MayOverlap(l, r).Ok?
    ensures found.Ok? ==> FindsPair(found.value, left, [l], right, rs)
  {
    var out: seq<Overlap> := [];
    for j := 0 to |rs|
      invariant forall r :: r in rs[..j] ==> MayOverlap(l, r).Ok?
      invariant FindsPair(out, left, [l], right, rs[..j])
    {
      assert rs[..j + 1] == rs[..j] + [rs[j]];
      var overlap := MayOverlap(l, rs[j]);
      if overlap.Err? {
        return Err(overlap.reason);
      }
      if overlap.value {
        out := out + [Overlap(left, l, right, rs[j])];
      }
    }
    assert rs[..|rs|] == rs;
    found := Ok(out);
  }

  /** What each reported overlap is. */
  predicate RealOverlap(leases: Leases, o: Overlap) {
    && o.leftOwner in leases && o.rightOwner in leases && Less(o.leftOwner, o.rightOwner)
    && o.leftPattern in leases[o.leftOwner] && o.rightPattern in leases[o.rightOwner]
    && MayOverlap(o.leftPattern, o.rightPattern) == Ok(true)
  }

  predicate OwnersOf(owners: seq<string>, leases: Leases) {
    && StrictlySorted(owners) && Elements(owners) == leases.Keys
    && forall i :: 0 <= i < |owners| ==> owners[i] in leases
  }

  /** The owner at i is apart from the owners at i + 1 .. j. */
  predicate RowApart(leases: Leases, owners: seq<string>, i: nat, j: nat)
    requires i < |owners| && j <= |owners| && OwnersOf(owners, leases)
  {
    forall q :: i < q < j ==> Apart(leases[owners[i]], leases[owners[q]])
  }

  /** FindOverlaps finds nothing, without error, exactly when all owners' patterns are apart. */
  method FindOverlaps(leases: Leases) returns (found: Result<seq<Overlap>>)
    ensures found == Ok([]) <==> AllApart(leases)
    ensures found.Ok? ==> forall o :: o in found.value ==> RealOverlap(leases, o)
  {
    var owners := SortedSet(leases.Keys);
    assert forall i :: 0 <= i < |owners| ==> owners[i] in Elements(owners);
    var out: seq<Overlap> := [];
    for i := 0 to |owners|
      invariant forall o :: o in out ==> RealOverlap(leases, o)
      invariant out == [] <==> forall p :: 0 <= p < i ==> RowApart(leases, owners, p, |owners|)
    {
      var row := OwnerOverlaps(leases, owners, i);
      if row.Err? {
        return Err(row.reason);
      }
      out := out + row.value;
    }
    OwnersApart(leases, owners);
    found := Ok(out);
  }

  method OwnerOverlaps(leases: Leases, owners: seq<string>, i: nat) returns (found: Result<seq<Overlap>>)
    requires OwnersOf(owners, leases) && i < |owners|
    ensures found.Err? ==> !AllApart(leases)
    ensures found.Ok? ==> forall o :: o in found.value ==> RealOverlap(leases, o)
    ensures found.Ok? ==> (found.value == [] <==> RowApart(leases, owners, i, |owners|))
  {
    var out: seq<Overlap> := [];
    for j := i + 1 to |owners|
      invariant forall o :: o in out ==> RealOverlap(leases, o)
      invariant out == [] <==> RowApart(leases, owners, i, j)
    {
      var pair := PairOverlaps(owners[i], leases[owners[i]], owners[j], leases[owners[j]]);
      if pair.Err? {
        NotApart(leases, owners, i, j);
        return Err(pair.reason);
      }
      PairApart(owners[i], leases[owners[i]], owners[j], leases[owners[j]], pair.value);
      RowGrows(leases, owners, i, j);
      PairIsReal(leases, owners, i, j, pair.value);
      out := out + pair.value;
    }
    found := Ok(out);
  }

  lemma PairApart(left: string, ls: seq<string>, right: string, rs: seq<string>, found: seq<Overlap>)
    requires forall l, r :: l in ls && r in rs ==> MayOverlap(l, r).Ok?
    requires FindsPair(found, left, ls, right, rs)
    ensures found == [] <==> Apart(ls, rs)
  {
    if found == [] {
      forall l, r | l in ls && r in rs
        ensures MayOverlap(l, r) == Ok(false)
      {
        assert Overlap(left, l, right, r) !in found;
      }
    } else {
      assert found[0] in found;
    }
  }

  lemma RowGrows(leases: Leases, owners: seq<string>, i: nat, j: nat)
    requires i < j < |owners| && OwnersOf(owners, leases)
    ensures RowApart(leases, owners, i, j + 1) <==>
            RowApart(leases, owners, i, j) && Apart(leases[owners[i]], leases[owners[j]])
  {
  }

  lemma PairIsReal(leases: Leases, owners: seq<string>, i: nat, j: nat, found: seq<Overlap>)
    requires i < j < |owners| && OwnersOf(owners, leases)
    requires FindsPair(found, owners[i], leases[owners[i]], owners[j], leases[owners[j]])
    ensures forall o :: o in found ==> RealOverlap(leases, o)
  {
  }

  lemma NotApart(leases: Leases, owners: seq<string>, i: nat, j: nat)
    requires i < j < |owners| && OwnersOf(owners, leases)
    requires !(forall l, r :: l in leases[owners[i]] && r in leases[owners[j]] ==> MayOverlap(l, r).Ok?)
    ensures !AllApart(leases)
  {
    LessIrreflexive(owners[i]);
    assert owners[i] != owners[j];
    assert !Apart(leases[owners[i]], leases[owners[j]]);
  }

  lemma OwnersApart(leases: Leases, owners: seq<string>)
    requires OwnersOf(owners, leases)
    ensures AllApart(leases) <==> forall p :: 0 <= p < |owners| ==> RowApart(leases, owners, p, |owners|)
  {
    if AllApart(leases) {
      forall p, q | 0 <= p < q < |owners|
        ensures Apart(leases[owners[p]], leases[owners[q]])
      {
        LessIrreflexive(owners[p]);
        assert owners[p] != owners[q];
      }
    } else {
      var o, p :| o in leases && p in leases && o != p && !Apart(leases[o], leases[p]);
      assert o in Elements(owners) && p in Elements(owners);
      var i :| 0 <= i < |owners| && owners[i] == o;
      var j :| 0 <= j < |owners| && owners[j] == p;
      if i < j {
        assert !RowApart(leases, owners, i, |owners|);
      } else {
        ApartBothWays(leases[owners[i]], leases[owners[j]]);
        assert !RowApart(leases, owners, j, |owners|);
      }
    }
  }

  predicate Covers(patterns: seq<string>, path: string) {
    exists p :: p in patterns && Claims(p, path)
  }

  predicate AllCompile(patterns: seq<string>) {
    forall p :: p in patterns ==> Compile(p).Ok?
  }

  /** One pattern of an owner that compiles and matches. */
  predicate Claims(pattern: string, path: string) {
    Compile(pattern).Ok? && Matches(Compile(pattern).value, path)
  }

  /** scope.Match. */
  function Match(pattern: string, path: string): (r: Result<bool>)
    ensures r.Ok? <==> Compile(pattern).Ok?
    ensures r == Ok(true) <==> Claims(pattern, path)
  {
    var compiled := Compile(pattern);
    if compiled.Err? then Err(compiled.reason) else Ok(Matches(compiled.value, path))
  }

  /** The first pattern, in order, that stops the loop: it matches, or it does not compile. */
  method FirstStop(answers: seq<Result<bool>>) returns (r: Result<bool>)
    ensures r.Ok? ==> (r.value <==> Ok(true) in answers)
    ensures (forall a :: a in answers ==> a.Ok?) ==> r.Ok?
  {
    for i := 0 to |answers|
      invariant forall k :: 0 <= k < i ==> answers[k] == Ok(false)
    {
      if answers[i] != Ok(false) {
        return answers[i];
      }
    }
    r := Ok(false);
  }

  /** First-match loop over one owner's patterns. */
  method OwnerCovers(patterns: seq<string>, path: string) returns (r: Result<bool>)
    ensures r.Ok? ==> (r.value <==> Covers(patterns, path))
    ensures AllCompile(patterns) ==> r.Ok?
  {
    var answers := seq(|patterns|, i requires 0 <= i < |patterns| => Match(patterns[i], path));
    forall p | p in patterns
      ensures Match(p, path) in answers
    {
      var i :| 0 <= i < |patterns| && patterns[i] == p;
      assert answers[i] == Match(p, path);
    }
    r := FirstStop(answers);
  }

  /** CoveringOwners: the owners with a pattern matching the file, sorted. */
  method CoveringOwners(path: string, leases: Leases) returns (r: Result<seq<string>>)
    ensures r.Ok? ==> StrictlySorted(r.value) && Elements(r.value) == set o | o in leases && Covers(leases[o], path)
    ensures (forall o :: o in leases ==> AllCompile(leases[o])) ==> r.Ok?
  {
    var owners: seq<string> := [];
    var rest := leases.Keys;
    while rest != {}
      invariant rest <= leases.Keys && StrictlySorted(owners)
      invariant Elements(owners) == set o | o in leases && o !in rest && Covers(leases[o], path)
      decreases rest
    {
      var owner :| owner in rest;
      var covered := OwnerCovers(leases[owner], path);
      if covered.Err? {
        return Err(covered.reason);
      }
      assert owner !in Elements(owners);
      if covered.value {
        owners := InsertSorted(owners, owner);
      }
      rest := rest - {owner};
    }
    r := Ok(owners);
  }

  /** Owners whose patterns are apart never share a file. */
  lemma ApartOwnersNeverShare(leases: Leases, o: string, p: string, path: string)
    requires AllApart(leases) && o in leases && p in leases
    requires Covers(leases[o], path) && Covers(leases[p], path)
    ensures o == p
  {
    if o != p {
      var l :| l in leases[o] && Claims(l, path);
      var r :| r in leases[p] && Claims(r, path);
      assert Apart(leases[o], leases[p]);
      NoFalseNegatives(l, r, path);
    }
  }
}
