/** path.Clean and the normalisation of scope patterns (internal/scope/scope.go:37-57). */
module Paths {
  import opened Text

  /** One segment of path.Clean against the segments kept so far. */
  function CleanStep(rooted: bool, kept: seq<string>, seg: string): seq<string> {
    if seg == "" || seg == "." then kept
    else if seg == ".." then
      if kept != [] && kept[|kept| - 1] != ".." then kept[..|kept| - 1]
      else if rooted then kept
      else kept + [".."]
    else kept + [seg]
  }

  function CleanSegments(rooted: bool, kept: seq<string>, segs: seq<string>): seq<string>
    decreases |segs|
  {
    if segs == [] then kept else CleanSegments(rooted, CleanStep(rooted, kept, segs[0]), segs[1..])
  }

  function Rooted(p: string): bool { p != "" && p[0] == '/' }

  function Rebuild(rooted: bool, kept: seq<string>): string {
    if rooted then ['/'] + Join(kept) else if kept == [] then "." else Join(kept)
  }

  /** path.Clean. */
  function Clean(p: string): string {
    Rebuild(Rooted(p), CleanSegments(Rooted(p), [], Split(p)))
  }

  predicate RealSegment(s: string) {
    s != "" && s != "." && SlashFree(s)
  }

  /** What path.Clean can leave: real segments, with ".." only as an unrooted leading run. */
  predicate Canonical(rooted: bool, kept: seq<string>) {
    && (forall i :: 0 <= i < |kept| ==> RealSegment(kept[i]))
    && (rooted ==> ".." !in kept)
    && (forall i :: 0 < i < |kept| && kept[i] == ".." ==> kept[i - 1] == "..")
  }

  lemma {:induction false} CleanIsCanonical(rooted: bool, kept: seq<string>, segs: seq<string>)
    requires Canonical(rooted, kept) && AllSlashFree(segs)
    ensures Canonical(rooted, CleanSegments(rooted, kept, segs))
    decreases |segs|
  {
    if segs != [] {
      CleanIsCanonical(rooted, CleanStep(rooted, kept, segs[0]), segs[1..]);
    }
  }

  lemma CanonicalPrefix(rooted: bool, kept: seq<string>, segs: seq<string>)
    requires Canonical(rooted, kept + segs) && segs != [] && segs[0] == ".."
    ensures !rooted && (kept == [] || kept[|kept| - 1] == "..")
  {
    var all := kept + segs;
    assert all[|kept|] == "..";
    if kept != [] {
      assert all[|kept| - 1] == kept[|kept| - 1];
    }
  }

  /** Canonical segments pass through unchanged. */
  lemma {:induction false} CleanKeepsCanonical(rooted: bool, kept: seq<string>, segs: seq<string>)
    requires Canonical(rooted, kept + segs)
    ensures CleanSegments(rooted, kept, segs) == kept + segs
    decreases |segs|
  {
    if segs == [] {
      assert kept + segs == kept;
    } else {
      assert (kept + segs)[|kept|] == segs[0];
      if segs[0] == ".." {
        CanonicalPrefix(rooted, kept, segs);
      }
      assert CleanStep(rooted, kept, segs[0]) == kept + [segs[0]];
      assert kept + [segs[0]] + segs[1..] == kept + segs;
      CleanKeepsCanonical(rooted, kept + [segs[0]], segs[1..]);
    }
  }

  lemma CleanRebuilt(rooted: bool, kept: seq<string>)
    requires Canonical(rooted, kept)
    ensures Clean(Rebuild(rooted, kept)) == Rebuild(rooted, kept)
  {
    var p := Rebuild(rooted, kept);
    if rooted {
      assert p == [] + ['/'] + Join(kept);
      SplitConcat([], Join(kept));
      if kept == [] {
        assert Split(p) == ["", ""];
        assert CleanSegments(true, [], [""]) == [];
        assert ["", ""][1..] == [""];
      } else {
        SplitJoin(kept);
        assert ([[]] + kept)[1..] == kept;
        assert [] + kept == kept;
        CleanKeepsCanonical(true, [], kept);
      }
    } else if kept == [] {
      SplitFree(".");
      assert ["."][1..] == [];
      assert CleanSegments(false, [], ["."]) == CleanSegments(false, [], []);
    } else {
      SplitJoin(kept);
      JoinFirst(kept);
      assert [] + kept == kept;
      CleanKeepsCanonical(false, [], kept);
    }
  }

  lemma {:induction false} JoinFirst(kept: seq<string>)
    requires kept != [] && kept[0] != ""
    ensures Join(kept) != "" && Join(kept)[0] == kept[0][0]
  {
  }

  /** path.Clean is idempotent. */
  lemma CleanIdempotent(p: string)
    ensures Clean(Clean(p)) == Clean(p)
  {
    JoinSplit(p);
    CleanIsCanonical(Rooted(p), [], Split(p));
    CleanRebuilt(Rooted(p), CleanSegments(Rooted(p), [], Split(p)));
  }

  // ----- characters -----

  function Slashes(s: string): string {
    seq(|s|, i requires 0 <= i < |s| => if s[i] == '\\' then '/' else s[i])
  }

  function TrimDotSlash(s: string): string {
    if "./" <= s then s[2..] else s
  }

  /** The name a changed file is matched under (Pattern.Match). */
  function Candidate(path: string): string {
    Clean(TrimDotSlash(Slashes(path)))
  }

  predicate Free(c: char, s: string) { c !in s }

  lemma {:induction false} SplitKeepsFree(c: char, s: string)
    requires Free(c, s)
    ensures forall i :: 0 <= i < |Split(s)| ==> Free(c, Split(s)[i])
  {
    if s != [] {
      SplitKeepsFree(c, s[1..]);
    }
  }

  lemma {:induction false} JoinKeepsFree(c: char, parts: seq<string>)
    requires c != '/' && forall i :: 0 <= i < |parts| ==> Free(c, parts[i])
    ensures Free(c, Join(parts))
    decreases |parts|
  {
    if |parts| > 1 {
      JoinKeepsFree(c, parts[1..]);
    }
  }

  lemma {:induction false} CleanSegmentsFree(c: char, rooted: bool, kept: seq<string>, segs: seq<string>)
    requires c != '.'
    requires forall i :: 0 <= i < |segs| ==> Free(c, segs[i])
    requires forall i :: 0 <= i < |kept| ==> Free(c, kept[i])
    ensures forall i :: 0 <= i < |CleanSegments(rooted, kept, segs)| ==> Free(c, CleanSegments(rooted, kept, segs)[i])
    decreases |segs|
  {
    if segs != [] {
      CleanSegmentsFree(c, rooted, CleanStep(rooted, kept, segs[0]), segs[1..]);
    }
  }

  lemma CleanKeepsFree(c: char, p: string)
    requires c != '/' && c != '.' && Free(c, p)
    ensures Free(c, Clean(p))
  {
    SplitKeepsFree(c, p);
    CleanSegmentsFree(c, Rooted(p), [], Split(p));
    JoinKeepsFree(c, CleanSegments(Rooted(p), [], Split(p)));
  }

  lemma SlashesId(s: string)
    requires Free('\\', s)
    ensures Slashes(s) == s
  {
  }

  lemma SlashesFree(s: string)
    ensures Free('\\', Slashes(s))
  {
  }

  /** A cleaned path never starts with "./". */
  lemma CleanNoDotSlash(p: string)
    ensures TrimDotSlash(Clean(p)) == Clean(p)
  {
    var kept := CleanSegments(Rooted(p), [], Split(p));
    JoinSplit(p);
    CleanIsCanonical(Rooted(p), [], Split(p));
    if !Rooted(p) && kept != [] {
      SplitJoin(kept);
      DotSlashFirst(Clean(p));
      assert RealSegment(kept[0]);
    } else if Rooted(p) {
      assert Clean(p)[0] == '/';
    }
  }

  lemma {:induction false} DotSlashFirst(s: string)
    ensures "./" <= s ==> Split(s)[0] == "."
  {
    if "./" <= s {
      assert s == "." + ['/'] + s[2..];
      SplitConcat(".", s[2..]);
    }
  }

  /** Matching a cleaned, backslash-free name uses the name as it is. */
  lemma CandidateOfClean(p: string)
    requires Free('\\', p)
    ensures Candidate(Clean(p)) == Clean(p)
  {
    CleanKeepsFree('\\', p);
    SlashesId(Clean(p));
    CleanNoDotSlash(p);
    CleanIdempotent(p);
  }

  // ----- Normalize -----

  /** unicode.IsSpace for the characters strings.TrimSpace removes. */
  predicate IsSpace(c: char) {
    || c == ' ' || '\t' <= c <= '\r' || c == '\U{85}' || c == '\U{A0}' || c == '\U{1680}'
    || '\U{2000}' <= c <= '\U{200A}' || c == '\U{2028}' || c == '\U{2029}' || c == '\U{202F}'
    || c == '\U{205F}' || c == '\U{3000}'
  }

  /** The white space of Unicode by code point. */
  lemma SpaceLaw(c: char)
    ensures IsSpace(c) <==>
            c as int in {9, 10, 11, 12, 13, 32, 0x85, 0xA0, 0x1680, 0x2000, 0x2001, 0x2002, 0x2003, 0x2004, 0x2005, 0x2006, 0x2007,
                         0x2008, 0x2009, 0x200A, 0x2028, 0x2029, 0x202F, 0x205F, 0x3000}
  {
  }

  function TrimLeft(s: string): string {
    if s != [] && IsSpace(s[0]) then TrimLeft(s[1..]) else s
  }

  function TrimRight(s: string): string {
    if s != [] && IsSpace(s[|s| - 1]) then TrimRight(s[..|s| - 1]) else s
  }

  function TrimSpace(s: string): string { TrimRight(TrimLeft(s)) }

  predicate Letter(c: char) { 'A' <= c <= 'Z' || 'a' <= c <= 'z' }

  predicate DrivePrefix(s: string) {
    |s| >= 3 && Letter(s[0]) && s[1] == ':' && s[2] == '/'
  }

  /** Normalize: project-relative, slash-separated and clean, or refused. */
  function Normalize(raw: string): Result<string> {
    var r := TrimDotSlash(TrimSpace(Slashes(raw)));
    if r == "" then Err("scope pattern is empty")
    else if r[0] == '/' || DrivePrefix(r) then Err("scope pattern must be project-relative")
    else
      var c := Clean(r);
      if c == "." || c == ".." || "../" <= c then Err("scope pattern escapes project root") else Ok(c)
  }

  lemma {:induction false} TrimLeftFree(c: char, s: string)
    requires Free(c, s)
    ensures Free(c, TrimLeft(s))
  {
    if s != [] && IsSpace(s[0]) {
      TrimLeftFree(c, s[1..]);
    }
  }

  lemma {:induction false} TrimRightFree(c: char, s: string)
    requires Free(c, s)
    ensures Free(c, TrimRight(s))
    decreases |s|
  {
    if s != [] && IsSpace(s[|s| - 1]) {
      TrimRightFree(c, s[..|s| - 1]);
    }
  }

  /** Segments of a normalised pattern or of a clean relative path. */
  predicate RelativeSegments(parts: seq<string>) {
    parts != [] && Canonical(false, parts)
  }

  /** What Normalize hands out: the joined form of at least one real segment. */
  lemma NormalizedShape(raw: string)
    requires Normalize(raw).Ok?
    ensures var n := Normalize(raw).value;
      RelativeSegments(Split(n)) && Clean(n) == n && Free('\\', n) && Candidate(n) == n && !Rooted(n) && n != ""
  {
    TrimmedFree(raw);
    var r := TrimDotSlash(TrimSpace(Slashes(raw)));
    RelativeClean(r);
    CleanIdempotent(r);
    CleanKeepsFree('\\', r);
    CandidateOfClean(r);
  }

  lemma TrimmedFree(raw: string)
    ensures Free('\\', TrimDotSlash(TrimSpace(Slashes(raw))))
  {
    SlashesFree(raw);
    TrimLeftFree('\\', Slashes(raw));
    TrimRightFree('\\', TrimLeft(Slashes(raw)));
  }

  /** A clean relative path other than "." is the joined form of real segments. */
  lemma RelativeClean(r: string)
    requires !Rooted(r) && Clean(r) != "."
    ensures RelativeSegments(Split(Clean(r))) && !Rooted(Clean(r)) && Clean(r) != ""
  {
    var kept := CleanSegments(false, [], Split(r));
    JoinSplit(r);
    CleanIsCanonical(false, [], Split(r));
    SplitJoin(kept);
    JoinFirst(kept);
  }

  /**
   Normalising twice is safe only for some results: a segment may begin or end in white space, or
   look like a drive letter, once the dots around it are gone. Exactly those results change or
   are refused the second time.
   */
  lemma RenormalizeExactly(raw: string)
    requires Normalize(raw).Ok?
    ensures var n := Normalize(raw).value;
      Normalize(n) == Ok(n) <==> TrimSpace(n) == n && !DrivePrefix(n)
  {
    NormalizedShape(raw);
    var n := Normalize(raw).value;
    SlashesId(n);
    var t := TrimSpace(n);
    if TrimSpace(n) == n {
      SplitDotSlash(n);
      NotEscaping(raw);
    } else if Normalize(n) == Ok(n) {
      TrimmedShorter(n);
      CleanNoLonger(TrimDotSlash(t));
    }
  }

  predicate Escapes(c: string) {
    c == "." || c == ".." || "../" <= c
  }

  /** What is left of a normal form after trimming is still a project-relative path. */
  predicate StaysRelative(n: string) {
    Relative(TrimDotSlash(TrimSpace(n)))
  }

  /** The guards of a pass, behind the trimming. */
  predicate Relative(r: string) {
    r != "" && !Rooted(r) && !DrivePrefix(r) && !Escapes(Clean(r))
  }

  /** A normal form normalises again exactly when what trimming leaves of it is still project-relative. */
  lemma RenormalizesIff(raw: string)
    requires Normalize(raw).Ok?
    ensures Normalize(Normalize(raw).value).Ok? <==> StaysRelative(Normalize(raw).value)
  {
    NormalizedShape(raw);
    SlashesId(Normalize(raw).value);
  }

  lemma SplitDotSlash(n: string)
    requires Clean(n) == n
    ensures TrimDotSlash(n) == n
  {
    CleanNoDotSlash(n);
  }

  lemma NotEscaping(raw: string)
    requires Normalize(raw).Ok?
    ensures var n := Normalize(raw).value; n != "." && n != ".." && !("../" <= n)
  {
  }

  lemma {:induction false} TrimLeftLength(s: string)
    ensures |TrimLeft(s)| <= |s| && (|TrimLeft(s)| == |s| ==> TrimLeft(s) == s)
  {
    if s != [] && IsSpace(s[0]) {
      TrimLeftLength(s[1..]);
    }
  }

  lemma {:induction false} TrimRightLength(s: string)
    ensures |TrimRight(s)| <= |s| && (|TrimRight(s)| == |s| ==> TrimRight(s) == s)
    decreases |s|
  {
    if s != [] && IsSpace(s[|s| - 1]) {
      TrimRightLength(s[..|s| - 1]);
    }
  }

  lemma TrimmedShorter(s: string)
    ensures TrimSpace(s) != s ==> |TrimSpace(s)| < |s|
  {
    TrimLeftLength(s);
    TrimRightLength(TrimLeft(s));
  }

  /** path.Clean never lengthens a non-empty path. */
  lemma CleanNoLonger(p: string)
    requires p != ""
    ensures |Clean(p)| <= |p|
  {
    var segs := Split(p);
    JoinSplit(p);
    if Rooted(p) {
      assert segs == [[]] + Split(p[1..]);
      assert segs[1..] == Split(p[1..]);
      CleanSegmentsLength(true, [], segs[1..]);
      JoinSplit(p[1..]);
    } else {
      CleanSegmentsLength(false, [], segs);
    }
  }

  /** Bytes of a list of segments, one separator each. */
  function Width(parts: seq<string>): nat
    decreases |parts|
  {
    if parts == [] then 0 else |parts[0]| + 1 + Width(parts[1..])
  }

  lemma {:induction false} JoinWidth(parts: seq<string>)
    ensures parts != [] ==> |Join(parts)| + 1 == Width(parts)
    decreases |parts|
  {
    if |parts| > 1 {
      JoinWidth(parts[1..]);
    } else if |parts| == 1 {
      assert Width(parts[1..]) == 0;
    }
  }

  lemma {:induction false} WidthConcat(a: seq<string>, b: seq<string>)
    ensures Width(a + b) == Width(a) + Width(b)
    decreases |a|
  {
    if a == [] {
      assert a + b == b;
    } else {
      assert (a + b)[1..] == a[1..] + b;
      WidthConcat(a[1..], b);
    }
  }

  lemma {:induction false} CleanStepWidth(rooted: bool, kept: seq<string>, seg: string)
    ensures Width(CleanStep(rooted, kept, seg)) <= Width(kept) + |seg| + 1
  {
    WidthConcat(kept, [seg]);
    assert Width([seg]) == |seg| + 1;
    if kept != [] {
      var front := kept[..|kept| - 1];
      assert kept == front + [kept[|kept| - 1]];
      WidthConcat(front, [kept[|kept| - 1]]);
    }
  }

  lemma {:induction false} CleanSegmentsWidth(rooted: bool, kept: seq<string>, segs: seq<string>)
    ensures Width(CleanSegments(rooted, kept, segs)) <= Width(kept) + Width(segs)
    decreases |segs|
  {
    if segs != [] {
      CleanStepWidth(rooted, kept, segs[0]);
      CleanSegmentsWidth(rooted, CleanStep(rooted, kept, segs[0]), segs[1..]);
    }
  }

  lemma {:induction false} CleanSegmentsLength(rooted: bool, kept: seq<string>, segs: seq<string>)
    requires kept == [] && segs != []
    ensures |Join(CleanSegments(rooted, kept, segs))| <= |Join(segs)|
  {
    CleanSegmentsWidth(rooted, kept, segs);
    JoinWidth(segs);
    JoinWidth(CleanSegments(rooted, kept, segs));
  }

  lemma SpaceSegmentClean()
    ensures Clean(" /a") == " /a"
  {
    assert " /a" == " " + ['/'] + "a";
    SplitConcat(" ", "a");
    SplitFree("a");
    var kept := [" "] + ["a"];
    assert [] + kept == kept;
    CleanKeepsCanonical(false, [], kept);
    JoinConcat([" "], ["a"]);
  }

  lemma LeadingSpace()
    ensures TrimSpace(" /a") == "/a"
  {
    assert " /a"[1..] == "/a";
    assert TrimLeft("/a") == "/a" && TrimRight("/a") == "/a";
  }

  /** Concretely: a pattern accepted at dispatch can be refused when it is normalised again. */
  lemma RenormalizeCanFail()
    ensures Normalize("./ /a") == Ok(" /a") && Normalize(" /a").Err?
  {
    var raw, n := "./ /a", " /a";
    SlashesId(raw);
    SlashesId(n);
    assert TrimLeft(raw) == raw && TrimRight(raw) == raw;
    assert TrimDotSlash(raw) == n;
    SpaceSegmentClean();
    LeadingSpace();
  }

  // ----- what a second pass makes of the segments -----

  lemma {:induction false} TrimLeftSlash(a: string, b: string)
    ensures TrimLeft(a + ['/'] + b) == TrimLeft(a) + ['/'] + b
  {
    var s := a + ['/'] + b;
    if a != [] {
      assert s[0] == a[0] && s[1..] == a[1..] + ['/'] + b;
      if IsSpace(a[0]) {
        TrimLeftSlash(a[1..], b);
      }
    }
  }

  lemma {:induction false} TrimRightSlash(a: string, b: string)
    ensures TrimRight(a + ['/'] + b) == a + ['/'] + TrimRight(b)
    decreases |b|
  {
    var s := a + ['/'] + b;
    if b != [] {
      var m := |b| - 1;
      assert s[|s| - 1] == b[m] && s[..|s| - 1] == a + ['/'] + b[..m];
      if IsSpace(b[m]) {
        TrimRightSlash(a, b[..m]);
      }
    } else {
      assert s[|s| - 1] == '/';
    }
  }

  /** Trimming a joined path trims its first segment on the left and its last on the right. */
  function TrimEnds(parts: seq<string>): seq<string>
    requires |parts| >= 2
  {
    [TrimLeft(parts[0])] + parts[1..|parts| - 1] + [TrimRight(parts[|parts| - 1])]
  }

  lemma {:induction false} TrimLeftJoined(parts: seq<string>)
    requires |parts| >= 2
    ensures TrimLeft(Join(parts)) == Join([TrimLeft(parts[0])] + parts[1..])
  {
    TrimLeftSlash(parts[0], Join(parts[1..]));
    assert ([TrimLeft(parts[0])] + parts[1..])[1..] == parts[1..];
  }

  lemma {:induction false} TrimRightJoined(front: seq<string>, last: string)
    requires front != []
    ensures TrimRight(Join(front + [last])) == Join(front + [TrimRight(last)])
  {
    JoinConcat(front, [last]);
    TrimRightSlash(Join(front), last);
    JoinConcat(front, [TrimRight(last)]);
  }

  lemma {:induction false} TrimJoined(parts: seq<string>)
    requires |parts| >= 2
    ensures TrimSpace(Join(parts)) == Join(TrimEnds(parts))
  {
    TrimLeftJoined(parts);
    LastApart(TrimLeft(parts[0]), parts);
    TrimRightJoined([TrimLeft(parts[0])] + parts[1..|parts| - 1], parts[|parts| - 1]);
  }

  lemma LastApart(h: string, parts: seq<string>)
    requires |parts| >= 2
    ensures [h] + parts[1..] == [h] + parts[1..|parts| - 1] + [parts[|parts| - 1]]
  {
  }

  lemma {:induction false} CleanSnoc(kept: seq<string>, segs: seq<string>, last: string)
    ensures CleanSegments(false, kept, segs + [last]) == CleanStep(false, CleanSegments(false, kept, segs), last)
    decreases |segs|
  {
    if segs == [] {
      assert segs + [last] == [last] && [last][1..] == [];
      assert CleanSegments(false, CleanStep(false, kept, last), []) == CleanStep(false, kept, last);
    } else {
      assert (segs + [last])[0] == segs[0] && (segs + [last])[1..] == segs[1..] + [last];
      CleanSnoc(CleanStep(false, kept, segs[0]), segs[1..], last);
    }
  }

  /** Segments none of which goes up. */
  predicate Downward(segs: seq<string>) {
    forall i :: 0 <= i < |segs| ==> RealSegment(segs[i]) && segs[i] != ".."
  }

  lemma {:induction false} DownwardIsCanonical(segs: seq<string>)
    requires Downward(segs)
    ensures Canonical(false, segs) && CleanSegments(false, [], segs) == segs
  {
    assert [] + segs == segs;
    CleanKeepsCanonical(false, [], segs);
  }

  /** What is left of downward segments behind which a last one, of any kind, is cleaned. */
  lemma {:induction false} CleanTail(front: seq<string>, last: string)
    requires Downward(front) && SlashFree(last) && front + [last] != [""]
    ensures !Rooted(Join(front + [last])) ==>
              Clean(Join(front + [last])) == Rebuild(false, CleanStep(false, front, last))
  {
    var segs := front + [last];
    assert AllSlashFree(segs);
    SplitJoin(segs);
    DownwardIsCanonical(front);
    CleanSnoc([], front, last);
  }

  lemma DownwardStays(kept: seq<string>)
    requires Downward(kept)
    ensures Escapes(Rebuild(false, kept)) <==> kept == []
  {
    if kept != [] {
      SplitJoin(kept);
      NotDots(Join(kept));
    }
  }

  lemma {:induction false} NotDots(c: string)
    ensures c == "." ==> Split(c) == ["."]
    ensures c == ".." || "../" <= c ==> Split(c)[0] == ".."
  {
    SplitFree(".");
    SplitFree("..");
    if "../" <= c {
      assert c == ".." + ['/'] + c[3..];
      SplitConcat("..", c[3..]);
    }
  }

  predicate IsDrive(s: string) {
    |s| == 2 && Letter(s[0]) && s[1] == ':'
  }

  predicate Dots(s: string) {
    s == "." || s == ".."
  }

  /** How many segments the last one leaves more, or takes away, when the path is cleaned. */
  function Adds(last: string): int {
    if last == "" || last == "." then 0 else if last == ".." then -1 else 1
  }

  /**
   What a second pass asks of the segments of a normal form: white space at the outer ends goes, and what
   is left must not start at the root, above the project or at a drive, and must leave something.
   */
  predicate SegmentsStay(parts: seq<string>)
    requires parts != []
  {
    if |parts| == 1 then
      var t := TrimSpace(parts[0]);
      t != "" && !Dots(t)
    else
      var first, last := TrimLeft(parts[0]), TrimRight(parts[|parts| - 1]);
      && first != "" && first != ".."
      && !(if first == "." then |parts| >= 3 && IsDrive(parts[1]) else IsDrive(first))
      && (if first == "." then 0 else 1) + |parts| - 2 + Adds(last) >= 1
  }

  lemma SingleStays(n: string)
    requires SlashFree(n)
    ensures StaysRelative(n) <==> TrimSpace(n) != "" && !Dots(TrimSpace(n))
  {
    var t := TrimSpace(n);
    TrimLeftFree('/', n);
    TrimRightFree('/', TrimLeft(n));
    NoSlashNoPrefix(t);
    LoneStays(t);
  }

  lemma NoSlashNoPrefix(t: string)
    requires SlashFree(t)
    ensures TrimDotSlash(t) == t && !DrivePrefix(t)
  {
    assert |t| >= 2 ==> t[1] in t;
    assert |t| >= 3 ==> t[2] in t;
  }

  lemma {:induction false} RootedRefused(parts: seq<string>)
    requires |parts| >= 2 && TrimLeft(parts[0]) == ""
    ensures !StaysRelative(Join(parts))
  {
    TrimJoined(parts);
    JoinHeadRest(TrimEnds(parts));
    assert Join(TrimEnds(parts))[0] == '/';
  }

  lemma {:induction false} JoinHeadRest(parts: seq<string>)
    requires |parts| >= 2
    ensures Join(parts) == parts[0] + ['/'] + Join(parts[1..])
  {
  }

  lemma {:induction false} UpStays(kept: seq<string>, segs: seq<string>)
    requires kept != [] && kept[0] == ".."
    ensures CleanSegments(false, kept, segs) != [] && CleanSegments(false, kept, segs)[0] == ".."
    decreases |segs|
  {
    if segs != [] {
      UpStays(CleanStep(false, kept, segs[0]), segs[1..]);
    }
  }

  lemma {:induction false} UpEscapes(segs: seq<string>)
    requires |segs| >= 2 && segs[0] == ".." && AllSlashFree(segs)
    ensures Escapes(Clean(Join(segs))) && !Rooted(Join(segs)) && TrimDotSlash(Join(segs)) == Join(segs)
  {
    SplitJoin(segs);
    JoinFirst(segs);
    DotSlashFirst(Join(segs));
    UpStays([".."], segs[1..]);
    var kept := CleanSegments(false, [".."], segs[1..]);
    assert CleanStep(false, [], "..") == [".."];
    assert CleanSegments(false, [], segs) == kept;
    StartsUp(kept);
  }

  lemma {:induction false} StartsUp(kept: seq<string>)
    requires kept != [] && kept[0] == ".."
    ensures Escapes(Join(kept))
  {
    if |kept| >= 2 {
      JoinHeadRest(kept);
      assert ".." + ['/'] == "../";
    }
  }

  /** What is left when "./" in front is dropped. */
  function Inner(ends: seq<string>): seq<string>
    requires |ends| >= 2
  {
    if ends[0] == "." then ends[1..] else ends
  }

  lemma {:induction false} TrimDotJoined(ends: seq<string>)
    requires |ends| >= 2 && AllSlashFree(ends) && ends[0] != ""
    ensures TrimDotSlash(Join(ends)) == Join(Inner(ends))
  {
    JoinHeadRest(ends);
    SplitJoin(ends);
    DotSlashFirst(Join(ends));
    if ends[0] == "." {
      assert Join(ends) == "./" + Join(ends[1..]);
    }
  }

  lemma {:induction false} DriveJoined(segs: seq<string>)
    requires segs != [] && AllSlashFree(segs)
    ensures DrivePrefix(Join(segs)) <==> |segs| >= 2 && IsDrive(segs[0])
  {
    var r := Join(segs);
    SplitJoin(segs);
    if |segs| == 1 {
      assert |r| >= 3 ==> r[2] in r;
    } else {
      JoinHeadRest(segs);
      if DrivePrefix(r) {
        DriveSplits(r);
      }
    }
  }

  lemma {:induction false} DriveSplits(r: string)
    requires DrivePrefix(r)
    ensures Split(r)[0] == r[..2] && IsDrive(r[..2])
  {
    assert r == r[..2] + ['/'] + r[3..];
    SplitConcat(r[..2], r[3..]);
  }

  /** The pass behind the first segment: only what the last one makes of it counts. */
  lemma {:induction false} InnerStays(front: seq<string>, last: string)
    requires Downward(front) && SlashFree(last)
    ensures var r := Join(front + [last]);
      (r != "" && !Rooted(r) && !Escapes(Clean(r))) <==> |front| + Adds(last) >= 1
  {
    var r := Join(front + [last]);
    if front == [] {
      assert front + [last] == [last];
      LoneStays(last);
    } else {
      JoinFirst(front + [last]);
      assert RealSegment(front[0]);
      CleanTail(front, last);
      StepStays(front, last);
    }
  }

  lemma LoneStays(t: string)
    requires SlashFree(t)
    ensures (t != "" && !Rooted(t) && !Escapes(Clean(t))) <==> Adds(t) >= 1
  {
    SplitFree(t);
    var one: seq<string> := [t];
    assert one[1..] == [];
    assert CleanSegments(false, [], one) == CleanSegments(false, CleanStep(false, [], t), []);
    if t != "" {
      assert t[0] != '/';
    }
  }

  lemma StepStays(front: seq<string>, last: string)
    requires Downward(front) && front != [] && SlashFree(last)
    ensures !Escapes(Rebuild(false, CleanStep(false, front, last))) <==> |front| + Adds(last) >= 1
  {
    var kept := CleanStep(false, front, last);
    assert front[|front| - 1] != "..";
    assert Downward(kept);
    DownwardStays(kept);
  }

  predicate MiddleStays(first: string, middle: seq<string>, last: string) {
    && !(if first == "." then middle != [] && IsDrive(middle[0]) else IsDrive(first))
    && (if first == "." then 0 else 1) + |middle| + Adds(last) >= 1
  }

  lemma {:induction false} SegmentsRelative(front: seq<string>, last: string)
    requires Downward(front) && SlashFree(last)
    ensures Relative(Join(front + [last])) <==> !(front != [] && IsDrive(front[0])) && |front| + Adds(last) >= 1
  {
    InnerStays(front, last);
    DriveJoined(front + [last]);
  }

  lemma {:induction false} DottedStays(middle: seq<string>, last: string)
    requires Downward(middle) && SlashFree(last)
    ensures Relative(TrimDotSlash(Join(["."] + middle + [last]))) <==> MiddleStays(".", middle, last)
  {
    var ends := ["."] + middle + [last];
    TrimDotJoined(ends);
    assert Inner(ends) == middle + [last];
    SegmentsRelative(middle, last);
  }

  lemma {:induction false} PlainStays(first: string, middle: seq<string>, last: string)
    requires Downward([first] + middle) && SlashFree(last)
    ensures Relative(TrimDotSlash(Join([first] + middle + [last]))) <==> MiddleStays(first, middle, last)
  {
    var ends := [first] + middle + [last];
    assert RealSegment(([first] + middle)[0]);
    TrimDotJoined(ends);
    assert Inner(ends) == ends;
    SegmentsRelative([first] + middle, last);
  }

  lemma {:induction false} RestStays(first: string, middle: seq<string>, last: string)
    requires first != "" && first != ".." && SlashFree(first) && Downward(middle) && SlashFree(last)
    ensures Relative(TrimDotSlash(Join([first] + middle + [last]))) <==> MiddleStays(first, middle, last)
  {
    if first == "." {
      DottedStays(middle, last);
    } else {
      PlainStays(first, middle, last);
    }
  }

  lemma {:induction false} SeveralStay(parts: seq<string>)
    requires |parts| >= 2 && Downward(parts)
    ensures StaysRelative(Join(parts)) <==> SegmentsStay(parts)
  {
    var ends := TrimEnds(parts);
    TrimJoined(parts);
    EndsSlashFree(parts);
    if ends[0] == "" {
      RootedRefused(parts);
    } else if ends[0] == ".." {
      UpEscapes(ends);
    } else {
      SeveralRest(parts);
    }
  }

  lemma {:induction false} SeveralRest(parts: seq<string>)
    requires |parts| >= 2 && Downward(parts) && TrimLeft(parts[0]) != "" && TrimLeft(parts[0]) != ".."
    ensures StaysRelative(Join(parts)) <==> SegmentsStay(parts)
  {
    var k := |parts| - 1;
    TrimJoined(parts);
    TrimLeftFree('/', parts[0]);
    TrimRightFree('/', parts[k]);
    MiddleDecides(parts);
    RestStays(TrimLeft(parts[0]), parts[1..k], TrimRight(parts[k]));
  }

  lemma MiddleDecides(parts: seq<string>)
    requires |parts| >= 2 && Downward(parts) && TrimLeft(parts[0]) != "" && TrimLeft(parts[0]) != ".."
    ensures var k := |parts| - 1;
      && (SegmentsStay(parts) <==> MiddleStays(TrimLeft(parts[0]), parts[1..k], TrimRight(parts[k])))
      && Downward(parts[1..k]) && SlashFree(parts[0]) && SlashFree(parts[k])
  {
    assert RealSegment(parts[0]) && RealSegment(parts[|parts| - 1]);
  }

  lemma EndsSlashFree(parts: seq<string>)
    requires |parts| >= 2 && Downward(parts)
    ensures AllSlashFree(TrimEnds(parts))
  {
    assert RealSegment(parts[0]) && RealSegment(parts[|parts| - 1]);
    TrimLeftFree('/', parts[0]);
    TrimRightFree('/', parts[|parts| - 1]);
  }

  /** The segments of a normal form go down. */
  lemma NormalGoesDown(raw: string)
    requires Normalize(raw).Ok?
    ensures Downward(Split(Normalize(raw).value))
  {
    var n := Normalize(raw).value;
    NormalizedShape(raw);
    NotEscaping(raw);
    JoinSplit(n);
    FirstNotUp(Split(n));
    NoneUp(Split(n), |Split(n)|);
  }

  lemma {:induction false} FirstNotUp(parts: seq<string>)
    requires parts != [] && !Escapes(Join(parts))
    ensures parts[0] != ".."
  {
    if parts[0] == ".." {
      StartsUp(parts);
    }
  }

  lemma {:induction false} NoneUp(parts: seq<string>, i: nat)
    requires RelativeSegments(parts) && parts[0] != ".." && i <= |parts|
    ensures forall k :: 0 <= k < i ==> parts[k] != ".."
  {
    if i > 0 {
      NoneUp(parts, i - 1);
      assert i > 1 ==> parts[(i - 1) - 1] != "..";
    }
  }

  /** A normal form normalises again exactly under a condition on its first and last segments and the one behind a lone dot. */
  lemma RenormalizesBySegments(raw: string)
    requires Normalize(raw).Ok?
    ensures Normalize(Normalize(raw).value).Ok? <==> SegmentsStay(Split(Normalize(raw).value))
  {
    var n := Normalize(raw).value;
    RenormalizesIff(raw);
    NormalGoesDown(raw);
    JoinSplit(n);
    if |Split(n)| == 1 {
      assert Join(Split(n)) == Split(n)[0];
      SingleStays(n);
    } else {
      SeveralStay(Split(n));
    }
  }
}
