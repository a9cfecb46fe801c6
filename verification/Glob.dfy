/**
 Scope globs: the regular expression emitted for a glob, what that expression accepts, and the
 segment-by-segment reading users have in mind (internal/scope/scope.go:161-193).
 */
module Glob {
  import opened Text

  // ----- regular expressions -----

  datatype Re = Eps | Lit(c: char) | NotSlash | Dot | Star(r: Re) | Opt(r: Re) | Cat(a: Re, b: Re)

  /** Whole-string acceptance. Dot does not match a newline; [^/] does. */
  predicate Accepts(r: Re, s: string)
    decreases r, |s|
  {
    match r
    case Eps => s == ""
    case Lit(c) => s == [c]
    case NotSlash => |s| == 1 && s[0] != '/'
    case Dot => |s| == 1 && s[0] != '\n'
    case Star(q) => s == "" || exists k | 1 <= k <= |s| :: Accepts(q, s[..k]) && Accepts(r, s[k..])
    case Opt(q) => s == "" || Accepts(q, s)
    case Cat(a, b) => exists k | 0 <= k <= |s| :: Accepts(a, s[..k]) && Accepts(b, s[k..])
  }

  /** Concatenation of items between the anchors ^ and $. */
  predicate AcceptsAll(items: seq<Re>, s: string)
    decreases |items|
  {
    if items == [] then s == ""
    else exists k | 0 <= k <= |s| :: Accepts(items[0], s[..k]) && AcceptsAll(items[1..], s[k..])
  }

  // ----- translation of globs -----

  const DIRS: Re := Opt(Cat(Star(Dot), Lit('/')))

  /** The pieces globRegex emits for a glob, as regular expressions. */
  function Tokens(g: string): seq<Re>
    decreases |g|
  {
    if g == "" then []
    else if g[0] == '*' then
      if |g| >= 2 && g[1] == '*' then
        if |g| >= 3 && g[2] == '/' then [DIRS] + Tokens(g[3..]) else [Star(Dot)] + Tokens(g[2..])
      else [Star(NotSlash)] + Tokens(g[1..])
    else if g[0] == '?' then [NotSlash] + Tokens(g[1..])
    else [Lit(g[0])] + Tokens(g[1..])
  }

  predicate Escaped(c: char) {
    c in ".+()|^${}[]\\"
  }

  /** Text written for one glob character outside the star cases. */
  function CharText(c: char): string {
    if c == '?' then "[^/]" else if Escaped(c) then ['\\', c] else [c]
  }

  /** The text between ^ and $. */
  function Body(g: string): string
    decreases |g|
  {
    if g == "" then ""
    else if g[0] == '*' then
      if |g| >= 2 && g[1] == '*' then
        if |g| >= 3 && g[2] == '/' then "(?:.*/)?" + Body(g[3..]) else ".*" + Body(g[2..])
      else "[^/]*" + Body(g[1..])
    else CharText(g[0]) + Body(g[1..])
  }

  /** globRegex: one pass over the glob, appending to a builder. */
  method GlobRegex(glob: string) returns (re: string)
    ensures re == "^" + Body(glob) + "$"
  {
    re := "^";
    var i := 0;
    while i < |glob|
      invariant 0 <= i <= |glob|
      invariant re + Body(glob[i..]) == "^" + Body(glob)
      decreases |glob| - i
    {
      ghost var rest := glob[i..];
      if glob[i] == '*' {
        if i + 1 < |glob| && glob[i + 1] == '*' {
          if i + 2 < |glob| && glob[i + 2] == '/' {
            assert rest[3..] == glob[i + 3..];
            Assoc(re, "(?:.*/)?", Body(rest[3..]));
            re := re + "(?:.*/)?";
            i := i + 3;
          } else {
            assert rest[2..] == glob[i + 2..];
            Assoc(re, ".*", Body(rest[2..]));
            re := re + ".*";
            i := i + 2;
          }
        } else {
          assert rest[1..] == glob[i + 1..];
          Assoc(re, "[^/]*", Body(rest[1..]));
          re := re + "[^/]*";
          i := i + 1;
        }
      } else {
        assert rest[1..] == glob[i + 1..];
        Assoc(re, CharText(glob[i]), Body(rest[1..]));
        re := re + CharText(glob[i]);
        i := i + 1;
      }
    }
    assert glob[i..] == "";
    assert re + "" == re;
    re := re + "$";
  }

  // ----- reading the emitted text back -----

  predicate Meta(c: char) {
    c in ".+*?()|^${}[]\\"
  }

  function CatOf(items: seq<Re>): Re
    decreases |items|
  {
    if items == [] then Eps else if |items| == 1 then items[0] else Cat(items[0], CatOf(items[1..]))
  }

  /** A postfix star or question mark applies to the atom before it. */
  function Postfix(atom: Re, s: string): (Re, string) {
    if s != "" && s[0] == '*' then (Star(atom), s[1..])
    else if s != "" && s[0] == '?' then (Opt(atom), s[1..])
    else (atom, s)
  }

  /** One atom of Go's regular expression syntax, for the constructs globs can produce. */
  function ParseAtom(s: string): (r: Option<(Re, string)>)
    requires s != ""
    ensures r.Some? ==> |r.value.1| < |s|
    decreases |s|, 0
  {
    if s[0] == '\\' then (if |s| >= 2 then Some((Lit(s[1]), s[2..])) else None)
    else if "[^/]" <= s then Some((NotSlash, s[4..]))
    else if "(?:" <= s then
      match ParseItems(s[3..])
      case None => None
      case Some((items, rest)) =>
        if rest != "" && rest[0] == ')' then Some((CatOf(items), rest[1..])) else None
    else if s[0] == '.' then Some((Dot, s[1..]))
    else if Meta(s[0]) then None
    else Some((Lit(s[0]), s[1..]))
  }

  /** Items up to a closing parenthesis or the end. */
  function ParseItems(s: string): (r: Option<(seq<Re>, string)>)
    ensures r.Some? ==> |r.value.1| <= |s|
    decreases |s|, 1
  {
    if s == "" || s[0] == ')' then Some(([], s))
    else
      match ParseAtom(s)
      case None => None
      case Some((atom, rest)) =>
        var (item, after) := Postfix(atom, rest);
        match ParseItems(after)
        case None => None
        case Some((items, last)) => Some(([item] + items, last))
  }

  /** regexp.Compile on an anchored expression. */
  function CompileRegex(text: string): Option<seq<Re>> {
    if |text| >= 2 && text[0] == '^' && text[|text| - 1] == '$' then
      match ParseItems(text[1..|text| - 1])
      case Some((items, rest)) => if rest == "" then Some(items) else None
      case None => None
    else None
  }

  /** No emitted piece can be taken for a postfix operator or a closing parenthesis. */
  predicate StartsPiece(s: string) {
    s == "" || (s[0] != '*' && s[0] != '?' && s[0] != ')')
  }

  lemma {:induction false} BodyStartsPiece(g: string)
    ensures StartsPiece(Body(g))
  {
  }

  // The group of "(?:.*/)?" in front of any text.
  lemma {:induction false} ParseGroup(w: string)
    ensures ParseItems(".*/)" + w) == Some(([Star(Dot), Lit('/')], ")" + w))
  {
    var slash, close := "/)" + w, ")" + w;
    assert slash[1..] == close;
    assert ParseItems(close) == Some(([], close));
    assert ParseAtom(slash) == Some((Lit('/'), close));
    assert ParseItems(slash) == Some(([Lit('/')] + [], close));
    ParseStarred(".", Dot, slash);
    assert "." + "*" + slash == ".*/)" + w;
    assert [Star(Dot)] + ([Lit('/')] + []) == [Star(Dot), Lit('/')];
  }

  lemma {:induction false} GroupAtom(w: string)
    ensures ParseAtom("(?:.*/)" + w) == Some((Cat(Star(Dot), Lit('/')), w))
  {
    var s := "(?:.*/)" + w;
    ParseGroup(w);
    assert s[3..] == ".*/)" + w;
    assert (")" + w)[1..] == w;
    assert [Star(Dot), Lit('/')][1..] == [Lit('/')];
    assert s[0] == '(' && "(?:" <= s;
  }

  lemma {:induction false} ParseDirs(w: string)
    requires StartsPiece(w)
    ensures ParseItems(w).Some? ==>
      ParseItems("(?:.*/)?" + w) == Some(([DIRS] + ParseItems(w).value.0, ParseItems(w).value.1))
  {
    var opt := "?" + w;
    GroupAtom(opt);
    assert "(?:.*/)?" + w == "(?:.*/)" + opt;
    assert opt[1..] == w;
    OptionalItem("(?:.*/)" + opt, Cat(Star(Dot), Lit('/')), opt);
  }

  /** An atom followed by a question mark. */
  lemma {:induction false} OptionalItem(s: string, atom: Re, opt: string)
    requires s != "" && s[0] != ')' && opt != "" && opt[0] == '?' && ParseAtom(s) == Some((atom, opt))
    ensures ParseItems(opt[1..]).Some? ==>
      ParseItems(s) == Some(([Opt(atom)] + ParseItems(opt[1..]).value.0, ParseItems(opt[1..]).value.1))
  {
  }

  lemma {:induction false} ParseStarred(text: string, atom: Re, w: string)
    requires StartsPiece(w) && ((text == "." && atom == Dot) || (text == "[^/]" && atom == NotSlash))
    ensures ParseItems(w).Some? ==>
      ParseItems(text + "*" + w) == Some(([Star(atom)] + ParseItems(w).value.0, ParseItems(w).value.1))
  {
    var s := text + "*" + w;
    assert s[|text|..] == "*" + w && ("*" + w)[1..] == w;
    assert ParseAtom(s) == Some((atom, "*" + w));
  }

  lemma {:induction false} CharAtom(c: char, w: string)
    requires c != '*'
    ensures var s := CharText(c) + w;
      s != "" && s[0] != ')' && ParseAtom(s) == Some((if c == '?' then NotSlash else Lit(c), w))
  {
    assert (CharText(c) + w)[|CharText(c)|..] == w;
  }

  lemma {:induction false} PlainItem(s: string, atom: Re, w: string)
    requires s != "" && s[0] != ')' && ParseAtom(s) == Some((atom, w)) && StartsPiece(w)
    ensures ParseItems(w).Some? ==> ParseItems(s) == Some(([atom] + ParseItems(w).value.0, ParseItems(w).value.1))
  {
    assert Postfix(atom, w) == (atom, w);
  }

  lemma {:induction false} ParseChar(c: char, w: string)
    requires StartsPiece(w) && c != '*'
    ensures ParseItems(w).Some? ==>
      ParseItems(CharText(c) + w) ==
        Some(([if c == '?' then NotSlash else Lit(c)] + ParseItems(w).value.0, ParseItems(w).value.1))
  {
    CharAtom(c, w);
    PlainItem(CharText(c) + w, if c == '?' then NotSlash else Lit(c), w);
  }

  lemma {:induction false} ParseBody(g: string)
    ensures ParseItems(Body(g)) == Some((Tokens(g), ""))
    decreases |g|
  {
    if g == "" {
    } else if g[0] == '*' {
      if |g| >= 2 && g[1] == '*' {
        if |g| >= 3 && g[2] == '/' {
          ParseBody(g[3..]);
          BodyStartsPiece(g[3..]);
          ParseDirs(Body(g[3..]));
        } else {
          ParseBody(g[2..]);
          BodyStartsPiece(g[2..]);
          ParseStarred(".", Dot, Body(g[2..]));
          assert "." + "*" == ".*";
        }
      } else {
        ParseBody(g[1..]);
        BodyStartsPiece(g[1..]);
        ParseStarred("[^/]", NotSlash, Body(g[1..]));
        assert "[^/]" + "*" == "[^/]*";
      }
    } else {
      ParseBody(g[1..]);
      BodyStartsPiece(g[1..]);
      ParseChar(g[0], Body(g[1..]));
    }
  }

  /**
   The escaping is right for every glob: the emitted text always compiles, and it compiles to
   exactly the intended pieces, so no glob character is ever read as a regexp operator.
   */
  lemma {:induction false} EmittedRegexCompiles(g: string)
    ensures CompileRegex("^" + Body(g) + "$") == Some(Tokens(g))
  {
    var text := "^" + Body(g) + "$";
    assert text[1..|text| - 1] == Body(g);
    ParseBody(g);
  }

  // ----- what the emitted expression accepts -----

  predicate NewlineFree(s: string) {
    '\n' !in s
  }

  /** Direct recursive reading of the emitted expression. */
  predicate GlobMatch(g: string, s: string)
    decreases |g|
  {
    if g == "" then s == ""
    else if g[0] == '*' then
      if |g| >= 2 && g[1] == '*' then
        if |g| >= 3 && g[2] == '/' then
          || GlobMatch(g[3..], s)
          || exists k | 1 <= k <= |s| :: s[k - 1] == '/' && NewlineFree(s[..k]) && GlobMatch(g[3..], s[k..])
        else exists k | 0 <= k <= |s| :: NewlineFree(s[..k]) && GlobMatch(g[2..], s[k..])
      else exists k | 0 <= k <= |s| :: SlashFree(s[..k]) && GlobMatch(g[1..], s[k..])
    else if g[0] == '?' then s != "" && s[0] != '/' && GlobMatch(g[1..], s[1..])
    else s != "" && s[0] == g[0] && GlobMatch(g[1..], s[1..])
  }

  lemma {:induction false} StarDotAccepts(s: string)
    ensures Accepts(Star(Dot), s) <==> NewlineFree(s)
    decreases |s|
  {
    if s != "" {
      if Accepts(Star(Dot), s) {
        var k :| 1 <= k <= |s| && Accepts(Dot, s[..k]) && Accepts(Star(Dot), s[k..]);
        StarDotAccepts(s[k..]);
        assert s == s[..k] + s[k..];
      }
      if NewlineFree(s) {
        StarDotAccepts(s[1..]);
        assert Accepts(Dot, s[..1]) && Accepts(Star(Dot), s[1..]);
      }
    }
  }

  lemma {:induction false} StarNotSlashAccepts(s: string)
    ensures Accepts(Star(NotSlash), s) <==> SlashFree(s)
    decreases |s|
  {
    if s != "" {
      if Accepts(Star(NotSlash), s) {
        var k :| 1 <= k <= |s| && Accepts(NotSlash, s[..k]) && Accepts(Star(NotSlash), s[k..]);
        StarNotSlashAccepts(s[k..]);
        assert s == s[..k] + s[k..];
      }
      if SlashFree(s) {
        StarNotSlashAccepts(s[1..]);
        assert Accepts(NotSlash, s[..1]) && Accepts(Star(NotSlash), s[1..]);
      }
    }
  }

  lemma {:induction false} DirAccepted(s: string)
    requires s != "" && s[|s| - 1] == '/' && NewlineFree(s)
    ensures Accepts(Cat(Star(Dot), Lit('/')), s)
  {
    var k := |s| - 1;
    StarDotAccepts(s[..k]);
    assert s[k..] == ['/'];
    assert Accepts(Star(Dot), s[..k]) && Accepts(Lit('/'), s[k..]);
  }

  lemma {:induction false} AcceptedDir(s: string)
    requires Accepts(Cat(Star(Dot), Lit('/')), s)
    ensures s != "" && s[|s| - 1] == '/' && NewlineFree(s)
  {
    var k :| 0 <= k <= |s| && Accepts(Star(Dot), s[..k]) && Accepts(Lit('/'), s[k..]);
    StarDotAccepts(s[..k]);
    assert s == s[..k] + s[k..];
  }

  lemma {:induction false} DirsAccepts(s: string)
    ensures Accepts(DIRS, s) <==> s == "" || (s[|s| - 1] == '/' && NewlineFree(s))
  {
    if Accepts(Cat(Star(Dot), Lit('/')), s) {
      AcceptedDir(s);
    } else if s != "" && s[|s| - 1] == '/' && NewlineFree(s) {
      DirAccepted(s);
    }
  }

  lemma {:induction false} OneChar(r: Re, items: seq<Re>, s: string)
    requires r.Lit? || r.NotSlash?
    ensures AcceptsAll([r] + items, s) <==> s != "" && Accepts(r, s[..1]) && AcceptsAll(items, s[1..])
  {
    assert ([r] + items)[1..] == items;
  }

  lemma {:induction false} TokensAccept(g: string, s: string)
    ensures AcceptsAll(Tokens(g), s) <==> GlobMatch(g, s)
    decreases |g|
  {
    if g == "" {
    } else if g[0] == '*' {
      if |g| >= 2 && g[1] == '*' {
        if |g| >= 3 && g[2] == '/' {
          DirsToken(g, s);
        } else {
          assert Tokens(g)[1..] == Tokens(g[2..]);
          forall k | 0 <= k <= |s|
            ensures Accepts(Star(Dot), s[..k]) <==> NewlineFree(s[..k])
            ensures AcceptsAll(Tokens(g[2..]), s[k..]) <==> GlobMatch(g[2..], s[k..])
          {
            StarDotAccepts(s[..k]);
            TokensAccept(g[2..], s[k..]);
          }
        }
      } else {
        assert Tokens(g)[1..] == Tokens(g[1..]);
        forall k | 0 <= k <= |s|
          ensures Accepts(Star(NotSlash), s[..k]) <==> SlashFree(s[..k])
          ensures AcceptsAll(Tokens(g[1..]), s[k..]) <==> GlobMatch(g[1..], s[k..])
        {
          StarNotSlashAccepts(s[..k]);
          TokensAccept(g[1..], s[k..]);
        }
      }
    } else {
      OneChar(Tokens(g)[0], Tokens(g[1..]), s);
      if s != "" {
        TokensAccept(g[1..], s[1..]);
      }
    }
  }

  lemma {:induction false} DirsToken(g: string, s: string)
    requires |g| >= 3 && g[0] == '*' && g[1] == '*' && g[2] == '/'
    ensures AcceptsAll(Tokens(g), s) <==> GlobMatch(g, s)
    decreases |g|, 0
  {
    assert Tokens(g)[1..] == Tokens(g[3..]) && Tokens(g)[0] == DIRS;
    forall k | 0 <= k <= |s|
      ensures Accepts(DIRS, s[..k]) <==> k == 0 || (s[k - 1] == '/' && NewlineFree(s[..k]))
      ensures AcceptsAll(Tokens(g[3..]), s[k..]) <==> GlobMatch(g[3..], s[k..])
    {
      DirsAccepts(s[..k]);
      TokensAccept(g[3..], s[k..]);
    }
    assert s[0..] == s && s[..0] == "";
    if GlobMatch(g[3..], s) {
      assert Accepts(DIRS, s[..0]) && AcceptsAll(Tokens(g[3..]), s[0..]);
    }
  }

  /** Matching through the compiled expression, as Pattern.Match does. */
  predicate RegexMatch(g: string, s: string) {
    match CompileRegex("^" + Body(g) + "$")
    case Some(items) => AcceptsAll(items, s)
    case None => false
  }

  lemma {:induction false} RegexMatchIsGlobMatch(g: string, s: string)
    ensures RegexMatch(g, s) <==> GlobMatch(g, s)
  {
    EmittedRegexCompiles(g);
    TokensAccept(g, s);
  }

  // ----- the reading by segments -----

  /** One segment: '*' takes any run of characters, '?' takes one. */
  predicate SegmentMatch(p: string, s: string)
    decreases |p|
  {
    if p == "" then s == ""
    else if p[0] == '*' then exists k | 0 <= k <= |s| :: SegmentMatch(p[1..], s[k..])
    else s != "" && (p[0] == '?' || p[0] == s[0]) && SegmentMatch(p[1..], s[1..])
  }

  /** "**" before other segments takes zero or more whole segments, at the end one or more. */
  predicate PathMatch(ps: seq<string>, qs: seq<string>)
    decreases |ps|
  {
    if ps == [] then qs == []
    else if ps[0] == "**" then
      if |ps| == 1 then |qs| >= 1 else exists k | 0 <= k <= |qs| :: PathMatch(ps[1..], qs[k..])
    else |qs| >= 1 && SegmentMatch(ps[0], qs[0]) && PathMatch(ps[1..], qs[1..])
  }

  predicate DoubleStarFree(p: string) {
    forall i :: 0 <= i < |p| - 1 ==> !(p[i] == '*' && p[i + 1] == '*')
  }

  /** A glob segment in which a double star only occurs alone. */
  predicate PlainSegment(p: string) {
    p != "" && SlashFree(p) && (p == "**" || DoubleStarFree(p))
  }

  predicate PlainGlob(ps: seq<string>) {
    ps != [] && forall i :: 0 <= i < |ps| ==> PlainSegment(ps[i])
  }

  predicate PathSegments(qs: seq<string>) {
    qs != [] && forall i :: 0 <= i < |qs| ==> qs[i] != "" && SlashFree(qs[i])
  }

  lemma {:induction false} NoSegmentsLeft(ps: seq<string>)
    ensures PathMatch(ps, []) <==> ps == []
    decreases |ps|
  {
    if |ps| > 1 && ps[0] == "**" {
      NoSegmentsLeft(ps[1..]);
    }
  }

  /** A segment without a double star never reaches past a slash. */
  lemma {:induction false} LastSegment(p: string, s: string)
    requires SlashFree(p) && DoubleStarFree(p)
    ensures GlobMatch(p, s) <==> SlashFree(s) && SegmentMatch(p, s)
    decreases |p|
  {
    if p != "" {
      assert DoubleStarFree(p[1..]);
      if p[0] == '*' {
        if GlobMatch(p, s) {
          var k :| 0 <= k <= |s| && SlashFree(s[..k]) && GlobMatch(p[1..], s[k..]);
          LastSegment(p[1..], s[k..]);
          assert s == s[..k] + s[k..];
          assert SegmentMatch(p[1..], s[k..]);
        }
        if SlashFree(s) && SegmentMatch(p, s) {
          var k :| 0 <= k <= |s| && SegmentMatch(p[1..], s[k..]);
          LastSegment(p[1..], s[k..]);
          assert SlashFree(s[..k]) && GlobMatch(p[1..], s[k..]);
        }
      } else if s != "" {
        LastSegment(p[1..], s[1..]);
        assert s == [s[0]] + s[1..];
      }
    }
  }

  /** The segment p, a slash and more glob, against the path a / rest. */
  lemma {:induction false} FirstSegment(p: string, g: string, a: string, rest: string)
    requires SlashFree(p) && DoubleStarFree(p) && SlashFree(a)
    ensures GlobMatch(p + ['/'] + g, a + ['/'] + rest) <==> SegmentMatch(p, a) && GlobMatch(g, rest)
    decreases |p|
  {
    var glob, s := p + ['/'] + g, a + ['/'] + rest;
    if p == "" {
      assert glob[1..] == g;
      if a == "" {
        assert s[1..] == rest;
      }
    } else {
      assert glob[1..] == p[1..] + ['/'] + g;
      assert DoubleStarFree(p[1..]);
      if p[0] == '*' {
        FirstSegmentStar(p, g, a, rest);
      } else if a != "" {
        assert s[1..] == a[1..] + ['/'] + rest;
        FirstSegment(p[1..], g, a[1..], rest);
      }
    }
  }

  /** A star that opens a segment without a double star is read as a single star. */
  lemma StarAlone(p: string, g: string)
    requires p != "" && p[0] == '*' && DoubleStarFree(p)
    ensures (p + ['/'] + g)[1] != '*'
  {
    if |p| >= 2 {
      assert p[1] != '*';
    }
  }

  lemma FreePrefix(s: string, k: nat, i: nat)
    requires k <= |s| && i < |s| && s[i] == '/'
    ensures SlashFree(s[..k]) ==> k <= i
  {
    assert i < k ==> s[i] in s[..k];
  }

  lemma {:induction false} FirstSegmentStar(p: string, g: string, a: string, rest: string)
    requires p != "" && p[0] == '*' && SlashFree(p) && DoubleStarFree(p) && SlashFree(a)
    ensures GlobMatch(p + ['/'] + g, a + ['/'] + rest) <==> SegmentMatch(p, a) && GlobMatch(g, rest)
    decreases |p|, 0
  {
    var s := a + ['/'] + rest;
    assert DoubleStarFree(p[1..]);
    StarUnfolds(p, g, s);
    forall k | 0 <= k <= |a|
      ensures GlobMatch(p[1..] + ['/'] + g, s[k..]) <==> SegmentMatch(p[1..], a[k..]) && GlobMatch(g, rest)
      ensures SlashFree(s[..k])
    {
      FirstSegment(p[1..], g, a[k..], rest);
      assert s[k..] == a[k..] + ['/'] + rest;
      assert s[..k] == a[..k];
    }
    assert s[|a|] == '/';
    forall k | 0 <= k <= |s|
      ensures SlashFree(s[..k]) ==> k <= |a|
    {
      FreePrefix(s, k, |a|);
    }
  }

  lemma {:induction false} StarUnfolds(p: string, g: string, s: string)
    requires p != "" && p[0] == '*' && DoubleStarFree(p)
    ensures GlobMatch(p + ['/'] + g, s) <==>
            exists k | 0 <= k <= |s| :: SlashFree(s[..k]) && GlobMatch(p[1..] + ['/'] + g, s[k..])
  {
    StarAlone(p, g);
    assert (p + ['/'] + g)[1..] == p[1..] + ['/'] + g;
  }

  /** A path without a slash cannot match a glob that needs one after its first segment. */
  lemma {:induction false} NeedsSlash(p: string, g: string, s: string)
    requires SlashFree(p) && DoubleStarFree(p) && SlashFree(s)
    ensures !GlobMatch(p + ['/'] + g, s)
    decreases |p|
  {
    var glob := p + ['/'] + g;
    if p == "" {
    } else {
      assert glob[1..] == p[1..] + ['/'] + g;
      assert DoubleStarFree(p[1..]);
      if p[0] == '*' {
        StarAlone(p, g);
        forall k | 0 <= k <= |s|
          ensures !GlobMatch(glob[1..], s[k..])
        {
          NeedsSlash(p[1..], g, s[k..]);
        }
      } else if s != "" {
        NeedsSlash(p[1..], g, s[1..]);
      }
    }
  }

  lemma {:induction false} JoinCons(qs: seq<string>)
    requires |qs| >= 2
    ensures Join(qs) == qs[0] + ['/'] + Join(qs[1..])
  {
  }

  lemma {:induction false} HeadHasNoSlash(qs: seq<string>)
    requires PathSegments(qs)
    ensures |qs[0]| <= |Join(qs)| && forall i :: 0 <= i < |qs[0]| ==> Join(qs)[i] != '/'
  {
    assert SlashFree(qs[0]);
    if |qs| > 1 {
      JoinCons(qs);
    }
  }

  /** Cutting a joined path behind any slash leaves a joined suffix of its segments. */
  lemma {:induction false} CutBehindSlash(qs: seq<string>, k: nat) returns (j: nat)
    requires PathSegments(qs) && 1 <= k <= |Join(qs)| && Join(qs)[k - 1] == '/'
    ensures 1 <= j < |qs| && Join(qs)[k..] == Join(qs[j..])
    decreases |qs|
  {
    var q, head := Join(qs), qs[0];
    assert SlashFree(head);
    HeadHasNoSlash(qs);
    if k == |head| + 1 {
      j := 1;
    } else {
      var rest, m := Join(qs[1..]), k - |head| - 1;
      assert q == head + ['/'] + rest;
      assert q[k - 1] == rest[m - 1];
      var i := CutBehindSlash(qs[1..], m);
      assert qs[1..][i..] == qs[i + 1..];
      assert q[k..] == rest[m..];
      j := i + 1;
    }
  }

  /** Every proper suffix of the segments starts behind a slash of the joined path. */
  lemma {:induction false} SuffixStartsBehindSlash(qs: seq<string>, j: nat) returns (k: nat)
    requires PathSegments(qs) && 1 <= j < |qs|
    ensures 1 <= k <= |Join(qs)| && Join(qs)[k - 1] == '/' && Join(qs)[k..] == Join(qs[j..])
    decreases |qs|
  {
    var q, head, rest := Join(qs), qs[0], Join(qs[1..]);
    assert q == head + ['/'] + rest;
    if j == 1 {
      k := |head| + 1;
    } else {
      var m := SuffixStartsBehindSlash(qs[1..], j - 1);
      assert qs[1..][j - 1..] == qs[j..];
      k := |head| + 1 + m;
      assert q[k - 1] == rest[m - 1];
      assert q[k..] == rest[m..];
    }
  }

  lemma {:induction false} DoubleStarSkips(g: string, qs: seq<string>)
    requires PathSegments(qs) && GlobMatch("**" + ['/'] + g, Join(qs))
    ensures exists j | 0 <= j < |qs| :: GlobMatch(g, Join(qs[j..]))
  {
    var glob, q := "**" + ['/'] + g, Join(qs);
    assert glob[3..] == g;
    if GlobMatch(g, q) {
      assert qs[0..] == qs;
    } else {
      var k :| 1 <= k <= |q| && q[k - 1] == '/' && NewlineFree(q[..k]) && GlobMatch(glob[3..], q[k..]);
      var j := CutBehindSlash(qs, k);
      assert GlobMatch(g, Join(qs[j..]));
    }
  }

  lemma {:induction false} DoubleStarTakes(g: string, qs: seq<string>, j: nat)
    requires PathSegments(qs) && NewlineFree(Join(qs)) && j < |qs| && GlobMatch(g, Join(qs[j..]))
    ensures GlobMatch("**" + ['/'] + g, Join(qs))
  {
    var glob, q := "**" + ['/'] + g, Join(qs);
    assert glob[3..] == g;
    if j == 0 {
      assert qs[0..] == qs;
    } else {
      var k := SuffixStartsBehindSlash(qs, j);
      assert NewlineFree(q[..k]) && GlobMatch(glob[3..], q[k..]);
    }
  }

  /** "**" and more glob: any number of whole leading segments may go. */
  lemma {:induction false} DoubleStarSegments(g: string, qs: seq<string>)
    requires PathSegments(qs) && NewlineFree(Join(qs))
    ensures GlobMatch("**" + ['/'] + g, Join(qs)) <==> exists j | 0 <= j < |qs| :: GlobMatch(g, Join(qs[j..]))
  {
    if GlobMatch("**" + ['/'] + g, Join(qs)) {
      DoubleStarSkips(g, qs);
    }
    if j :| 0 <= j < |qs| && GlobMatch(g, Join(qs[j..])) {
      DoubleStarTakes(g, qs, j);
    }
  }

  /**
   On clean relative paths without newlines the emitted expression and the reading by segments
   agree, for every glob in which a double star is a whole segment.
   */
  lemma {:induction false} GlobReadsBySegments(ps: seq<string>, qs: seq<string>)
    requires PlainGlob(ps) && PathSegments(qs) && NewlineFree(Join(qs))
    ensures GlobMatch(Join(ps), Join(qs)) <==> PathMatch(ps, qs)
    decreases |ps|
  {
    var q := Join(qs);
    if |ps| == 1 {
      assert Join(ps) == ps[0];
      assert PlainSegment(ps[0]);
      if ps[0] == "**" {
        assert q[..|q|] == q && q[|q|..] == "";
        assert GlobMatch("**"[2..], q[|q|..]);
      } else {
        LastSegment(ps[0], q);
        OneSegmentLeft(ps, qs);
      }
    } else {
      assert PlainSegment(ps[0]);
      assert PlainGlob(ps[1..]);
      var g := Join(ps[1..]);
      if ps[0] == "**" {
        DoubleStarSegments(g, qs);
        NoSegmentsLeft(ps[1..]);
        forall j | 0 <= j < |qs|
          ensures GlobMatch(g, Join(qs[j..])) <==> PathMatch(ps[1..], qs[j..])
        {
          SuffixNewlineFree(qs, j);
          GlobReadsBySegments(ps[1..], qs[j..]);
        }
        assert qs[|qs|..] == [];
      } else if |qs| == 1 {
        NeedsSlash(ps[0], g, q);
        NoSegmentsLeft(ps[1..]);
        assert qs[1..] == [];
      } else {
        SuffixNewlineFree(qs, 1);
        FirstSegment(ps[0], g, qs[0], Join(qs[1..]));
        GlobReadsBySegments(ps[1..], qs[1..]);
      }
    }
  }

  lemma {:induction false} OneSegmentLeft(ps: seq<string>, qs: seq<string>)
    requires |ps| == 1 && ps[0] != "**" && PathSegments(qs)
    ensures PathMatch(ps, qs) <==> SlashFree(Join(qs)) && SegmentMatch(ps[0], Join(qs))
  {
    assert ps[1..] == [];
    if |qs| == 1 {
      assert qs[1..] == [];
    } else {
      JoinCons(qs);
      assert Join(qs)[|qs[0]|] == '/';
    }
  }

  lemma {:induction false} SuffixNewlineFree(qs: seq<string>, j: nat)
    requires j < |qs| && NewlineFree(Join(qs))
    ensures NewlineFree(Join(qs[j..]))
    decreases |qs|
  {
    if j == 0 {
      assert qs[0..] == qs;
    } else {
      JoinCons(qs);
      assert Join(qs)[|qs[0]| + 1..] == Join(qs[1..]);
      SuffixNewlineFree(qs[1..], j - 1);
      assert qs[1..][j - 1..] == qs[j..];
    }
  }

  // ----- literal prefixes -----

  predicate WildcardFree(s: string) {
    '*' !in s && '?' !in s
  }

  /** A literal part of the glob must be spelled out by the path. */
  lemma {:induction false} LiteralPrefix(lit: string, g: string, s: string)
    requires WildcardFree(lit) && GlobMatch(lit + g, s)
    ensures lit <= s && GlobMatch(g, s[|lit|..])
  {
    if lit == "" {
      assert lit + g == g && s[0..] == s;
    } else {
      assert (lit + g)[1..] == lit[1..] + g;
      LiteralPrefix(lit[1..], g, s[1..]);
      assert lit == [lit[0]] + lit[1..] && s == [s[0]] + s[1..];
      assert s[1..][|lit| - 1..] == s[|lit|..];
    }
  }

  /** A glob without wildcards matches itself and nothing else. */
  lemma {:induction false} LiteralGlob(g: string, s: string)
    requires WildcardFree(g)
    ensures GlobMatch(g, s) <==> s == g
  {
    if g != "" && s != "" {
      LiteralGlob(g[1..], s[1..]);
      assert g == [g[0]] + g[1..] && s == [s[0]] + s[1..];
    }
  }
}
