/** Strings as the Go standard library sees them: order, splitting, joining and sorting. */
module Text {

  datatype Option<+T> = None | Some(value: T)

  datatype Result<+T> = Ok(value: T) | Err(reason: string)

  /** Lexicographic order of strings. */
  predicate Less(a: string, b: string) {
    if b == [] then false
    else if a == [] then true
    else a[0] < b[0] || (a[0] == b[0] && Less(a[1..], b[1..]))
  }

  lemma {:induction false} LessIrreflexive(a: string)
    ensures !Less(a, a)
  {
    if a != [] {
      LessIrreflexive(a[1..]);
    }
  }

  lemma {:induction false} LessTransitive(a: string, b: string, c: string)
    requires Less(a, b) && Less(b, c)
    ensures Less(a, c)
  {
    if a != [] && a[0] == b[0] == c[0] {
      LessTransitive(a[1..], b[1..], c[1..]);
    }
  }

  lemma {:induction false} LessTotal(a: string, b: string)
    ensures a == b || Less(a, b) || Less(b, a)
  {
    if a != [] && b != [] && a[0] == b[0] {
      LessTotal(a[1..], b[1..]);
      assert a == [a[0]] + a[1..] && b == [b[0]] + b[1..];
    }
  }

  predicate StrictlySorted(xs: seq<string>) {
    forall i, j :: 0 <= i < j < |xs| ==> Less(xs[i], xs[j])
  }

  function Elements(xs: seq<string>): set<string> {
    set x | x in xs
  }

  lemma SortedNoRepeat(xs: seq<string>, i: nat, j: nat)
    requires StrictlySorted(xs) && i < |xs| && j < |xs| && xs[i] == xs[j]
    ensures i == j
  {
    LessIrreflexive(xs[i]);
  }

  lemma HeadIsElement(xs: seq<string>)
    ensures xs != [] ==> xs[0] in Elements(xs)
  {
  }

  /** A sorted list without repeats is determined by its elements. */
  lemma {:induction false} SortedUnique(xs: seq<string>, ys: seq<string>)
    requires StrictlySorted(xs) && StrictlySorted(ys) && Elements(xs) == Elements(ys)
    ensures xs == ys
    decreases |xs|
  {
    HeadIsElement(xs);
    HeadIsElement(ys);
    if xs != [] {
      SortedFirst(xs, ys);
      SortedRest(xs);
      SortedRest(ys);
      SortedUnique(xs[1..], ys[1..]);
      assert xs == [xs[0]] + xs[1..] && ys == [ys[0]] + ys[1..];
    }
  }

  lemma SortedFirst(xs: seq<string>, ys: seq<string>)
    requires StrictlySorted(xs) && StrictlySorted(ys) && Elements(xs) == Elements(ys) && xs != [] && ys != []
    ensures xs[0] == ys[0]
  {
    assert xs[0] in Elements(ys) && ys[0] in Elements(xs);
    var i :| 0 <= i < |ys| && ys[i] == xs[0];
    var j :| 0 <= j < |xs| && xs[j] == ys[0];
    if i > 0 && j > 0 {
      LessTransitive(xs[0], ys[0], xs[0]);
      LessIrreflexive(xs[0]);
    }
  }

  lemma SortedRest(xs: seq<string>)
    requires StrictlySorted(xs) && xs != []
    ensures StrictlySorted(xs[1..]) && Elements(xs[1..]) == Elements(xs) - {xs[0]}
  {
    forall x | x in Elements(xs) - {xs[0]}
      ensures x in xs[1..]
    {
      var i :| 0 <= i < |xs| && xs[i] == x;
      assert xs[1..][i - 1] == x;
    }
    if xs[0] in xs[1..] {
      var i :| 0 <= i < |xs[1..]| && xs[1..][i] == xs[0];
      SortedNoRepeat(xs, 0, i + 1);
    }
  }

  /** Put one new string in its place. */
  method InsertSorted(xs: seq<string>, x: string) returns (ys: seq<string>)
    requires StrictlySorted(xs) && x !in xs
    ensures StrictlySorted(ys) && Elements(ys) == Elements(xs) + {x}
  {
    var k := 0;
    while k < |xs| && Less(xs[k], x)
      invariant k <= |xs|
      invariant forall i :: 0 <= i < k ==> Less(xs[i], x)
    {
      k := k + 1;
    }
    ys := xs[..k] + [x] + xs[k..];
    InsertedSorted(xs, x, k);
  }

  lemma {:induction false} InsertedSorted(xs: seq<string>, x: string, k: nat)
    requires StrictlySorted(xs) && x !in xs && k <= |xs|
    requires forall i :: 0 <= i < k ==> Less(xs[i], x)
    requires k < |xs| ==> !Less(xs[k], x)
    ensures StrictlySorted(xs[..k] + [x] + xs[k..])
    ensures Elements(xs[..k] + [x] + xs[k..]) == Elements(xs) + {x}
  {
    forall i | k <= i < |xs|
      ensures Less(x, xs[i])
    {
      LessTotal(x, xs[k]);
      if k < i {
        LessTransitive(x, xs[k], xs[i]);
      }
    }
    assert xs == xs[..k] + xs[k..];
  }

  /** uniqueSorted of internal/verify and internal/wave: drop empties and repeats, then sort. */
  method UniqueSorted(values: seq<string>) returns (out: seq<string>)
    ensures StrictlySorted(out)
    ensures Elements(out) == Elements(values) - {""}
  {
    out := [];
    for i := 0 to |values|
      invariant StrictlySorted(out)
      invariant Elements(out) == Elements(values[..i]) - {""}
    {
      assert Elements(values[..i + 1]) == Elements(values[..i]) + {values[i]} by {
        assert values[..i + 1] == values[..i] + [values[i]];
      }
      if values[i] != "" && values[i] !in out {
        out := InsertSorted(out, values[i]);
      }
    }
    assert values[..|values|] == values;
  }

  /** The keys of a map in sorted order. */
  method SortedSet(keys: set<string>) returns (out: seq<string>)
    ensures StrictlySorted(out) && Elements(out) == keys
  {
    out := [];
    var rest := keys;
    while rest != {}
      invariant StrictlySorted(out)
      invariant Elements(out) == keys - rest && rest <= keys
      decreases rest
    {
      var x :| x in rest;
      assert x !in Elements(out);
      out := InsertSorted(out, x);
      rest := rest - {x};
    }
  }

  // ----- splitting and joining on '/' -----

  predicate SlashFree(s: string) {
    '/' !in s
  }

  predicate AllSlashFree(parts: seq<string>) {
    forall i :: 0 <= i < |parts| ==> SlashFree(parts[i])
  }

  /** strings.Split(s, "/"). */
  function Split(s: string): (parts: seq<string>)
    ensures |parts| >= 1
  {
    if s == [] then [[]]
    else
      var rest := Split(s[1..]);
      if s[0] == '/' then [[]] + rest else [[s[0]] + rest[0]] + rest[1..]
  }

  /** strings.Join(parts, "/"). */
  function Join(parts: seq<string>): string
    decreases |parts|
  {
    if parts == [] then []
    else if |parts| == 1 then parts[0]
    else parts[0] + ['/'] + Join(parts[1..])
  }

  lemma {:induction false} JoinSplit(s: string)
    ensures Join(Split(s)) == s
    ensures AllSlashFree(Split(s))
  {
    if s != [] {
      var rest := Split(s[1..]);
      JoinSplit(s[1..]);
      if s[0] == '/' {
        assert ([[]] + rest)[1..] == rest;
        assert Join([[]] + rest) == [] + ['/'] + Join(rest);
      } else {
        JoinHead(s[0], rest);
      }
      assert s == [s[0]] + s[1..];
    }
  }

  lemma {:induction false} JoinHead(c: char, parts: seq<string>)
    requires |parts| >= 1
    ensures Join([[c] + parts[0]] + parts[1..]) == [c] + Join(parts)
  {
    var longer := [[c] + parts[0]] + parts[1..];
    if |parts| == 1 {
      assert longer == [[c] + parts[0]];
    } else {
      assert longer[1..] == parts[1..];
      Assoc([c], parts[0], ['/']);
      Assoc([c], parts[0] + ['/'], Join(parts[1..]));
    }
  }

  lemma Assoc(a: string, b: string, c: string)
    ensures a + b + c == a + (b + c)
  {
  }

  lemma {:induction false} SplitFree(s: string)
    requires SlashFree(s)
    ensures Split(s) == [s]
  {
    if s != [] {
      SplitFree(s[1..]);
      assert s == [s[0]] + s[1..];
    }
  }

  lemma {:induction false} SplitConcat(a: string, b: string)
    requires SlashFree(a)
    ensures Split(a + ['/'] + b) == [a] + Split(b)
  {
    var s := a + ['/'] + b;
    if a == [] {
      assert s[1..] == b;
    } else {
      assert s[1..] == a[1..] + ['/'] + b;
      SplitConcat(a[1..], b);
      assert [[a[0]] + a[1..]] + Split(b) == [a] + Split(b) by {
        assert a == [a[0]] + a[1..];
      }
      assert ([a[1..]] + Split(b))[1..] == Split(b);
    }
  }

  lemma {:induction false} SplitJoin(parts: seq<string>)
    requires parts != [] && AllSlashFree(parts)
    ensures Split(Join(parts)) == parts
    decreases |parts|
  {
    if |parts| == 1 {
      SplitFree(parts[0]);
    } else {
      SplitJoin(parts[1..]);
      SplitConcat(parts[0], Join(parts[1..]));
      assert parts == [parts[0]] + parts[1..];
    }
  }

  lemma {:induction false} JoinConcat(a: seq<string>, b: seq<string>)
    requires a != [] && b != []
    ensures Join(a + b) == Join(a) + ['/'] + Join(b)
    decreases |a|
  {
    assert (a + b)[1..] == a[1..] + b;
    if |a| == 1 {
      assert a[1..] + b == b;
    } else {
      JoinConcat(a[1..], b);
      assert a[0] + ['/'] + (Join(a[1..]) + ['/'] + Join(b)) == a[0] + ['/'] + Join(a[1..]) + ['/'] + Join(b);
    }
  }
}
