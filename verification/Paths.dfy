/** Path names in the byte order that `sort.Strings` uses. */
module Paths {
  import opened Basics

  predicate Less(a: string, b: string) {
    b != "" && (a == "" || a[0] < b[0] || (a[0] == b[0] && Less(a[1..], b[1..])))
  }

  lemma {:induction false} LessTotal(a: string, b: string)
    ensures Less(a, b) || a == b || Less(b, a)
    ensures !(Less(a, b) && Less(b, a)) && !(Less(a, b) && a == b)
  {
    if a != "" && b != "" && a[0] == b[0] {
      LessTotal(a[1..], b[1..]);
      assert a[1..] == b[1..] ==> a == [a[0]] + a[1..] == b;
    }
  }

  lemma {:induction false} LessTransitive(a: string, b: string, c: string)
    requires Less(a, b) && Less(b, c)
    ensures Less(a, c)
  {
    if a != "" && a[0] == b[0] == c[0] { LessTransitive(a[1..], b[1..], c[1..]); }
  }

  /** Strictly increasing: sorted and without repetition. */
  ghost predicate Increasing(s: seq<string>) {
    forall i, j :: 0 <= i < j < |s| ==> Less(s[i], s[j])
  }

  /** Sorted, repetitions allowed. */
  ghost predicate Ascending(s: seq<string>) {
    forall i, j :: 0 <= i < j < |s| ==> !Less(s[j], s[i])
  }

  /** A set of names has only one sorted list. */
  lemma {:induction false} IncreasingUnique(a: seq<string>, b: seq<string>)
    requires Increasing(a) && Increasing(b) && forall x :: x in a <==> x in b
    ensures a == b
    decreases |a|
  {
    if a == [] {
      if b != [] { HasMember(b); }
    } else {
      assert a[0] in a;
      assert b != [] && b[0] in b && a[0] in b && b[0] in a;
      HeadLeast(a, b[0]);
      HeadLeast(b, a[0]);
      LessTotal(a[0], b[0]);
      var c, d := a[1..], b[1..];
      forall x ensures x in c <==> x in d {
        TailMember(a, x);
        TailMember(b, x);
      }
      IncreasingUnique(c, d);
      assert a == [a[0]] + c && b == [b[0]] + d;
    }
  }

  lemma HasMember(a: seq<string>)
    requires a != []
    ensures exists x :: x in a
  {
    assert a[0] in a;
  }

  lemma HeadLeast(a: seq<string>, x: string)
    requires Increasing(a) && x in a
    ensures a[0] == x || Less(a[0], x)
  {
  }

  lemma TailMember(a: seq<string>, x: string)
    requires Increasing(a) && a != []
    ensures x in a[1..] <==> x in a && x != a[0]
  {
    LessTotal(a[0], a[0]);
    if x in a && x != a[0] {
      var i :| 0 <= i < |a| && a[i] == x;
      assert a[1..][i - 1] == x;
    }
    if x in a[1..] {
      var i :| 0 <= i < |a[1..]| && a[1..][i] == x;
      assert a[i + 1] == x;
    }
  }

  lemma {:induction false} PrefixLess(a: string, b: string)
    requires |b| < |a| && a[..|b|] == b
    ensures Less(b, a)
  {
    if b != "" {
      assert a[..|b|][0] == a[0] && a[1..][..|b| - 1] == a[..|b|][1..];
      PrefixLess(a[1..], b[1..]);
    }
  }

  // ----- sorting -----

  /** Inserts one name into a sorted list. */
  method InsertSorted(s: seq<string>, x: string) returns (r: seq<string>)
    requires Ascending(s)
    ensures Ascending(r) && multiset(r) == multiset(s) + multiset{x}
  {
    var k := |s|;
    while k > 0 && Less(x, s[k - 1])
      invariant 0 <= k <= |s|
      invariant forall i :: k <= i < |s| ==> Less(x, s[i])
    {
      k := k - 1;
    }
    r := s[..k] + [x] + s[k..];
    assert s == s[..k] + s[k..];
    forall i, j | 0 <= i < j < |r| ensures !Less(r[j], r[i]) {
      InsertedInOrder(s, x, k, i, j);
    }
  }

  lemma InsertedInOrder(s: seq<string>, x: string, k: nat, i: nat, j: nat)
    requires Ascending(s) && k <= |s| && i < j <= |s|
    requires (forall t :: k <= t < |s| ==> Less(x, s[t])) && (k > 0 ==> !Less(x, s[k - 1]))
    ensures var r := s[..k] + [x] + s[k..]; !Less(r[j], r[i])
  {
    if j == k {
      if i < k - 1 && Less(x, s[i]) {
        LessTotal(s[i], s[k - 1]);
        if s[i] != s[k - 1] { LessTransitive(x, s[i], s[k - 1]); }
      }
    } else if i == k {
      LessTotal(x, s[j - 1]);
    }
  }

  method SortStrings(a: seq<string>) returns (r: seq<string>)
    ensures Ascending(r) && multiset(r) == multiset(a)
  {
    r := [];
    for i := 0 to |a|
      invariant Ascending(r) && multiset(r) == multiset(a[..i])
    {
      r := InsertSorted(r, a[i]);
      assert a[..i + 1] == a[..i] + [a[i]];
    }
    assert a[..|a|] == a;
  }

  /** Drops repetitions next to each other. */
  method DeduplicatePaths(paths: seq<string>) returns (result: seq<string>)
    requires Ascending(paths)
    ensures Increasing(result) && forall x :: x in result <==> x in paths
  {
    result := [];
    for i := 0 to |paths|
      invariant Increasing(result)
      invariant forall x :: x in result <==> x in paths[..i]
      invariant i == 0 ==> result == []
      invariant i > 0 ==> result != [] && result[|result| - 1] == paths[i - 1]
    {
      assert paths[..i + 1] == paths[..i] + [paths[i]];
      if result == [] || result[|result| - 1] != paths[i] {
        forall k | 0 <= k < |result| ensures Less(result[k], paths[i]) {
          assert !Less(paths[i], paths[i - 1]);
          LessTotal(result[|result| - 1], paths[i]);
          if k < |result| - 1 { LessTransitive(result[k], result[|result| - 1], paths[i]); }
        }
        result := result + [paths[i]];
      }
    }
    assert paths[..|paths|] == paths;
  }

  /** The elements of a set, in order. */
  method SortSet(all: set<string>) returns (paths: seq<string>)
    ensures Increasing(paths) && forall x :: x in paths <==> x in all
  {
    var list: seq<string> := [];
    var todo := all;
    while todo != {}
      invariant todo <= all && forall x :: x in list <==> x in all && x !in todo
      decreases |todo|
    {
      var x :| x in todo;
      list := list + [x];
      todo := todo - {x};
    }
    var sorted := SortStrings(list);
    paths := DeduplicatePaths(sorted);
    forall x ensures x in paths <==> x in all {
      assert x in sorted <==> x in multiset(sorted);
      assert x in list <==> x in multiset(list);
    }
  }

  // ----- names and their components -----

  /** A name as its components. */
  type Path = seq<string>

  predicate Prefix(a: Path, b: Path) { |a| <= |b| && b[..|a|] == a }

  /** `name` lies below `path`. */
  predicate Inside(name: string, path: string) {
    |path| < |name| && name[..|path|] == path && name[|path|] == '/'
  }

  /** A component: not empty, without a slash. */
  predicate Component(c: string) { c != "" && '/' !in c }

  predicate Named(p: Path) { p != [] && forall i :: 0 <= i < |p| ==> Component(p[i]) }

  function Join(p: Path): string
    requires p != []
  {
    if |p| == 1 then p[0] else p[0] + "/" + Join(p[1..])
  }

  /** A joined name begins with `c` and a slash exactly when it has more components after `c`. */
  lemma FirstComponent(p: Path, c: string)
    requires Named(p) && Component(c)
    ensures Inside(Join(p), c) <==> |p| > 1 && p[0] == c
  {
    var s := Join(p);
    assert forall i :: 0 <= i < |p[0]| ==> s[i] == p[0][i] && p[0][i] in p[0];
    assert |p| > 1 ==> s[|p[0]|] == '/' && s[..|p[0]|] == p[0];
    assert forall i :: 0 <= i < |c| ==> c[i] in c;
    assert |c| <= |s| ==> forall i :: 0 <= i < |c| ==> s[..|c|][i] == s[i];
  }

  /** Lying below, on strings and on components. */
  lemma {:induction false} InsideIsPrefix(p: Path, q: Path)
    requires Named(p) && Named(q)
    ensures Inside(Join(q), Join(p)) <==> Prefix(p, q) && |p| < |q|
    decreases |p|
  {
    if |p| == 1 {
      FirstComponent(q, p[0]);
    } else {
      var s, t, c := Join(q), Join(p), p[0];
      FirstComponent(q, c);
      if |q| > 1 && q[0] == c {
        InsideIsPrefix(p[1..], q[1..]);
        assert q[..|q|] == [c] + q[1..] && p == [c] + p[1..];
        SameStart(c + "/", Join(q[1..]), Join(p[1..]));
      } else {
        assert t[..|c|] == c && t[|c|] == '/';
        assert |t| <= |s| ==> s[..|t|][..|c|] == s[..|c|] && s[|c|] == s[..|t|][|c|];
      }
    }
  }

  lemma SameStart(a: string, s: string, t: string)
    ensures Inside(a + s, a + t) <==> Inside(s, t)
  {
    if |t| < |s| {
      assert (a + s)[..|a + t|] == a + s[..|t|];
      assert (a + s)[|a + t|] == s[|t|];
      assert a + s[..|t|] == a + t ==> s[..|t|] == (a + s[..|t|])[|a|..] == t;
    }
  }

  lemma {:induction false} NoSeparator(c: string, at: char)
    requires at !in c
    ensures Split(c, at) == [c]
  {
    if c != "" {
      assert c == [c[0]] + c[1..];
      NoSeparator(c[1..], at);
    }
  }

  lemma {:induction false} SplitFirst(c: string, s: string, at: char)
    requires at !in c
    ensures Split(c + [at] + s, at) == [c] + Split(s, at)
  {
    var t := c + [at] + s;
    if c == "" {
      assert t[1..] == s;
    } else {
      assert c == [c[0]] + c[1..] && t[1..] == c[1..] + [at] + s;
      SplitFirst(c[1..], s, at);
    }
  }

  /** The components of a joined name are those it was joined from. */
  lemma {:induction false} SplitJoin(p: Path)
    requires Named(p)
    ensures Split(Join(p), '/') == p
    decreases |p|
  {
    if |p| == 1 {
      NoSeparator(p[0], '/');
    } else {
      SplitJoin(p[1..]);
      SplitFirst(p[0], Join(p[1..]), '/');
      assert p == [p[0]] + p[1..];
    }
  }

  /** Every name is its components joined. */
  lemma {:induction false} JoinSplit(s: string)
    ensures Join(Split(s, '/')) == s
  {
    if s != "" {
      var rest := Split(s[1..], '/');
      JoinSplit(s[1..]);
      if s[0] == '/' {
        assert ([""] + rest)[1..] == rest;
      } else {
        var parts := [[s[0]] + rest[0]] + rest[1..];
        assert parts[1..] == rest[1..];
        assert Join(parts) == [s[0]] + Join(rest);
      }
    }
  }
}
