/** Which names a manifest selects (internal/configsync/manifest.go, policy.go). */
module Manifest {
  import opened Basics
  import opened Paths

  datatype Root = Root(path: string, directory: bool)

  predicate Covers(root: Root, name: string) {
    name == root.path || (root.directory && Inside(name, root.path))
  }

  ghost predicate Selects(roots: seq<Root>, name: string) {
    exists i :: 0 <= i < |roots| && Covers(roots[i], name)
  }

  // ----- include lines -----

  datatype Line = Blank | Unsafe | Wanted(root: Root)

  /** One trimmed line of `.pbinclude`; `accepts` are the checks on the name. */
  function ReadLine(line: string, accepts: string -> bool): Line {
    if line == "" || line[0] == '#' then Blank
    else
      var directory := line[|line| - 1] == '/';
      var name := if directory then line[..|line| - 1] else line;
      if accepts(name) then Wanted(Root(name, directory)) else Unsafe
  }

  /** The lines as they stand select `name`. */
  ghost predicate LinesSelect(lines: seq<string>, accepts: string -> bool, name: string) {
    exists i :: 0 <= i < |lines| && ReadLine(lines[i], accepts).Wanted? && Covers(ReadLine(lines[i], accepts).root, name)
  }

  ghost predicate AllSafe(lines: seq<string>, accepts: string -> bool) {
    forall i :: 0 <= i < |lines| ==> !ReadLine(lines[i], accepts).Unsafe?
  }

  /** The names of the roots, in order. */
  function Names(roots: seq<Root>): seq<string> { seq(|roots|, i requires 0 <= i < |roots| => roots[i].path) }

  /** No root is covered by another one. */
  ghost predicate Minimal(roots: seq<Root>) {
    forall i, j :: 0 <= i < |roots| && 0 <= j < |roots| && i != j ==> !Covers(roots[j], roots[i].path)
  }

  /** By name, a directory if any line says so. */
  ghost predicate Collected(byPath: map<string, bool>, lines: seq<string>, accepts: string -> bool, n: nat) {
    && n <= |lines|
    && (forall p :: p in byPath <==>
          exists i :: 0 <= i < n && ReadLine(lines[i], accepts).Wanted? && ReadLine(lines[i], accepts).root.path == p)
    && (forall p :: p in byPath ==>
          (byPath[p] <==> exists i :: 0 <= i < n && ReadLine(lines[i], accepts) == Wanted(Root(p, true))))
  }

  method CollectLines(lines: seq<string>, accepts: string -> bool) returns (ok: bool, byPath: map<string, bool>)
    ensures ok <==> AllSafe(lines, accepts)
    ensures ok ==> Collected(byPath, lines, accepts, |lines|)
  {
    hide Collected;
    byPath := map[];
    CollectNothing(lines, accepts);
    for i := 0 to |lines|
      invariant Collected(byPath, lines, accepts, i)
      invariant forall k :: 0 <= k < i ==> !ReadLine(lines[k], accepts).Unsafe?
    {
      match ReadLine(lines[i], accepts)
      case Blank =>
        CollectSkips(byPath, lines, accepts, i);
      case Unsafe =>
        return false, byPath;
      case Wanted(root) =>
        ghost var was := byPath;
        if root.path !in byPath || (root.directory && !byPath[root.path]) {
          byPath := byPath[root.path := root.directory];
        }
        CollectAdds(was, byPath, lines, accepts, i);
    }
    ok := true;
  }

  lemma CollectNothing(lines: seq<string>, accepts: string -> bool)
    ensures Collected(map[], lines, accepts, 0)
  {
  }

  lemma CollectSkips(byPath: map<string, bool>, lines: seq<string>, accepts: string -> bool, n: nat)
    requires n < |lines| && Collected(byPath, lines, accepts, n) && !ReadLine(lines[n], accepts).Wanted?
    ensures Collected(byPath, lines, accepts, n + 1)
  {
  }

  lemma CollectAdds(was: map<string, bool>, byPath: map<string, bool>, lines: seq<string>, accepts: string -> bool, n: nat)
    requires n < |lines| && Collected(was, lines, accepts, n) && ReadLine(lines[n], accepts).Wanted?
    requires var root := ReadLine(lines[n], accepts).root;
      byPath == if root.path !in was || (root.directory && !was[root.path]) then was[root.path := root.directory] else was
    ensures Collected(byPath, lines, accepts, n + 1)
  {
    hide ReadLine;
    var root := ReadLine(lines[n], accepts).root;
    forall p | p in was
      ensures exists i :: 0 <= i < n + 1 && ReadLine(lines[i], accepts).Wanted? && ReadLine(lines[i], accepts).root.path == p
    {
      var i :| 0 <= i < n && ReadLine(lines[i], accepts).Wanted? && ReadLine(lines[i], accepts).root.path == p;
    }
  }

  /** A line without its final slash. */
  function Bare(line: string): string {
    if line != "" && line[|line| - 1] == '/' then line[..|line| - 1] else line
  }

  /** What lines mean, in the characters of the lines: a name is selected exactly if some line that is not empty and no
      comment is that name, or is that name or a beginning of it once the line ends in a slash. */
  lemma LinesMean(lines: seq<string>, accepts: string -> bool, name: string)
    ensures AllSafe(lines, accepts) <==>
      forall i :: 0 <= i < |lines| && lines[i] != "" && lines[i][0] != '#' ==> accepts(Bare(lines[i]))
    ensures LinesSelect(lines, accepts, name) <==>
      exists i :: 0 <= i < |lines| && lines[i] != "" && lines[i][0] != '#' && accepts(Bare(lines[i]))
                  && (name == Bare(lines[i]) || (Bare(lines[i]) != lines[i] && lines[i] <= name))
  {
    forall i | 0 <= i < |lines| && ReadLine(lines[i], accepts).Wanted?
      ensures Covers(ReadLine(lines[i], accepts).root, name) <==>
        name == Bare(lines[i]) || (Bare(lines[i]) != lines[i] && lines[i] <= name)
    {
      LineCovers(lines[i], name);
    }
  }

  lemma LineCovers(line: string, name: string)
    requires line != ""
    ensures line[|line| - 1] == '/' ==>
      (Covers(Root(Bare(line), true), name) <==> name == Bare(line) || line <= name) && Bare(line) != line
    ensures line[|line| - 1] != '/' ==> (Covers(Root(line, false), name) <==> name == Bare(line)) && Bare(line) == line
  {
    var n := |line| - 1;
    if line[n] == '/' && |line| <= |name| {
      assert line == line[..n] + ['/'];
      if name[..n] == line[..n] && name[n] == '/' { assert name[..n + 1] == line; }
      if line <= name { assert name[..n + 1] == line && name[..n] == name[..n + 1][..n]; }
    }
  }

  // ----- minimal roots -----

  /** Whatever covers a root covers all that the root covers. */
  lemma CoversTransitive(a: Root, b: Root, name: string)
    requires Covers(a, b.path) && (b.directory ==> a.directory) && Covers(b, name)
    ensures Covers(a, name)
  {
  }

  ghost predicate AllCovered(all: seq<Root>, n: nat, kept: seq<Root>) {
    forall k :: 0 <= k < n <= |all| ==>
      exists j :: 0 <= j < |kept| && Covers(kept[j], all[k].path) && (all[k].directory ==> kept[j].directory)
  }

  method IsRedundant(candidate: Root, kept: seq<Root>) returns (redundant: bool)
    ensures redundant <==> exists k :: 0 <= k < |kept| && kept[k].directory && Inside(candidate.path, kept[k].path)
  {
    for j := 0 to |kept|
      invariant forall k :: 0 <= k < j ==> !(kept[k].directory && Inside(candidate.path, kept[k].path))
    {
      if kept[j].directory && Inside(candidate.path, kept[j].path) {
        return true;
      }
    }
    return false;
  }

  /** Drops every root that a kept directory root covers. */
  method DropRedundant(all: seq<Root>) returns (kept: seq<Root>)
    requires Increasing(Names(all))
    ensures Increasing(Names(kept)) && Minimal(kept) && AllCovered(all, |all|, kept)
    ensures forall r :: r in kept ==> r in all
  {
    kept := [];
    for i := 0 to |all|
      invariant Increasing(Names(kept)) && Minimal(kept) && AllCovered(all, i, kept)
      invariant forall r :: r in kept ==> r in all[..i]
    {
      var candidate := all[i];
      assert all[..i + 1] == all[..i] + [candidate];
      var redundant := IsRedundant(candidate, kept);
      if !redundant {
        KeepNext(all, i, kept);
        kept := kept + [candidate];
      } else {
        assert AllCovered(all, i + 1, kept);
      }
    }
    assert all[..|all|] == all;
  }

  lemma KeepNext(all: seq<Root>, i: nat, kept: seq<Root>)
    requires i < |all| && Increasing(Names(all)) && Increasing(Names(kept)) && Minimal(kept) && AllCovered(all, i, kept)
    requires forall r :: r in kept ==> r in all[..i]
    requires forall k :: 0 <= k < |kept| ==> !(kept[k].directory && Inside(all[i].path, kept[k].path))
    ensures var more := kept + [all[i]]; Increasing(Names(more)) && Minimal(more) && AllCovered(all, i + 1, more)
  {
    var more := kept + [all[i]];
    forall k | 0 <= k < |kept| ensures Less(kept[k].path, all[i].path) {
      assert kept[k] in all[..i];
      var j :| 0 <= j < i && all[j] == kept[k];
      assert Less(Names(all)[j], Names(all)[i]);
    }
    assert Increasing(Names(more)) by {
      forall a, b | 0 <= a < b < |more| ensures Less(Names(more)[a], Names(more)[b]) {
        if b < |kept| { assert Less(Names(kept)[a], Names(kept)[b]); }
      }
    }
    forall a, b | 0 <= a < |more| && 0 <= b < |more| && a != b ensures !Covers(more[b], more[a].path) {
      if a < |kept| && b == |kept| {
        LessTotal(kept[a].path, all[i].path);
        if Inside(kept[a].path, all[i].path) { PrefixLess(kept[a].path, all[i].path); }
      } else if b < |kept| && a == |kept| {
        LessTotal(kept[b].path, all[i].path);
      }
    }
    forall k | 0 <= k < i + 1
      ensures exists j :: 0 <= j < |more| && Covers(more[j], all[k].path) && (all[k].directory ==> more[j].directory)
    {
      if k < i {
        var j :| 0 <= j < |kept| && Covers(kept[j], all[k].path) && (all[k].directory ==> kept[j].directory);
        assert more[j] == kept[j];
      } else {
        assert more[|kept|] == all[k];
      }
    }
  }

  /** Roots that come from `all` and cover all of it select the same names. */
  lemma SameSelection(all: seq<Root>, kept: seq<Root>, name: string)
    requires AllCovered(all, |all|, kept) && forall r :: r in kept ==> r in all
    ensures Selects(kept, name) <==> Selects(all, name)
  {
    if Selects(kept, name) {
      var i :| 0 <= i < |kept| && Covers(kept[i], name);
      assert kept[i] in all;
    }
    if Selects(all, name) {
      var k :| 0 <= k < |all| && Covers(all[k], name);
      var j :| 0 <= j < |kept| && Covers(kept[j], all[k].path) && (all[k].directory ==> kept[j].directory);
      CoversTransitive(kept[j], all[k], name);
    }
  }

  /** The collected names select what the lines select. */
  lemma CollectedSelects(byPath: map<string, bool>, lines: seq<string>, accepts: string -> bool, all: seq<Root>, name: string)
    requires Collected(byPath, lines, accepts, |lines|)
    requires forall r :: r in all <==> r.path in byPath && r.directory == byPath[r.path]
    ensures Selects(all, name) <==> LinesSelect(lines, accepts, name)
  {
  }

  /** The roots of a manifest: sorted strictly, none covered by another, and selecting exactly what the
      lines select. Fails exactly when some line is unsafe. */
  method ParseInclude(lines: seq<string>, accepts: string -> bool) returns (ok: bool, roots: seq<Root>)
    ensures ok <==> AllSafe(lines, accepts)
    ensures ok ==> Increasing(Names(roots)) && Minimal(roots) && forall r :: r in roots ==> accepts(r.path)
    ensures ok ==> forall name :: Selects(roots, name) <==> LinesSelect(lines, accepts, name)
  {
    var byPath;
    ok, byPath := CollectLines(lines, accepts);
    if !ok {
      return false, [];
    }
    var sorted := SortSet(byPath.Keys);
    CollectedAccepted(byPath, lines, accepts);
    hide Collected, LinesSelect, Selects, Covers;
    var all := RootsOf(byPath, sorted);
    roots := DropRedundant(all);
    forall name ensures Selects(roots, name) <==> LinesSelect(lines, accepts, name) {
      CollectedSelects(byPath, lines, accepts, all, name);
      SameSelection(all, roots, name);
    }
  }

  lemma CollectedAccepted(byPath: map<string, bool>, lines: seq<string>, accepts: string -> bool)
    requires Collected(byPath, lines, accepts, |lines|)
    ensures forall p :: p in byPath ==> accepts(p)
  {
  }

  method RootsOf(byPath: map<string, bool>, sorted: seq<string>) returns (all: seq<Root>)
    requires Increasing(sorted) && forall p :: p in sorted <==> p in byPath
    ensures Increasing(Names(all)) && forall r :: r in all <==> r.path in byPath && r.directory == byPath[r.path]
  {
    all := [];
    for i := 0 to |sorted|
      invariant |all| == i && forall k :: 0 <= k < i ==> sorted[k] in byPath && all[k] == Root(sorted[k], byPath[sorted[k]])
    {
      assert sorted[i] in sorted;
      all := all + [Root(sorted[i], byPath[sorted[i]])];
    }
    assert Names(all) == sorted;
    forall r ensures r in all <==> r.path in byPath && r.directory == byPath[r.path] {
      if r.path in byPath && r.directory == byPath[r.path] {
        var k :| 0 <= k < |sorted| && sorted[k] == r.path;
        assert all[k] == r;
      }
    }
  }
}
